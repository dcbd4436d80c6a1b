/**
 * The music-content creation handler: its own multipart parser, which
 * differs from the update handler's in where it appends a part, the loop
 * that picks the metadata, audio and cover parts, the checks on them, the
 * two uploads and the item it stores.
 *
 * S3 and DynamoDB calls are recorded, not made: a response carries the
 * uploads made before it was returned and the item stored.  The content id,
 * the clock, `json.loads` and the presigned URL are parameters.
 */
module CreateMusicContent {
  import opened Wrappers
  import opened Json
  import opened Multipart
  import opened Requests
  import Text
  import Admin

  // ---------------------------------------------------------------------
  // The parser as written
  // ---------------------------------------------------------------------

  /**
   * The parser's dictionaries and the list it returns.  The list holds
   * references into the dictionaries: a section without a name appends the
   * previous dictionary a second time, so entries may share one object.
   */
  datatype Store = Store(objects: seq<Part>, refs: seq<nat>)

  predicate ValidStore(st: Store) {
    forall i :: 0 <= i < |st.refs| ==> st.refs[i] < |st.objects|
  }

  /** The list the parser returns, each reference read through. */
  function Resolve(st: Store): (r: seq<Part>)
    requires ValidStore(st)
    ensures |r| == |st.refs|
    ensures forall i :: 0 <= i < |st.refs| ==> r[i] == st.objects[st.refs[i]]
  {
    seq(|st.refs|, i requires 0 <= i < |st.refs| => st.objects[st.refs[i]])
  }

  /** A dictionary after `if filename:` and `if content_type:` have assigned into it. */
  function Override(p: Part, h: Headers): Part
  {
    p.(filename := if NonEmpty(h.filename).Some? then NonEmpty(h.filename) else p.filename,
       contentType := if NonEmpty(h.contentType).Some? then NonEmpty(h.contentType) else p.contentType)
  }

  /** A section the parser reads (not blank, with a blank line) whose headers give no name. */
  predicate Nameless(section: string) {
    SectionFields(section).Some? && SectionPart(section).None?
  }

  /**
   * One section.  A named section adds a new dictionary and appends it; a
   * nameless one assigns its file name and type into the previous dictionary
   * and appends that again, or raises when there is none yet (`part` is
   * unbound).
   */
  function AsWrittenStep(st: Store, section: string): (r: Option<Store>)
    requires ValidStore(st)
    ensures r.Some? ==> ValidStore(r.value)
    ensures r.None? <==> Nameless(section) && st.objects == []
    ensures r.Some? ==> |r.value.refs| == |st.refs| + (if SectionFields(section).Some? then 1 else 0)
  {
    var fields := SectionFields(section);
    if fields.None? then Some(st)
    else if SectionPart(section).Some? then
      Some(Store(st.objects + [SectionPart(section).value], st.refs + [|st.objects|]))
    else if st.objects == [] then None
    else
      var last := |st.objects| - 1;
      Some(Store(st.objects[last := Override(st.objects[last], fields.value.0)], st.refs + [last]))
  }

  /** The loop over the sections, `None` once it has raised. */
  function AsWrittenSections(sections: seq<string>): (r: Option<Store>)
    ensures r.Some? ==> ValidStore(r.value)
  {
    if sections == [] then Some(Store([], []))
    else
      var init := AsWrittenSections(sections[..|sections| - 1]);
      if init.None? then None else AsWrittenStep(init.value, sections[|sections| - 1])
  }

  /** What the create handler's `_parse_multipart` returns, `None` where it raises. */
  function AsWrittenParts(body: string, boundary: string): Option<seq<Part>>
  {
    var st := AsWrittenSections(InnerSections(body, boundary));
    if st.None? then None else Some(Resolve(st.value))
  }

  /** The body of the parser's loop for one section, on the dictionaries and the list so far. */
  method ReadSectionAsWritten(objects: seq<Part>, refs: seq<nat>, section: string) returns (r: Option<Store>)
    requires ValidStore(Store(objects, refs))
    ensures r == AsWrittenStep(Store(objects, refs), section)
  {
    var fields := ReadFields(section);
    if fields.None? {
      return Some(Store(objects, refs));
    }
    var (headers, data) := fields.value;
    var named := headers.name.Some? && headers.name.value != [];
    if !named && objects == [] {
      return None;
    }
    // the dictionary `part` names: a new one, or the previous one again
    var part := if named then Part(headers.name.value, data, None, None) else objects[|objects| - 1];
    if NonEmpty(headers.filename).Some? {
      part := part.(filename := NonEmpty(headers.filename));
    }
    if NonEmpty(headers.contentType).Some? {
      part := part.(contentType := NonEmpty(headers.contentType));
    }
    if named {
      assert part == SectionPart(section).value;
      r := Some(Store(objects + [part], refs + [|objects|]));
    } else {
      assert part == Override(objects[|objects| - 1], headers);
      r := Some(Store(objects[|objects| - 1 := part], refs + [|objects| - 1]));
    }
  }

  /** The create handler's `_parse_multipart`. */
  method ParseMultipartAsWritten(body: string, boundary: string) returns (r: Option<seq<Part>>)
    ensures r == AsWrittenParts(body, boundary)
  {
    var inner := InnerSections(body, boundary);
    var st := Store([], []);
    var i := 0;
    while i < |inner|
      invariant i <= |inner|
      invariant AsWrittenSections(inner[..i]) == Some(st)
    {
      assert inner[..i + 1][..i] == inner[..i];
      var next := ReadSectionAsWritten(st.objects, st.refs, inner[i]);
      if next.None? {
        AsWrittenFailsFrom(inner, i + 1);
        return None;
      }
      st := next.value;
      i := i + 1;
    }
    assert inner[..i] == inner;
    r := Some(Resolve(st));
  }

  /** Once the loop has raised, the parser raises. */
  lemma {:induction false} AsWrittenFailsFrom(sections: seq<string>, k: nat)
    requires k <= |sections| && AsWrittenSections(sections[..k]).None?
    ensures AsWrittenSections(sections).None?
    decreases |sections| - k
  {
    if k < |sections| {
      assert sections[..k + 1][..k] == sections[..k];
      AsWrittenFailsFrom(sections, k + 1);
    } else {
      assert sections[..k] == sections;
    }
  }

  /** `[0, 1, ..., n - 1]`. */
  function Indices(n: nat): (r: seq<nat>)
    ensures |r| == n && forall i :: 0 <= i < n ==> r[i] == i
  {
    seq(n, i requires 0 <= i < n => i)
  }

  /**
   * Without nameless sections the parser keeps one dictionary per part, each
   * appended once, and the parts are those of the update handler's parser.
   */
  lemma {:induction false} AsWrittenWithoutNameless(sections: seq<string>)
    requires forall i :: 0 <= i < |sections| ==> !Nameless(sections[i])
    ensures AsWrittenSections(sections) == Some(Store(SectionParts(sections), Indices(|SectionParts(sections)|)))
  {
    if sections != [] {
      var n := |sections|;
      var init := sections[..n - 1];
      assert forall i :: 0 <= i < n - 1 ==> init[i] == sections[i];
      AsWrittenWithoutNameless(init);
      var x := sections[n - 1];
      assert sections == init + [x];
      SectionPartsSnoc(init, x);
      StepNamed(SectionParts(init), x);
    }
  }

  /** A section with a name, or one the parser skips, keeps one dictionary per part. */
  lemma StepNamed(ps: seq<Part>, x: string)
    requires !Nameless(x)
    ensures AsWrittenStep(Store(ps, Indices(|ps|)), x)
            == Some(Store(ps + (if SectionPart(x).Some? then [SectionPart(x).value] else []),
                          Indices(|ps| + (if SectionPart(x).Some? then 1 else 0))))
  {
    if SectionPart(x).Some? {
      assert Indices(|ps|) + [|ps|] == Indices(|ps| + 1);
    } else {
      assert ps + [] == ps;
    }
  }

  /** Where no section is nameless, both parsers return the same parts. */
  lemma AsWrittenAgrees(body: string, boundary: string)
    requires var inner := InnerSections(body, boundary);
             forall i :: 0 <= i < |inner| ==> !Nameless(inner[i])
    ensures AsWrittenParts(body, boundary) == Some(MultipartParts(body, boundary))
  {
    var inner := InnerSections(body, boundary);
    AsWrittenWithoutNameless(inner);
    var ps := SectionParts(inner);
    assert Resolve(Store(ps, Indices(|ps|))) == ps;
  }

  /** Sections the parser skips leave it where it started. */
  lemma {:induction false} SkippedPrefix(sections: seq<string>)
    requires forall i :: 0 <= i < |sections| ==> SectionFields(sections[i]).None?
    ensures AsWrittenSections(sections) == Some(Store([], []))
  {
    if sections != [] {
      SkippedPrefix(sections[..|sections| - 1]);
    }
  }

  /** A nameless section right after skipped ones makes the parser raise. */
  lemma NamelessAfterSkipped(upTo: seq<string>)
    requires |upTo| > 0 && Nameless(upTo[|upTo| - 1])
    requires AsWrittenSections(upTo[..|upTo| - 1]) == Some(Store([], []))
    ensures AsWrittenSections(upTo).None?
  {
  }

  /** A nameless section before any named one makes the parser raise. */
  lemma NamelessFirstRaises(sections: seq<string>, k: nat)
    requires k < |sections| && Nameless(sections[k])
    requires forall j :: 0 <= j < k ==> SectionFields(sections[j]).None?
    ensures AsWrittenSections(sections).None?
  {
    var skipped := sections[..k];
    assert forall j :: 0 <= j < k ==> skipped[j] == sections[j];
    SkippedPrefix(skipped);
    var upTo := sections[..k + 1];
    assert upTo[..k] == skipped;
    NamelessAfterSkipped(upTo);
    AsWrittenFailsFrom(sections, k + 1);
  }

  lemma OneNamedSection(e: string)
    requires SectionPart(e).Some?
    ensures AsWrittenSections([e]) == Some(Store([SectionPart(e).value], [0]))
  {
    assert [e][..0] == [];
    assert AsWrittenSections([e]) == AsWrittenStep(Store([], []), e);
    assert [] + [SectionPart(e).value] == [SectionPart(e).value];
    assert [] + [0] == [0];
  }

  lemma NamelessAfterOne(e: string, s: string)
    requires SectionPart(e).Some? && Nameless(s)
    ensures AsWrittenSections([e, s]) == Some(Store([Override(SectionPart(e).value, SectionFields(s).value.0)], [0, 0]))
  {
    OneNamedSection(e);
    assert [e, s][..1] == [e];
    var p := SectionPart(e).value;
    assert AsWrittenSections([e, s]) == AsWrittenStep(Store([p], [0]), s);
    StepNameless(p, s);
  }

  lemma NamedThenNamelessParts(e: string, s: string)
    requires SectionPart(e).Some? && Nameless(s)
    ensures SectionParts([e, s]) == [SectionPart(e).value]
  {
    SectionPartsSnoc([e], s);
    SectionPartsSnoc([], e);
    assert [e] + [s] == [e, s];
    assert [] + [e] == [e];
  }

  lemma StepNameless(p: Part, s: string)
    requires Nameless(s)
    ensures AsWrittenStep(Store([p], [0]), s) == Some(Store([Override(p, SectionFields(s).value.0)], [0, 0]))
  {
    assert [p][0 := Override(p, SectionFields(s).value.0)] == [Override(p, SectionFields(s).value.0)];
    assert [0] + [0] == [0, 0];
  }

  /**
   * A field followed by a nameless section comes back twice, both times
   * with the file name and type the nameless section gave, while the update
   * handler's parser returns the field once, unchanged.
   */
  lemma NamelessRepeatsPart(name: string, data: string, s: string)
    requires PlainName(name) && Nameless(s)
    ensures var p := Override(Part(name, data, None, None), SectionFields(s).value.0);
            var st := AsWrittenSections([EncodeSection(name, data), s]);
            st.Some? && Resolve(st.value) == [p, p]
    ensures SectionParts([EncodeSection(name, data), s]) == [Part(name, data, None, None)]
  {
    var e := EncodeSection(name, data);
    SectionRoundTrip(name, data);
    NamelessAfterOne(e, s);
    NamedThenNamelessParts(e, s);
  }

  /** A section that is read but names nothing: one header line without a name, then the blank line. */
  lemma NamelessExample()
    ensures Nameless("x\r\n\r\n")
  {
    var s := "x\r\n\r\n";
    assert !IsByteSpace(s[0]);
    assert Text.IsAt(s, BlankLine, 1);
    assert !Text.IsAt(s, BlankLine, 0) by {
      assert s[0..4][0] == 'x';
    }
    assert s[..1] == "x";
    Text.NotContained("x", CRLF, 0);
    assert ReadHeaders(["x"]) == ReadHeaderLine(ReadHeaders([]), "x");
  }

  // ---------------------------------------------------------------------
  // Requests and responses
  // ---------------------------------------------------------------------

  /**
   * The deployment's settings: the bucket, the comma-separated allowed
   * audio and image types, the audio size limit and the optional image size
   * limit.
   */
  datatype Config = Config(
    bucket: string,
    allowedFileTypes: string,
    maxFileSize: int,
    allowedImageTypes: string,
    maxImageSize: Option<int>)

  const DefaultMaxImageSize: int := 5242880

  function MaxImageSize(config: Config): int
  {
    if config.maxImageSize.Some? then config.maxImageSize.value else DefaultMaxImageSize
  }

  /** The request: the event (for the authorizer context), its headers and its decoded body. */
  datatype Request = Request(event: map<string, Value>, headers: map<string, string>, body: string)

  /** An object put into the bucket. */
  datatype Upload = Upload(key: string, data: string, contentType: string)

  /** The stored item; `optional` holds the genre and album copied from the metadata. */
  datatype Item = Item(
    contentId: string,
    title: Value,
    artistId: Value,
    filename: string,
    fileType: string,
    fileSize: nat,
    s3Key: string,
    bucketName: string,
    createdAt: string,
    lastModified: string,
    coverImageS3Key: string,
    coverImageUrl: string,
    coverImageContentType: string,
    optional: map<string, Value>)

  /** A response: its status and message, the uploads made before it, the item stored. */
  datatype Response = Response(status: int, message: string, uploads: seq<Upload>, item: Option<Item>)

  function Reply(status: int, message: string): Response
  {
    Response(status, message, [], None)
  }

  const Forbidden := "Access denied. Administrator role required."
  const InternalError := "Internal server error"
  const Created := "Music content created successfully"
  const RequiredFields: seq<string> := ["title", "artistId"]
  const OptionalFields: seq<string> := ["genre", "album"]

  /** `headers.get('content-type', headers.get('Content-Type', ''))`. */
  function ContentTypeHeader(headers: map<string, string>): string
  {
    if "content-type" in headers then headers["content-type"]
    else if "Content-Type" in headers then headers["Content-Type"]
    else ""
  }

  /** The parts of the request, `None` when it names no boundary or the parser raises. */
  function RequestParts(req: Request): Option<seq<Part>>
  {
    var boundary := Boundary(ContentTypeHeader(req.headers));
    if boundary.None? then None else AsWrittenParts(req.body, boundary.value)
  }

  // ---------------------------------------------------------------------
  // Checks on the metadata
  // ---------------------------------------------------------------------

  /** The first of `fields` the metadata lacks, `Err` where `in` raises. */
  function MissingField(meta: Value, fields: seq<string>): (r: Result<Option<string>>)
    ensures r.Err? <==> fields != [] && PyIn(fields[0], meta).None?
    ensures r == Ok(None) ==> forall i :: 0 <= i < |fields| ==> PyIn(fields[i], meta) == Some(true)
    ensures r.Ok? && r.value.Some? ==> exists i :: 0 <= i < |fields| && fields[i] == r.value.value && PyIn(fields[i], meta) == Some(false)
  {
    if fields == [] then Ok(None)
    else
      var present := PyIn(fields[0], meta);
      if present.None? then Err("argument is not iterable")
      else if !present.value then Ok(Some(fields[0]))
      else
        var rest := MissingField(meta, fields[1..]);
        assert forall i :: 1 <= i < |fields| ==> fields[i] == fields[1..][i - 1];
        rest
  }

  /** `for field in required_fields:` */
  method CheckRequiredFields(meta: Value, fields: seq<string>) returns (r: Result<Option<string>>)
    ensures r == MissingField(meta, fields)
  {
    var i := 0;
    while i < |fields|
      invariant i <= |fields|
      invariant MissingField(meta, fields) == MissingField(meta, fields[i..])
    {
      assert fields[i..][1..] == fields[i + 1..];
      var present := PyIn(fields[i], meta);
      if present.None? {
        return Err("argument is not iterable");
      }
      if !present.value {
        return Ok(Some(fields[i]));
      }
      i := i + 1;
    }
    r := Ok(None);
  }

  /** The fields of `fields` the metadata holds with a truthy value. */
  function Optional(meta: map<string, Value>, fields: seq<string>): (r: map<string, Value>)
    ensures forall k :: k in r <==> k in fields && k in meta && Truthy(meta[k])
    ensures forall k :: k in r ==> r[k] == meta[k]
  {
    if fields == [] then map[]
    else
      var f := fields[|fields| - 1];
      var init := Optional(meta, fields[..|fields| - 1]);
      assert forall k :: k in fields <==> k in fields[..|fields| - 1] || k == f;
      if f in meta && Truthy(meta[f]) then init[f := meta[f]] else init
  }

  /** `for field in optional_fields:` copying into the item. */
  method CopyOptionalFields(meta: map<string, Value>, fields: seq<string>) returns (copied: map<string, Value>)
    ensures copied == Optional(meta, fields)
  {
    copied := map[];
    var i := 0;
    while i < |fields|
      invariant i <= |fields|
      invariant copied == Optional(meta, fields[..i])
    {
      assert fields[..i + 1][..i] == fields[..i];
      var field := fields[i];
      if field in meta && Truthy(meta[field]) {
        copied := copied[field := meta[field]];
      }
      i := i + 1;
    }
    assert fields[..i] == fields;
  }

  // ---------------------------------------------------------------------
  // The handler
  // ---------------------------------------------------------------------

  /** `file_part.get("content_type", "audio/mpeg")`. */
  function AudioType(audio: Part): string
  {
    if audio.contentType.Some? then audio.contentType.value else "audio/mpeg"
  }

  /** `cover_image_part.get("content_type", "")`. */
  function ImageType(cover: Part): string
  {
    if cover.contentType.Some? then cover.contentType.value else ""
  }

  function AudioKey(contentId: string, filename: string): string
  {
    "music-content/" + contentId + "/" + filename
  }

  function CoverKey(contentId: string, extension: string): string
  {
    "music-content/" + contentId + "/cover" + extension
  }

  /**
   * The handler.  Its `except Exception` turns every raise into a 500; a
   * metadata part that is not JSON gives a 400.
   */
  function Handle(req: Request, config: Config, contentId: string, now: string,
                  decode: string -> Option<Value>, presign: string -> string): (r: Response)
    ensures r.status == 403 <==> !Admin.IsAdminUser(req.event)
    ensures r.status == 201 ==> r.item.Some? && |r.uploads| == 2
    ensures r.status != 201 ==> r.item.None?
  {
    if !Admin.IsAdminUser(req.event) then Reply(403, Forbidden)
    else
      var boundary := Boundary(ContentTypeHeader(req.headers));
      if boundary.None? then Reply(400, "Invalid content-type header")
      else
        var parts := AsWrittenParts(req.body, boundary.value);
        if parts.None? then Reply(500, InternalError)
        else
          var sel := Select(parts.value, decode);
          if sel.None? then Reply(400, "Invalid JSON in metadata")
          else Received(sel.value, config, contentId, now, presign)
  }

  /** The checks on the chosen parts and what follows them. */
  function Received(sel: Selection, config: Config, contentId: string, now: string, presign: string -> string): (r: Response)
    ensures r.status in {201, 400, 500}
    ensures r.status == 201 ==> r.item.Some? && |r.uploads| == 2
    ensures r.status != 201 ==> r.item.None?
  {
    if !Truthy(sel.metadata) || sel.audio.None? then Reply(400, "Missing metadata or audioFile part")
    else
      var missing := MissingField(sel.metadata, RequiredFields);
      if missing.Err? then Reply(500, InternalError)
      else if missing.value.Some? then Reply(400, "Missing required field: " + missing.value.value)
      else StoreAudio(sel.metadata, sel.audio.value, sel.cover, config, contentId, now, presign)
  }

  /** The audio checks and upload, then the cover. */
  function StoreAudio(meta: Value, audio: Part, cover: Option<Part>, config: Config, contentId: string, now: string,
                      presign: string -> string): (r: Response)
    ensures r.status in {201, 400, 500}
    ensures r.status == 201 ==> r.item.Some? && |r.uploads| == 2
    ensures r.status != 201 ==> r.item.None?
  {
    var fileType := AudioType(audio);
    if fileType !in Text.Split(config.allowedFileTypes, ",") then
      Reply(400, "Unsupported audio file type: " + fileType)
    else if |audio.data| > config.maxFileSize then
      Reply(400, "File size exceeds the maximum limit of " + Text.IntToString(config.maxFileSize) + " bytes")
    else if audio.filename.None? then Reply(500, InternalError)
    else
      var upload := Upload(AudioKey(contentId, audio.filename.value), audio.data, fileType);
      var rest := StoreCover(meta, audio, cover, config, contentId, now, presign);
      rest.(uploads := [upload] + rest.uploads)
  }

  /**
   * The cover checks and upload, then the item.  Without a cover part the
   * handler reads the never-assigned `cover_image_key` and raises, after the
   * audio upload.
   */
  function StoreCover(meta: Value, audio: Part, cover: Option<Part>, config: Config, contentId: string, now: string,
                      presign: string -> string): (r: Response)
    requires audio.filename.Some?
    ensures r.status in {201, 400, 500}
    ensures r.status == 201 ==> r.item.Some? && |r.uploads| == 1
    ensures r.status != 201 ==> r.item.None?
  {
    if cover.None? then Reply(500, InternalError)
    else
      var imageType := ImageType(cover.value);
      if imageType !in Text.Split(config.allowedImageTypes, ",") then
        Reply(400, "Unsupported cover image file type: " + imageType)
      else if |cover.value.data| > MaxImageSize(config) then
        Reply(400, "Cover image size exceeds the maximum limit of " + Text.IntToString(MaxImageSize(config)) + " bytes")
      else if cover.value.filename.None? then Reply(500, InternalError)
      else
        var key := CoverKey(contentId, FileExtension(cover.value.filename.value, imageType));
        var upload := Upload(key, cover.value.data, imageType);
        var item := Record(meta, audio, config, contentId, now, key, presign(key), imageType);
        if item.None? then Response(500, InternalError, [upload], None)
        else Response(201, Created, [upload], item)
  }

  /** The item, `None` where indexing the metadata raises. */
  function Record(meta: Value, audio: Part, config: Config, contentId: string, now: string,
                  coverKey: string, coverUrl: string, imageType: string): (r: Option<Item>)
    requires audio.filename.Some?
    ensures r.Some? <==> meta.Object? && "title" in meta.fields && "artistId" in meta.fields
  {
    var title := PyIndex(meta, "title");
    var artistId := PyIndex(meta, "artistId");
    if title.None? || artistId.None? then None
    else
      Some(Item(
        contentId := contentId,
        title := title.value,
        artistId := artistId.value,
        filename := audio.filename.value,
        fileType := AudioType(audio),
        fileSize := |audio.data|,
        s3Key := AudioKey(contentId, audio.filename.value),
        bucketName := config.bucket,
        createdAt := now,
        lastModified := now,
        coverImageS3Key := coverKey,
        coverImageUrl := coverUrl,
        coverImageContentType := imageType,
        optional := Optional(meta.fields, OptionalFields)))
  }

  /** The handler, step by step, recording its uploads as it makes them. */
  method HandleRequest(req: Request, config: Config, contentId: string, now: string,
                       decode: string -> Option<Value>, presign: string -> string) returns (r: Response)
    ensures r == Handle(req, config, contentId, now, decode, presign)
  {
    if !Admin.IsAdminUser(req.event) {
      return Reply(403, Forbidden);
    }
    var boundary := Boundary(ContentTypeHeader(req.headers));
    if boundary.None? {
      return Reply(400, "Invalid content-type header");
    }
    var parts := ParseMultipartAsWritten(req.body, boundary.value);
    if parts.None? {
      return Reply(500, InternalError);
    }
    var sel := SelectParts(parts.value, decode);
    if sel.None? {
      return Reply(400, "Invalid JSON in metadata");
    }
    r := ReceiveParts(sel.value, config, contentId, now, presign);
  }

  /** From the chosen parts on. */
  method ReceiveParts(sel: Selection, config: Config, contentId: string, now: string,
                      presign: string -> string) returns (r: Response)
    ensures r == Received(sel, config, contentId, now, presign)
  {
    var meta := sel.metadata;
    if !Truthy(meta) || sel.audio.None? {
      return Reply(400, "Missing metadata or audioFile part");
    }
    var missing := CheckRequiredFields(meta, RequiredFields);
    if missing.Err? {
      return Reply(500, InternalError);
    }
    if missing.value.Some? {
      return Reply(400, "Missing required field: " + missing.value.value);
    }
    var audio := sel.audio.value;
    var fileType := AudioType(audio);
    if fileType !in Text.Split(config.allowedFileTypes, ",") {
      return Reply(400, "Unsupported audio file type: " + fileType);
    }
    if |audio.data| > config.maxFileSize {
      return Reply(400, "File size exceeds the maximum limit of " + Text.IntToString(config.maxFileSize) + " bytes");
    }
    if audio.filename.None? {
      return Reply(500, InternalError);
    }
    var audioUpload := Upload(AudioKey(contentId, audio.filename.value), audio.data, fileType);
    var rest := StoreCoverAndItem(meta, audio, sel.cover, config, contentId, now, presign);
    r := rest.(uploads := [audioUpload] + rest.uploads);
  }

  /** The cover and the item, after the audio upload. */
  method StoreCoverAndItem(meta: Value, audio: Part, cover: Option<Part>, config: Config, contentId: string, now: string,
                           presign: string -> string) returns (r: Response)
    requires audio.filename.Some?
    ensures r == StoreCover(meta, audio, cover, config, contentId, now, presign)
  {
    if cover.None? {
      // `cover_image_key` was never assigned
      return Reply(500, InternalError);
    }
    var image := cover.value;
    var imageType := ImageType(image);
    if imageType !in Text.Split(config.allowedImageTypes, ",") {
      return Reply(400, "Unsupported cover image file type: " + imageType);
    }
    var maxImageSize := MaxImageSize(config);
    if |image.data| > maxImageSize {
      return Reply(400, "Cover image size exceeds the maximum limit of " + Text.IntToString(maxImageSize) + " bytes");
    }
    if image.filename.None? {
      return Reply(500, InternalError);
    }
    var coverKey := CoverKey(contentId, FileExtension(image.filename.value, imageType));
    var uploads := [Upload(coverKey, image.data, imageType)];
    var coverUrl := presign(coverKey);
    var title := PyIndex(meta, "title");
    var artistId := PyIndex(meta, "artistId");
    if title.None? || artistId.None? {
      return Response(500, InternalError, uploads, None);
    }
    var optional := CopyOptionalFields(meta.fields, OptionalFields);
    var item := Item(
      contentId := contentId,
      title := title.value,
      artistId := artistId.value,
      filename := audio.filename.value,
      fileType := AudioType(audio),
      fileSize := |audio.data|,
      s3Key := AudioKey(contentId, audio.filename.value),
      bucketName := config.bucket,
      createdAt := now,
      lastModified := now,
      coverImageS3Key := coverKey,
      coverImageUrl := coverUrl,
      coverImageContentType := imageType,
      optional := optional);
    r := Response(201, Created, uploads, Some(item));
  }

  // ---------------------------------------------------------------------
  // What the handler promises
  // ---------------------------------------------------------------------

  /** The audio part passes every check before its upload. */
  predicate AudioAccepted(sel: Selection, config: Config) {
    && Truthy(sel.metadata) && sel.audio.Some?
    && MissingField(sel.metadata, RequiredFields) == Ok(None)
    && AudioType(sel.audio.value) in Text.Split(config.allowedFileTypes, ",")
    && |sel.audio.value.data| <= config.maxFileSize
    && sel.audio.value.filename.Some?
  }

  /** The upload of the audio part. */
  function AudioUpload(sel: Selection, contentId: string): Upload
    requires sel.audio.Some? && sel.audio.value.filename.Some?
  {
    var audio := sel.audio.value;
    Upload(AudioKey(contentId, audio.filename.value), audio.data, AudioType(audio))
  }

  /** The cover part is present and passes every check before its upload. */
  predicate CoverAccepted(sel: Selection, config: Config) {
    && sel.cover.Some?
    && ImageType(sel.cover.value) in Text.Split(config.allowedImageTypes, ",")
    && |sel.cover.value.data| <= MaxImageSize(config)
    && sel.cover.value.filename.Some?
  }

  /**
   * The audio file is uploaded exactly when its checks pass, and then it is
   * the first upload; otherwise nothing is uploaded.
   */
  lemma AudioUploadedIff(sel: Selection, config: Config, contentId: string, now: string, presign: string -> string)
    ensures var r := Received(sel, config, contentId, now, presign);
            AudioAccepted(sel, config) <==> r.uploads != []
    ensures var r := Received(sel, config, contentId, now, presign);
            AudioAccepted(sel, config) ==> r.uploads[0] == AudioUpload(sel, contentId)
  {
    var r := Received(sel, config, contentId, now, presign);
    if AudioAccepted(sel, config) {
      var audio := sel.audio.value;
      var rest := StoreCover(sel.metadata, audio, sel.cover, config, contentId, now, presign);
      assert r == StoreAudio(sel.metadata, audio, sel.cover, config, contentId, now, presign);
      assert r.uploads == [AudioUpload(sel, contentId)] + rest.uploads;
    } else if Truthy(sel.metadata) && sel.audio.Some? && MissingField(sel.metadata, RequiredFields) == Ok(None) {
      assert r == StoreAudio(sel.metadata, sel.audio.value, sel.cover, config, contentId, now, presign);
    }
  }

  /**
   * Content is created exactly when the metadata is a dictionary with a
   * title and an artist, the audio passes its checks and a cover image is
   * present and passes its checks.
   */
  lemma CreatedIff(sel: Selection, config: Config, contentId: string, now: string, presign: string -> string)
    ensures Received(sel, config, contentId, now, presign).status == 201
        <==> (&& AudioAccepted(sel, config) && CoverAccepted(sel, config)
              && sel.metadata.Object? && "title" in sel.metadata.fields && "artistId" in sel.metadata.fields)
  {
  }

  /**
   * Without a cover image nothing is created: once the audio passes its
   * checks it is uploaded and the handler then fails with a 500.
   */
  lemma NoCoverFailsAfterUpload(sel: Selection, config: Config, contentId: string, now: string, presign: string -> string)
    requires sel.cover.None?
    ensures Received(sel, config, contentId, now, presign).status != 201
    ensures AudioAccepted(sel, config)
            ==> Received(sel, config, contentId, now, presign) == Response(500, InternalError, [AudioUpload(sel, contentId)], None)
  {
  }

  /** A cover image of a type not allowed is refused after the audio is uploaded. */
  lemma CoverRefusedAfterUpload(sel: Selection, config: Config, contentId: string, now: string, presign: string -> string)
    requires AudioAccepted(sel, config) && sel.cover.Some?
    requires ImageType(sel.cover.value) !in Text.Split(config.allowedImageTypes, ",")
    ensures Received(sel, config, contentId, now, presign)
            == Response(400, "Unsupported cover image file type: " + ImageType(sel.cover.value), [AudioUpload(sel, contentId)], None)
  {
  }

  /**
   * What a successful request stores: the audio and the cover under the
   * content id, the metadata's title and artist, the audio's size, and the
   * genre and album exactly when the metadata gives them truthy.
   */
  lemma CreatedItem(sel: Selection, config: Config, contentId: string, now: string, presign: string -> string)
    requires Received(sel, config, contentId, now, presign).status == 201
    ensures var r := Received(sel, config, contentId, now, presign);
            var audio, cover, meta := sel.audio.value, sel.cover.value, sel.metadata.fields;
            var coverKey := CoverKey(contentId, FileExtension(cover.filename.value, ImageType(cover)));
            && r.uploads == [AudioUpload(sel, contentId), Upload(coverKey, cover.data, ImageType(cover))]
            && r.item.value.title == meta["title"] && r.item.value.artistId == meta["artistId"]
            && r.item.value.fileSize == |audio.data| && r.item.value.fileType == AudioType(audio)
            && r.item.value.s3Key == AudioKey(contentId, audio.filename.value)
            && r.item.value.coverImageS3Key == coverKey && r.item.value.coverImageUrl == presign(coverKey)
            && r.item.value.createdAt == now == r.item.value.lastModified
            && (forall k :: k in r.item.value.optional <==> (k == "genre" || k == "album") && k in meta && Truthy(meta[k]))
            && (forall k :: k in r.item.value.optional ==> r.item.value.optional[k] == meta[k])
  {
    CreatedIff(sel, config, contentId, now, presign);
  }

  /** A request whose first section read has no name fails with a 500: the parser raises. */
  lemma UnboundPartFails(req: Request, config: Config, contentId: string, now: string,
                         decode: string -> Option<Value>, presign: string -> string, boundary: string, k: nat)
    requires Admin.IsAdminUser(req.event)
    requires Boundary(ContentTypeHeader(req.headers)) == Some(boundary)
    requires var inner := InnerSections(req.body, boundary);
             && k < |inner| && Nameless(inner[k])
             && forall j :: 0 <= j < k ==> SectionFields(inner[j]).None?
    ensures Handle(req, config, contentId, now, decode, presign) == Reply(500, InternalError)
  {
    NamelessFirstRaises(InnerSections(req.body, boundary), k);
  }
}
