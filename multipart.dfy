/**
 * `_parse_multipart` of the music-content handlers: a simplified splitter
 * for `multipart/form-data` bodies.  It does not follow the grammar of the
 * standard; it cuts the body at every `--boundary`, keeps the pieces strictly
 * between the first and the last cut, and reads each piece's header lines
 * for a `name="..."`, a `filename="..."` and a `Content-Type:`.  This file
 * holds the variant of the update handler, which skips a section without a
 * name; the creation handler's variant is in create_music_content.dfy.
 *
 * Bytes are modelled as characters, one per byte, so decoding the header
 * bytes as UTF-8 is the identity here.
 */
module Multipart {
  import opened Wrappers
  import opened Json
  import Text

  const CRLF: string := "\r\n"
  const BlankLine: string := "\r\n\r\n"

  /** Whitespace for `bytes.strip()`: space, tab, line feed, vertical tab, form feed, carriage return. */
  predicate IsByteSpace(c: char) { c == ' ' || '\t' <= c <= '\r' }

  predicate IsByteBlank(s: string) { forall i :: 0 <= i < |s| ==> IsByteSpace(s[i]) }

  /** What the header lines of one section have said so far. */
  datatype Headers = Headers(name: Option<string>, filename: Option<string>, contentType: Option<string>)

  /** A part as the update handler's parser returns it; optional keys are absent when empty. */
  datatype Part = Part(name: string, data: string, filename: Option<string>, contentType: Option<string>)

  /** `line.split(key)[1].split('"')[0]`, for a line that contains `key`. */
  function Quoted(line: string, key: string): string
    requires |key| > 0 && Text.Contains(line, key)
  {
    Text.Before(Text.Split(line, key)[1], "\"")
  }

  /** `line.split(key)[1]` for a line that starts with `key`. */
  function After(line: string, key: string): string
    requires |key| > 0 && Text.StartsWith(line, key)
  {
    assert Text.IsAt(line, key, 0);
    Text.Split(line, key)[1]
  }

  /**
   * One header line: a `Content-Disposition:` line sets the name and the
   * file name it holds, a `Content-Type:` line the stripped type after the
   * colon, any other line nothing.
   */
  function ReadHeaderLine(h: Headers, line: string): Headers
  {
    if Text.StartsWith(line, "Content-Disposition:") then
      h.(name := if Text.Contains(line, "name=\"") then Some(Quoted(line, "name=\"")) else h.name,
         filename := if Text.Contains(line, "filename=\"") then Some(Quoted(line, "filename=\"")) else h.filename)
    else if Text.StartsWith(line, "Content-Type:") then
      h.(contentType := Some(Text.Strip(After(line, "Content-Type:"))))
    else h
  }

  const NoHeaders := Headers(None, None, None)

  /** The header lines read in order, a later line overriding an earlier one. */
  function ReadHeaders(lines: seq<string>): Headers
  {
    if lines == [] then NoHeaders
    else ReadHeaderLine(ReadHeaders(lines[..|lines| - 1]), lines[|lines| - 1])
  }

  /** An optional string, dropped when empty (the parser tests each with `if`). */
  function NonEmpty(o: Option<string>): (r: Option<string>)
    ensures r.Some? <==> o.Some? && o.value != []
    ensures r.Some? ==> r == o
  {
    if o.Some? && o.value != [] then o else None
  }

  /** The bytes after the first blank line, less one trailing CRLF. */
  function Body(section: string, headerEnd: nat): (r: string)
    requires headerEnd + 4 <= |section|
    ensures section[headerEnd + 4..] == r || section[headerEnd + 4..] == r + CRLF
  {
    var data := section[headerEnd + 4..];
    if Text.EndsWith(data, CRLF) then data[..|data| - 2] else data
  }

  /**
   * The headers and the data of one section; none for a section of
   * whitespace and for one without a blank line after its headers.
   */
  function SectionFields(section: string): Option<(Headers, string)>
  {
    if IsByteBlank(section) then None
    else
      var h := Text.Find(section, BlankLine);
      if h == -1 then None
      else Some((ReadHeaders(Text.Split(section[..h], CRLF)), Body(section, h)))
  }

  /** The part one section yields: none for a skipped section and for one whose headers give no name or an empty one. */
  function SectionPart(section: string): Option<Part>
  {
    var fields := SectionFields(section);
    if fields.None? then None
    else
      var (headers, data) := fields.value;
      if headers.name.None? || headers.name.value == [] then None
      else Some(Part(headers.name.value, data, NonEmpty(headers.filename), NonEmpty(headers.contentType)))
  }

  /** The parts of a run of sections, in order. */
  function SectionParts(sections: seq<string>): seq<Part>
  {
    if sections == [] then []
    else
      var p := SectionPart(sections[|sections| - 1]);
      SectionParts(sections[..|sections| - 1]) + (if p.Some? then [p.value] else [])
  }

  /** The delimiter `--boundary`. */
  function Delimiter(boundary: string): (r: string)
    ensures |r| > 0
  {
    "--" + boundary
  }

  /** `sections[1:-1]`: the sections strictly between the first and the last delimiter. */
  function InnerSections(body: string, boundary: string): (r: seq<string>)
    ensures var sections := Text.Split(body, Delimiter(boundary));
            |sections| >= 2 ==> r == sections[1..|sections| - 1]
    ensures |r| + 2 == |Text.Split(body, Delimiter(boundary))| || r == []
  {
    var sections := Text.Split(body, Delimiter(boundary));
    if |sections| < 2 then [] else sections[1..|sections| - 1]
  }

  /** `content_type.split('boundary=')[1]`, or none when the header names no boundary. */
  function Boundary(contentType: string): (r: Option<string>)
    ensures r.Some? <==> Text.Contains(contentType, "boundary=")
    ensures r.Some? ==> !Text.Contains(r.value, "boundary=")
    ensures r.Some? ==> Text.StartsWith(contentType, Text.Before(contentType, "boundary=") + "boundary=" + r.value)
  {
    if Text.Contains(contentType, "boundary=") then
      Text.SplitSecond(contentType, "boundary=");
      Some(Text.Split(contentType, "boundary=")[1])
    else None
  }

  /** What `_parse_multipart` returns. */
  function MultipartParts(body: string, boundary: string): seq<Part>
  {
    SectionParts(InnerSections(body, boundary))
  }

  /** The header loop of one section. */
  method ReadFields(section: string) returns (fields: Option<(Headers, string)>)
    ensures fields == SectionFields(section)
  {
    if IsByteBlank(section) {
      return None;
    }
    var h := Text.Find(section, BlankLine);
    if h == -1 {
      return None;
    }
    var data := Body(section, h);
    var lines := Text.Split(section[..h], CRLF);
    var headers := NoHeaders;
    var i := 0;
    while i < |lines|
      invariant i <= |lines|
      invariant headers == ReadHeaders(lines[..i])
    {
      headers := ReadHeaderLine(headers, lines[i]);
      assert lines[..i + 1][..i] == lines[..i];
      i := i + 1;
    }
    assert lines[..i] == lines;
    fields := Some((headers, data));
  }

  /** One section of the update handler's parser. */
  method ReadSection(section: string) returns (part: Option<Part>)
    ensures part == SectionPart(section)
  {
    var fields := ReadFields(section);
    part := None;
    if fields.Some? {
      var (headers, data) := fields.value;
      if headers.name.Some? && headers.name.value != [] {
        part := Some(Part(headers.name.value, data, NonEmpty(headers.filename), NonEmpty(headers.contentType)));
      }
    }
  }

  /** `_parse_multipart` of the update handler. */
  method ParseMultipart(body: string, boundary: string) returns (parts: seq<Part>)
    ensures parts == MultipartParts(body, boundary)
  {
    var inner := InnerSections(body, boundary);
    parts := [];
    var i := 0;
    while i < |inner|
      invariant i <= |inner|
      invariant parts == SectionParts(inner[..i])
    {
      var part := ReadSection(inner[i]);
      if part.Some? {
        parts := parts + [part.value];
      }
      assert inner[..i + 1][..i] == inner[..i];
      i := i + 1;
    }
    assert inner[..i] == inner;
  }

  // ---------------------------------------------------------------------
  // What the parser promises
  // ---------------------------------------------------------------------

  /** Every part has a name; a file name or a content type is kept only when it is not empty; no section gives two parts. */
  lemma {:induction false} PartsNamed(sections: seq<string>)
    ensures forall p :: p in SectionParts(sections) ==> p.name != []
    ensures forall p :: p in SectionParts(sections) ==> p.filename.Some? ==> p.filename.value != []
    ensures forall p :: p in SectionParts(sections) ==> p.contentType.Some? ==> p.contentType.value != []
    ensures |SectionParts(sections)| <= |sections|
  {
    if sections != [] {
      PartsNamed(sections[..|sections| - 1]);
    }
  }

  /** A part's data is what follows the first blank line of a non-blank section, less at most one final CRLF. */
  lemma PartData(section: string)
    requires SectionPart(section).Some?
    ensures var h := Text.Find(section, BlankLine);
            var data := SectionPart(section).value.data;
            && !IsByteBlank(section) && h >= 0
            && (section[h + 4..] == data || section[h + 4..] == data + CRLF)
  {
  }

  /** Sections that are blank or have no blank line give nothing. */
  lemma SkippedSections(section: string)
    requires IsByteBlank(section) || !Text.Contains(section, BlankLine)
    ensures SectionPart(section).None?
  {
  }

  /** The first and the last section never yield a part: a body with fewer than three pieces has none. */
  lemma FewDelimitersNoParts(body: string, boundary: string)
    requires |Text.Split(body, Delimiter(boundary))| <= 2
    ensures MultipartParts(body, boundary) == []
  {
  }

  // A section written by a client, and the part read back from it.

  /** A field name the parser reads back unchanged: not empty, no quote, equals sign or carriage return. */
  predicate PlainName(name: string) {
    name != [] && forall i :: 0 <= i < |name| ==> name[i] != '"' && name[i] != '=' && name[i] != '\r'
  }

  const DispositionPrefix: string := "Content-Disposition: form-data; name=\""

  lemma DispositionPrefixChars()
    ensures |DispositionPrefix| == 38
    ensures Text.StartsWith(DispositionPrefix, "Content-Disposition:")
    ensures DispositionPrefix[32..] == "name=\""
    ensures forall i :: 0 <= i < 38 ==> DispositionPrefix[i] != '\r'
    ensures forall i :: 0 <= i < 37 ==> DispositionPrefix[i] != '"'
    ensures forall i :: 0 <= i < 36 ==> DispositionPrefix[i] != '='
  {
    PrefixNoReturn();
    PrefixQuoteLast();
    PrefixEqualsAt36();
  }

  /** The disposition prefix holds no carriage return. */
  lemma PrefixNoReturn()
    ensures forall i :: 0 <= i < |DispositionPrefix| ==> DispositionPrefix[i] != '\r'
  {
    assert '\r' !in DispositionPrefix;
  }

  /** The prefix's only quote is its last character. */
  lemma PrefixQuoteLast()
    ensures forall i :: 0 <= i < 37 ==> DispositionPrefix[i] != '"'
  {
    assert '"' !in DispositionPrefix[..37];
  }

  /** The prefix's first `=` is at 36. */
  lemma PrefixEqualsAt36()
    ensures forall i :: 0 <= i < 36 ==> DispositionPrefix[i] != '='
  {
    assert '=' !in DispositionPrefix[..36];
  }

  /** The disposition line of a field. */
  function DispositionLine(name: string): string
  {
    DispositionPrefix + name + "\""
  }

  /** One field's section: a CRLF after the delimiter, the disposition line, a blank line, the data and a CRLF. */
  function EncodeSection(name: string, data: string): string
  {
    CRLF + DispositionLine(name) + BlankLine + data + CRLF
  }

  lemma DispositionLineChars(name: string)
    requires PlainName(name)
    ensures forall i :: 0 <= i < |DispositionLine(name)| ==> DispositionLine(name)[i] != '\r'
  {
    DispositionPrefixChars();
  }

  /** In a disposition line `name="` first occurs at 32, where the prefix ends with it. */
  lemma DispositionLineKey(name: string)
    requires PlainName(name)
    ensures Text.IsAt(DispositionLine(name), "name=\"", 32)
    ensures forall j :: 0 <= j < 32 ==> !Text.IsAt(DispositionLine(name), "name=\"", j)
  {
    var line := DispositionLine(name);
    DispositionPrefixChars();
    assert line[32..38] == DispositionPrefix[32..];
    Text.NotAtBefore(line, "name=\"", 5, 37);
  }

  /** A disposition line splits at `name="` into the prefix before it and the quoted rest. */
  lemma DispositionLineSplit(name: string)
    requires PlainName(name)
    ensures Text.Split(DispositionLine(name), "name=\"") == [DispositionLine(name)[..32], name + "\""]
  {
    var line := DispositionLine(name);
    var key := "name=\"";
    DispositionLineKey(name);
    assert line[38..] == name + "\"";
    Text.NotContained(name + "\"", key, 4);
    Text.SplitOnly(line, key, 32);
  }

  /** The text before the closing quote is the name. */
  lemma BeforeQuote(name: string)
    requires PlainName(name)
    ensures Text.Before(name + "\"", "\"") == name
  {
    Text.NotAtBefore(name + "\"", "\"", 0, |name|);
    Text.SplitFirst(name + "\"", "\"", |name|);
  }

  /** The `name="` of a disposition line is its first, so the quoted name comes back. */
  lemma DispositionLineName(name: string)
    requires PlainName(name)
    ensures Text.Contains(DispositionLine(name), "name=\"")
    ensures Quoted(DispositionLine(name), "name=\"") == name
  {
    DispositionLineSplit(name);
    BeforeQuote(name);
  }

  /** A disposition line of a plain name holds no `filename="`: its `=` could only be the one at 36. */
  lemma DispositionLineNoFilename(name: string)
    requires PlainName(name)
    ensures !Text.Contains(DispositionLine(name), "filename=\"")
  {
    DispositionPrefixChars();
    var line := DispositionLine(name);
    var fkey := "filename=\"";
    Text.NotAtBefore(line, fkey, 8, 36);
    forall j | 0 <= j && j + |fkey| <= |line| ensures !Text.IsAt(line, fkey, j) {
      if j == 28 {
        assert line[j..j + |fkey|][0] == line[28] == 't';
      } else if j > 28 {
        assert line[j..j + |fkey|][8] == line[j + 8] != '=';
      }
    }
  }

  /** The disposition line of a plain name gives that name and no file name. */
  lemma ReadDispositionLine(name: string)
    requires PlainName(name)
    ensures ReadHeaderLine(NoHeaders, DispositionLine(name)) == Headers(Some(name), None, None)
  {
    DispositionPrefixChars();
    var line := DispositionLine(name);
    assert line[..20] == DispositionPrefix[..20];
    DispositionLineName(name);
    DispositionLineNoFilename(name);
  }

  /** The headers of an encoded section: an empty line, then the disposition line. */
  lemma EncodedHeaderLines(name: string)
    requires PlainName(name)
    ensures Text.Split(CRLF + DispositionLine(name), CRLF) == ["", DispositionLine(name)]
  {
    var line := DispositionLine(name);
    var header := CRLF + line;
    assert Text.IsAt(header, CRLF, 0);
    Text.SplitFirst(header, CRLF, 0);
    assert header[2..] == line;
    DispositionLineChars(name);
    Text.NotContained(line, CRLF, 0);
  }

  /** The blank line of an encoded section is the one after its headers. */
  lemma EncodedBlankLine(name: string, data: string)
    requires PlainName(name)
    ensures Text.Find(EncodeSection(name, data), BlankLine) == 2 + |DispositionLine(name)|
  {
    var line := DispositionLine(name);
    var header := CRLF + line;
    var s := EncodeSection(name, data);
    assert s == header + BlankLine + (data + CRLF);
    DispositionLineChars(name);
    assert s[|header|..|header| + 4] == BlankLine;
    forall j | 0 <= j < |header| ensures !Text.IsAt(s, BlankLine, j) {
      if j + 4 <= |s| {
        if j == 0 {
          assert s[j..j + 4][2] == s[2] == line[0] == 'C';
        } else if j == 1 {
          assert s[j..j + 4][0] == '\n';
        } else {
          assert s[j..j + 4][0] == s[j] == line[j - 2];
        }
      }
    }
    Text.SplitFirst(s, BlankLine, |header|);
  }

  /** A client's section for a plain field name reads back as exactly that field. */
  lemma SectionRoundTrip(name: string, data: string)
    requires PlainName(name)
    ensures SectionPart(EncodeSection(name, data)) == Some(Part(name, data, None, None))
  {
    var s := EncodeSection(name, data);
    var h := 2 + |DispositionLine(name)|;
    EncodedLayout(name, data);
    EncodedHeaders(name);
    assert SectionFields(s) == Some((Headers(Some(name), None, None), data));
  }

  /** An encoded section is not blank, and its blank line ends the header and starts the data. */
  lemma EncodedLayout(name: string, data: string)
    requires PlainName(name)
    ensures var s, h := EncodeSection(name, data), 2 + |DispositionLine(name)|;
            !IsByteBlank(s) && Text.Find(s, BlankLine) == h && h + 4 <= |s|
            && s[..h] == CRLF + DispositionLine(name) && Body(s, h) == data
  {
    var line := DispositionLine(name);
    var header := CRLF + line;
    var s := EncodeSection(name, data);
    assert s == header + BlankLine + (data + CRLF);
    DispositionPrefixChars();
    assert s[2] == 'C';
    EncodedBlankLine(name, data);
    var h := |header|;
    assert s[..h] == header;
    assert s[h + 4..] == data + CRLF;
  }

  /** The encoded header reads as the field's name alone. */
  lemma EncodedHeaders(name: string)
    requires PlainName(name)
    ensures ReadHeaders(Text.Split(CRLF + DispositionLine(name), CRLF)) == Headers(Some(name), None, None)
  {
    var line := DispositionLine(name);
    EncodedHeaderLines(name);
    ReadDispositionLine(name);
    assert ReadHeaders(["", line]) == ReadHeaderLine(ReadHeaders([""]), line);
    assert ReadHeaders([""]) == NoHeaders;
  }

  /** A client's body whose delimiters cut it into a preamble, one section per field and an epilogue reads back as those fields, in order. */
  lemma BodyRoundTrip(body: string, boundary: string, fields: seq<(string, string)>, preamble: string, epilogue: string)
    requires forall i :: 0 <= i < |fields| ==> PlainName(fields[i].0)
    requires Text.Split(body, Delimiter(boundary)) == [preamble] + EncodeSections(fields) + [epilogue]
    ensures MultipartParts(body, boundary) == FieldParts(fields)
  {
    var sections := Text.Split(body, Delimiter(boundary));
    assert sections[1..|sections| - 1] == EncodeSections(fields);
    SectionPartsOfFields(fields);
  }

  /** The sections of the fields, in order. */
  function EncodeSections(fields: seq<(string, string)>): (r: seq<string>)
    ensures |r| == |fields|
    ensures forall i :: 0 <= i < |fields| ==> r[i] == EncodeSection(fields[i].0, fields[i].1)
  {
    seq(|fields|, i requires 0 <= i < |fields| => EncodeSection(fields[i].0, fields[i].1))
  }

  /** The parts the fields should come back as. */
  function FieldParts(fields: seq<(string, string)>): (r: seq<Part>)
    ensures |r| == |fields|
    ensures forall i :: 0 <= i < |fields| ==> r[i] == Part(fields[i].0, fields[i].1, None, None)
  {
    seq(|fields|, i requires 0 <= i < |fields| => Part(fields[i].0, fields[i].1, None, None))
  }

  lemma SectionPartsSnoc(sections: seq<string>, s: string)
    ensures SectionParts(sections + [s])
            == SectionParts(sections) + (if SectionPart(s).Some? then [SectionPart(s).value] else [])
  {
    assert (sections + [s])[..|sections|] == sections;
  }

  lemma EncodeSectionsSnoc(fields: seq<(string, string)>)
    requires fields != []
    ensures EncodeSections(fields)
            == EncodeSections(fields[..|fields| - 1]) + [EncodeSection(fields[|fields| - 1].0, fields[|fields| - 1].1)]
  {
  }

  lemma FieldPartsSnoc(fields: seq<(string, string)>)
    requires fields != []
    ensures FieldParts(fields)
            == FieldParts(fields[..|fields| - 1]) + [Part(fields[|fields| - 1].0, fields[|fields| - 1].1, None, None)]
  {
  }

  lemma {:induction false} SectionPartsOfFields(fields: seq<(string, string)>)
    requires forall i :: 0 <= i < |fields| ==> PlainName(fields[i].0)
    ensures SectionParts(EncodeSections(fields)) == FieldParts(fields)
  {
    if fields != [] {
      var n := |fields|;
      var init := fields[..n - 1];
      var (name, data) := fields[n - 1];
      SectionPartsOfFields(init);
      EncodeSectionsSnoc(fields);
      FieldPartsSnoc(fields);
      SectionRoundTrip(name, data);
      SectionPartsSnoc(EncodeSections(init), EncodeSection(name, data));
    }
  }

  // A disposition line with the file name first.

  const FilenamePrefix: string := "Content-Disposition: form-data; filename=\""
  const NameAfterFilename: string := "\"; name=\""

  lemma FilenamePrefixChars()
    ensures |FilenamePrefix| == 42 && FilenamePrefix[36..] == "name=\""
    ensures FilenamePrefix[..20] == "Content-Disposition:"
    ensures forall i :: 0 <= i < 41 ==> FilenamePrefix[i] != '"'
  {
    assert '"' !in FilenamePrefix[..41];
  }

  lemma NameAfterFilenameChars()
    ensures |NameAfterFilename| == 9 && NameAfterFilename[3..] == "name=\""
    ensures NameAfterFilename[..3] == "\"; "
    ensures forall i :: 0 <= i < 7 ==> NameAfterFilename[i] != '='
  {
    assert '=' !in NameAfterFilename[..7];
  }

  /** The line `Content-Disposition: form-data; filename="f"; name="n"`. */
  function FilenameFirstLine(filename: string, name: string): string
  {
    FilenamePrefix + FilenameFirstRest(filename, name)
  }

  /** What follows `filename="` in that line. */
  function FilenameFirstRest(filename: string, name: string): string
  {
    filename + NameAfterFilename + name + "\""
  }

  /** The first `name="` of that line is the tail of `filename="`. */
  lemma FilenameFirstKey(filename: string, name: string)
    requires PlainName(filename)
    ensures Text.IsAt(FilenameFirstLine(filename, name), "name=\"", 36)
    ensures forall j :: 0 <= j < 36 ==> !Text.IsAt(FilenameFirstLine(filename, name), "name=\"", j)
  {
    var line := FilenameFirstLine(filename, name);
    FilenamePrefixChars();
    assert line[36..42] == FilenamePrefix[36..];
    Text.NotAtBefore(line, "name=\"", 5, 41);
  }

  /** After the file name, the next `name="` is the real one. */
  lemma RealNameKey(filename: string, name: string)
    requires PlainName(filename)
    ensures Text.IsAt(FilenameFirstRest(filename, name), "name=\"", |filename| + 3)
    ensures forall j :: 0 <= j < |filename| + 3 ==> !Text.IsAt(FilenameFirstRest(filename, name), "name=\"", j)
  {
    var rest := FilenameFirstRest(filename, name);
    NameAfterFilenameChars();
    assert rest[|filename| + 3..|filename| + 9] == NameAfterFilename[3..];
    Text.NotAtBefore(rest, "name=\"", 4, |filename| + 7);
  }

  /** The text before the first quote. */
  lemma BeforeQuoteThen(name: string, tail: string)
    requires PlainName(name)
    ensures Text.Before(name + "\"" + tail, "\"") == name
  {
    var s := name + "\"" + tail;
    Text.NotAtBefore(s, "\"", 0, |name|);
    assert s[|name|..|name| + 1] == "\"";
    Text.SplitFirst(s, "\"", |name|);
  }

  /** The piece after the first `name="` is the rest of the line after `filename="`. */
  lemma FilenameFirstSplit(filename: string, name: string)
    requires PlainName(filename)
    ensures Text.Contains(FilenameFirstLine(filename, name), "name=\"")
    ensures |Text.Split(FilenameFirstLine(filename, name), "name=\"")| >= 2
    ensures Text.Split(FilenameFirstLine(filename, name), "name=\"")[1]
            == Text.Split(FilenameFirstRest(filename, name), "name=\"")[0]
  {
    var line := FilenameFirstLine(filename, name);
    FilenameFirstKey(filename, name);
    Text.SplitFirst(line, "name=\"", 36);
    FilenamePrefixChars();
    assert line[42..] == FilenameFirstRest(filename, name);
  }

  /** That rest, up to the real `name="`, is the file name, its closing quote and `; `. */
  lemma RealNameSplit(filename: string, name: string)
    requires PlainName(filename)
    ensures Text.Split(FilenameFirstRest(filename, name), "name=\"")[0] == filename + "\"" + "; "
  {
    var rest := FilenameFirstRest(filename, name);
    RealNameKey(filename, name);
    Text.SplitFirst(rest, "name=\"", |filename| + 3);
    NameAfterFilenameChars();
    assert rest[..|filename| + 3] == filename + NameAfterFilename[..3];
    assert NameAfterFilename[..3] == "\"" + "; ";
  }

  lemma FilenameFirstQuoted(filename: string, name: string)
    requires PlainName(filename)
    ensures Text.Contains(FilenameFirstLine(filename, name), "name=\"")
    ensures Quoted(FilenameFirstLine(filename, name), "name=\"") == filename
  {
    FilenameFirstSplit(filename, name);
    RealNameSplit(filename, name);
    BeforeQuoteThen(filename, "; ");
  }

  lemma FilenameFirstIsDisposition(filename: string, name: string)
    ensures Text.StartsWith(FilenameFirstLine(filename, name), "Content-Disposition:")
  {
    FilenamePrefixChars();
    assert FilenameFirstLine(filename, name)[..20] == FilenamePrefix[..20];
  }

  /**
   * A disposition line that gives the file name before the name yields the
   * file name as the part's name: the first `name="` in the line is the one
   * inside `filename="`.
   */
  lemma FilenameTakenAsName(filename: string, name: string)
    requires PlainName(filename)
    ensures ReadHeaderLine(NoHeaders, FilenameFirstLine(filename, name)).name == Some(filename)
  {
    FilenameFirstIsDisposition(filename, name);
    FilenameFirstQuoted(filename, name);
  }

  /** A `Content-Type:` line sets the stripped text after the colon as the content type. */
  lemma ContentTypeLine(h: Headers, t: string)
    requires !Text.Contains(t, "Content-Type:")
    ensures ReadHeaderLine(h, "Content-Type:" + t) == h.(contentType := Some(Text.Strip(t)))
  {
    var line := "Content-Type:" + t;
    var key := "Content-Type:";
    assert !Text.StartsWith(line, "Content-Disposition:") by {
      if |line| >= 20 {
        assert line[..20][8] == 'T';
      }
    }
    assert line[..13] == key;
    Text.SplitFirst(line, key, 0);
    assert line[13..] == t;
  }

  // ---------------------------------------------------------------------
  // Choosing the parts
  // ---------------------------------------------------------------------

  /** The parts both handlers keep: the metadata as decoded JSON, the audio file and the cover image. */
  datatype Selection = Selection(metadata: Value, audio: Option<Part>, cover: Option<Part>)

  const NoSelection := Selection(Null, None, None)

  /** One step of the handlers' loop over the parts; `None` where `json.loads` raises. */
  function SelectPart(sel: Selection, part: Part, decode: string -> Option<Value>): Option<Selection>
  {
    if part.name == "metadata" then
      var json := decode(part.data);
      if json.Some? then Some(sel.(metadata := json.value)) else None
    else if part.name == "audioFile" then Some(sel.(audio := Some(part)))
    else if part.name == "coverImage" then Some(sel.(cover := Some(part)))
    else Some(sel)
  }

  /** The loop over all parts. */
  function Select(parts: seq<Part>, decode: string -> Option<Value>): Option<Selection>
  {
    if parts == [] then Some(NoSelection)
    else
      var init := Select(parts[..|parts| - 1], decode);
      if init.None? then None else SelectPart(init.value, parts[|parts| - 1], decode)
  }

  /** `for part in parts:` in both handlers, with `json.loads` given as `decode`. */
  method SelectParts(parts: seq<Part>, decode: string -> Option<Value>) returns (r: Option<Selection>)
    ensures r == Select(parts, decode)
  {
    var sel := NoSelection;
    var i := 0;
    while i < |parts|
      invariant i <= |parts|
      invariant Select(parts[..i], decode) == Some(sel)
    {
      assert parts[..i + 1][..i] == parts[..i];
      var part := parts[i];
      if part.name == "metadata" {
        var json := decode(part.data);
        if json.None? {
          SelectFailsFrom(parts, decode, i + 1);
          return None;
        }
        sel := sel.(metadata := json.value);
      } else if part.name == "audioFile" {
        sel := sel.(audio := Some(part));
      } else if part.name == "coverImage" {
        sel := sel.(cover := Some(part));
      }
      i := i + 1;
    }
    assert parts[..i] == parts;
    r := Some(sel);
  }

  /** Once the loop has raised, it stays raised. */
  lemma {:induction false} SelectFailsFrom(parts: seq<Part>, decode: string -> Option<Value>, k: nat)
    requires k <= |parts| && Select(parts[..k], decode).None?
    ensures Select(parts, decode).None?
    decreases |parts| - k
  {
    if k < |parts| {
      assert parts[..k + 1][..k] == parts[..k];
      SelectFailsFrom(parts, decode, k + 1);
    } else {
      assert parts[..k] == parts;
    }
  }

  /** Part `i` is the last one called `name`. */
  predicate IsLast(parts: seq<Part>, name: string, i: int) {
    0 <= i < |parts| && parts[i].name == name && forall j :: i < j < |parts| ==> parts[j].name != name
  }

  /** The loop raises exactly when some metadata part is not JSON. */
  lemma {:induction false} SelectFails(parts: seq<Part>, decode: string -> Option<Value>)
    ensures Select(parts, decode).None? <==> exists i :: 0 <= i < |parts| && parts[i].name == "metadata" && decode(parts[i].data).None?
  {
    if parts != [] {
      var n := |parts|;
      SelectFails(parts[..n - 1], decode);
      if Select(parts[..n - 1], decode).None? {
        var i :| 0 <= i < n - 1 && parts[..n - 1][i].name == "metadata" && decode(parts[..n - 1][i].data).None?;
        assert parts[i] == parts[..n - 1][i];
      } else {
        forall i | 0 <= i < n - 1 ensures !(parts[i].name == "metadata" && decode(parts[i].data).None?) {
          assert parts[i] == parts[..n - 1][i];
        }
      }
    }
  }

  /** The audio file and the cover image kept are the last parts of those names, and present exactly when there is one. */
  lemma {:induction false} SelectLastFile(parts: seq<Part>, decode: string -> Option<Value>)
    requires Select(parts, decode).Some?
    ensures var sel := Select(parts, decode).value;
            && (sel.audio.Some? <==> exists i :: 0 <= i < |parts| && parts[i].name == "audioFile")
            && (sel.audio.Some? ==> exists i :: IsLast(parts, "audioFile", i) && parts[i] == sel.audio.value)
    ensures var sel := Select(parts, decode).value;
            && (sel.cover.Some? <==> exists i :: 0 <= i < |parts| && parts[i].name == "coverImage")
            && (sel.cover.Some? ==> exists i :: IsLast(parts, "coverImage", i) && parts[i] == sel.cover.value)
  {
    if parts != [] {
      var n := |parts|;
      var init := parts[..n - 1];
      SelectLastFile(init, decode);
      forall i | 0 <= i < n - 1 ensures parts[i] == init[i] { }
      var sel := Select(parts, decode).value;
      var last := parts[n - 1];
      if last.name != "audioFile" {
        if sel.audio.Some? {
          var i :| IsLast(init, "audioFile", i) && init[i] == sel.audio.value;
          assert IsLast(parts, "audioFile", i);
        }
      } else {
        assert IsLast(parts, "audioFile", n - 1);
      }
      if last.name != "coverImage" {
        if sel.cover.Some? {
          var i :| IsLast(init, "coverImage", i) && init[i] == sel.cover.value;
          assert IsLast(parts, "coverImage", i);
        }
      } else {
        assert IsLast(parts, "coverImage", n - 1);
      }
    }
  }

  /** The metadata kept is the decoded data of the last metadata part, and `None` when there is none. */
  lemma {:induction false} SelectLastMetadata(parts: seq<Part>, decode: string -> Option<Value>)
    requires Select(parts, decode).Some?
    ensures var sel := Select(parts, decode).value;
            (forall i :: 0 <= i < |parts| ==> parts[i].name != "metadata") ==> sel.metadata == Null
    ensures var sel := Select(parts, decode).value;
            forall i :: IsLast(parts, "metadata", i) ==> decode(parts[i].data) == Some(sel.metadata)
  {
    if parts != [] {
      var n := |parts|;
      var init := parts[..n - 1];
      SelectLastMetadata(init, decode);
      forall i | 0 <= i < n - 1 ensures parts[i] == init[i] { }
      var sel := Select(parts, decode).value;
      forall i | IsLast(parts, "metadata", i) ensures decode(parts[i].data) == Some(sel.metadata) {
        if i < n - 1 {
          assert IsLast(init, "metadata", i);
        }
      }
    }
  }

  // ---------------------------------------------------------------------
  // File extensions
  // ---------------------------------------------------------------------

  /** `_get_file_extension`, the same in both handlers. */
  function FileExtension(filename: string, contentType: string): string
  {
    if contentType == "image/jpeg" then ".jpg"
    else if contentType == "image/png" then ".png"
    else if contentType == "image/webp" then ".webp"
    else if Text.Contains(filename, ".") then "." + Text.LastPiece(filename, ".")
    else ".jpg"
  }

  /**
   * An extension starts with a dot.  For a type other than the three known
   * image types it is the file name's last dot and what follows it, or
   * `.jpg` for a file name without a dot.
   */
  lemma FileExtensionShape(filename: string, contentType: string)
    ensures var r := FileExtension(filename, contentType);
            |r| >= 1 && r[0] == '.'
    ensures var r := FileExtension(filename, contentType);
            contentType != "image/jpeg" && contentType != "image/png" && contentType != "image/webp" && Text.Contains(filename, ".")
            ==> Text.EndsWith(filename, r) && !Text.Contains(r[1..], ".")
    ensures contentType != "image/jpeg" && contentType != "image/png" && contentType != "image/webp" && !Text.Contains(filename, ".")
            ==> FileExtension(filename, contentType) == ".jpg"
  {
    if Text.Contains(filename, ".") {
      Text.LastPieceNoSep(filename, ".");
      Text.LastPieceAfterSep(filename, ".");
      var r := "." + Text.LastPiece(filename, ".");
      assert r[1..] == Text.LastPiece(filename, ".");
    }
  }
}
