/**
 * The music-content update handler: a JSON request sets metadata fields,
 * a multipart request may also replace the audio file and the cover image.
 * Both build a DynamoDB `SET` expression; the item returned is stripped of
 * its storage keys.
 *
 * S3 and DynamoDB calls are recorded, not made: a response carries the S3
 * deletions and uploads made before it was returned and the update
 * expression sent.  The item the store holds, the attributes it returns
 * after the update, the clock, `json.loads`, `str()` of a non-string and
 * the presigned URL are parameters.
 */
module UpdateMusicContent {
  import opened Wrappers
  import opened Json
  import opened Requests
  import opened Multipart
  import Text
  import Admin

  // ---------------------------------------------------------------------
  // The update expression
  // ---------------------------------------------------------------------

  /**
   * The three things the handlers build: the clauses joined after `SET`,
   * the `:field` value placeholders and the `#field` name placeholders.
   */
  datatype Expr = Expr(clauses: seq<string>, values: map<string, Value>, names: map<string, string>)

  const NoExpr := Expr([], map[], map[])

  /** `#field = :field`. */
  function Clause(field: string): string
  {
    "#" + field + " = :" + field
  }

  /** One assignment: its clause appended, its value and its name placed. */
  function Assign(e: Expr, field: string, value: Value): Expr
  {
    Expr(e.clauses + [Clause(field)], e.values[":" + field := value], e.names["#" + field := field])
  }

  /** Assignments made in order. */
  function AssignAll(e: Expr, assignments: seq<(string, Value)>): Expr
  {
    if assignments == [] then e
    else
      var n := |assignments| - 1;
      Assign(AssignAll(e, assignments[..n]), assignments[n].0, assignments[n].1)
  }

  /** The clauses of a run of assignments. */
  function Clauses(assignments: seq<(string, Value)>): (r: seq<string>)
    ensures |r| == |assignments|
    ensures forall i :: 0 <= i < |assignments| ==> r[i] == Clause(assignments[i].0)
  {
    seq(|assignments|, i requires 0 <= i < |assignments| => Clause(assignments[i].0))
  }

  /** Assignment `i` is the last one to its field. */
  predicate LastFor(assignments: seq<(string, Value)>, i: int) {
    0 <= i < |assignments| && forall j :: i < j < |assignments| ==> assignments[j].0 != assignments[i].0
  }

  /** After a run of assignments the clauses are the earlier ones followed by one per assignment, in order. */
  lemma {:induction false} AssignAllClauses(e: Expr, assignments: seq<(string, Value)>)
    ensures AssignAll(e, assignments).clauses == e.clauses + Clauses(assignments)
  {
    if assignments != [] {
      var n := |assignments| - 1;
      AssignAllClauses(e, assignments[..n]);
      assert Clauses(assignments) == Clauses(assignments[..n]) + [Clause(assignments[n].0)];
    }
  }

  /** Every assigned field has its name placeholder, naming it; no other name placeholder appears. */
  lemma {:induction false} AssignAllNames(e: Expr, assignments: seq<(string, Value)>)
    ensures forall k :: k in AssignAll(e, assignments).names
                    <==> k in e.names || exists i :: 0 <= i < |assignments| && k == "#" + assignments[i].0
    ensures forall i :: 0 <= i < |assignments| ==> AssignAll(e, assignments).names["#" + assignments[i].0] == assignments[i].0
  {
    if assignments != [] {
      var n := |assignments| - 1;
      var init := assignments[..n];
      AssignAllNames(e, init);
      var f := assignments[n].0;
      forall i | 0 <= i < n ensures assignments[i] == init[i] { }
      forall i | 0 <= i < |assignments|
        ensures AssignAll(e, assignments).names["#" + assignments[i].0] == assignments[i].0
      {
        Text.PrefixInjective("#", assignments[i].0, f);
      }
    }
  }

  /** Every assigned field has its value placeholder; no other value placeholder appears. */
  lemma {:induction false} AssignAllValueKeys(e: Expr, assignments: seq<(string, Value)>)
    ensures forall k :: k in AssignAll(e, assignments).values
                    <==> k in e.values || exists i :: 0 <= i < |assignments| && k == ":" + assignments[i].0
  {
    if assignments != [] {
      var n := |assignments| - 1;
      AssignAllValueKeys(e, assignments[..n]);
      forall i | 0 <= i < n ensures assignments[i] == assignments[..n][i] { }
    }
  }

  /** A field's value placeholder holds the value of its last assignment. */
  lemma {:induction false} AssignAllLastValue(e: Expr, assignments: seq<(string, Value)>, i: nat)
    requires LastFor(assignments, i)
    ensures ":" + assignments[i].0 in AssignAll(e, assignments).values
    ensures AssignAll(e, assignments).values[":" + assignments[i].0] == assignments[i].1
  {
    var n := |assignments| - 1;
    if i < n {
      var init := assignments[..n];
      assert init[i] == assignments[i];
      assert LastFor(init, i);
      AssignAllLastValue(e, init, i);
      Text.PrefixInjective(":", assignments[i].0, assignments[n].0);
    }
  }

  /** A value placeholder no assignment sets keeps its value. */
  lemma {:induction false} AssignAllKeepsValue(e: Expr, assignments: seq<(string, Value)>, k: string)
    requires k in e.values && forall i :: 0 <= i < |assignments| ==> k != ":" + assignments[i].0
    ensures k in AssignAll(e, assignments).values && AssignAll(e, assignments).values[k] == e.values[k]
  {
    if assignments != [] {
      var n := |assignments| - 1;
      assert forall i :: 0 <= i < n ==> assignments[..n][i] == assignments[i];
      AssignAllKeepsValue(e, assignments[..n], k);
    }
  }

  /** Assignments in two runs are the first run's followed by the second's. */
  lemma {:induction false} AssignAllAppend(e: Expr, a: seq<(string, Value)>, b: seq<(string, Value)>)
    ensures AssignAll(e, a + b) == AssignAll(AssignAll(e, a), b)
  {
    if b != [] {
      var n := |b| - 1;
      assert (a + b)[..|a| + n] == a + b[..n];
      AssignAllAppend(e, a, b[..n]);
    } else {
      assert a + b == a;
    }
  }

  // ---------------------------------------------------------------------
  // Fields present in a request
  // ---------------------------------------------------------------------

  /**
   * `[(f, v[f]) for f in fields if f in v and v[f] is not None]`, `Err`
   * where `in` or `[]` raises on a value that is not a dictionary.
   */
  function Present(v: Value, fields: seq<string>): (r: Result<seq<(string, Value)>>)
    ensures v.Object? ==> r.Ok?
    ensures r.Ok? ==> |r.value| <= |fields|
  {
    if fields == [] then Ok([])
    else
      var f := fields[|fields| - 1];
      var init := Present(v, fields[..|fields| - 1]);
      assert forall g :: g in fields <==> g in fields[..|fields| - 1] || g == f;
      if init.Err? then init
      else
        var inside := PyIn(f, v);
        if inside.None? then Err("argument is not iterable")
        else if !inside.value then init
        else
          var value := PyIndex(v, f);
          if value.None? then Err("indices must be integers")
          else if value.value == Null then init
          else Ok(init.value + [(f, value.value)])
  }

  /** On a dictionary, the pairs are those of the fields that are present and not `None`. */
  lemma {:induction false} PresentMembers(v: Value, fields: seq<string>)
    requires v.Object?
    ensures forall p :: p in Present(v, fields).value <==> (p.0 in fields && p.0 in v.fields && v.fields[p.0] != Null && p.1 == v.fields[p.0])
  {
    if fields != [] {
      var f := fields[|fields| - 1];
      PresentMembers(v, fields[..|fields| - 1]);
      assert forall g :: g in fields <==> g in fields[..|fields| - 1] || g == f;
    }
  }

  /** Distinct fields are assigned at most once each. */
  lemma {:induction false} PresentDistinctFields(v: Value, fields: seq<string>)
    requires Present(v, fields).Ok?
    requires forall i, j :: 0 <= i < j < |fields| ==> fields[i] != fields[j]
    ensures forall i :: 0 <= i < |Present(v, fields).value| ==> Present(v, fields).value[i].0 in fields
    ensures var present := Present(v, fields).value;
            forall i, j :: 0 <= i < j < |present| ==> present[i].0 != present[j].0
  {
    if fields != [] {
      var n := |fields| - 1;
      var init := fields[..n];
      assert Present(v, init).Ok?;
      PresentDistinctFields(v, init);
      assert fields[n] !in init;
    }
  }

  /** `for field in updatable_fields:` adding each present field to the expression. */
  method AddFields(e: Expr, v: Value, fields: seq<string>) returns (r: Result<Expr>)
    ensures Present(v, fields).Err? <==> r.Err?
    ensures r.Err? ==> r.error == Present(v, fields).error
    ensures r.Ok? ==> r.value == AssignAll(e, Present(v, fields).value)
  {
    var expr := e;
    var i := 0;
    assert fields[..0] == [];
    while i < |fields|
      invariant i <= |fields|
      invariant Present(v, fields[..i]).Ok?
      invariant expr == AssignAll(e, Present(v, fields[..i]).value)
    {
      var next := AddField(e, v, fields, i, expr);
      if next.Err? {
        return next;
      }
      expr := next.value;
      i := i + 1;
    }
    assert fields[..i] == fields;
    r := Ok(expr);
  }

  /** One pass of the field loop: field `i` is added when it is present and not `None`. */
  method AddField(e: Expr, v: Value, fields: seq<string>, i: nat, expr: Expr) returns (r: Result<Expr>)
    requires i < |fields| && Present(v, fields[..i]).Ok?
    requires expr == AssignAll(e, Present(v, fields[..i]).value)
    ensures r.Err? ==> Present(v, fields).Err? && r.error == Present(v, fields).error
    ensures r.Ok? ==> Present(v, fields[..i + 1]).Ok? && r.value == AssignAll(e, Present(v, fields[..i + 1]).value)
  {
    var field := fields[i];
    assert fields[..i + 1][..i] == fields[..i];
    var inside := PyIn(field, v);
    if inside.None? {
      PresentFailsFrom(v, fields, i + 1);
      return Err("argument is not iterable");
    }
    r := Ok(expr);
    if inside.value {
      var value := PyIndex(v, field);
      if value.None? {
        PresentFailsFrom(v, fields, i + 1);
        return Err("indices must be integers");
      }
      if value.value != Null {
        AssignAllAppend(e, Present(v, fields[..i]).value, [(field, value.value)]);
        r := Ok(Assign(expr, field, value.value));
      }
    }
  }

  /** Once a lookup has raised, the whole run raises. */
  lemma {:induction false} PresentFailsFrom(v: Value, fields: seq<string>, k: nat)
    requires k <= |fields| && Present(v, fields[..k]).Err?
    ensures Present(v, fields) == Present(v, fields[..k])
    decreases |fields| - k
  {
    if k < |fields| {
      assert fields[..k + 1][..k] == fields[..k];
      PresentFailsFrom(v, fields, k + 1);
    } else {
      assert fields[..k] == fields;
    }
  }

  // ---------------------------------------------------------------------
  // The JSON update's expression
  // ---------------------------------------------------------------------

  const JsonFields: seq<string> := ["title", "album", "genre", "coverImage"]

  /** `lastModified` appended to an expression with at least one clause; `None` for an empty one. */
  function WithLastModified(e: Expr, now: string): (r: Option<Expr>)
    ensures r.None? <==> e.clauses == []
    ensures r.Some? ==> r.value.clauses == e.clauses + [Clause("lastModified")]
    ensures r.Some? ==> ":" + "lastModified" in r.value.values && r.value.values[":" + "lastModified"] == Str(now)
    ensures r.Some? ==> "#" + "lastModified" in r.value.names && r.value.names["#" + "lastModified"] == "lastModified"
    ensures r.Some? ==> forall k :: k in e.values && k != ":" + "lastModified" ==> k in r.value.values && r.value.values[k] == e.values[k]
  {
    if e.clauses == [] then None else Some(Assign(e, "lastModified", Str(now)))
  }

  /**
   * The JSON update's expression: the present fields, then `lastModified`
   * when there was at least one; `None` when there was none (a 400).
   */
  function JsonExpr(body: map<string, Value>, now: string): Option<Expr>
  {
    WithLastModified(AssignAll(NoExpr, Present(Object(body), JsonFields).value), now)
  }

  /** Lines 71-92 of the JSON update. */
  method BuildJsonExpr(body: map<string, Value>, now: string) returns (r: Option<Expr>)
    ensures r == JsonExpr(body, now)
  {
    var e := AddFields(NoExpr, Object(body), JsonFields);
    var expr := e.value;
    if expr.clauses != [] {
      expr := Assign(expr, "lastModified", Str(now));
    }
    if expr.clauses == [] {
      return None;
    }
    r := Some(expr);
  }

  lemma LastModifiedNotJsonField(f: string)
    requires f in JsonFields
    ensures ":" + f != ":" + "lastModified"
  {
    Text.PrefixInjective(":", f, "lastModified");
  }

  /** No field of a dictionary is present exactly when none is there with a value other than null. */
  lemma PresentEmptyIff(body: map<string, Value>, fields: seq<string>)
    ensures Present(Object(body), fields).value == [] <==> forall f :: f in fields ==> f !in body || body[f] == Null
  {
    var present := Present(Object(body), fields).value;
    PresentMembers(Object(body), fields);
    if present != [] {
      assert present[0] in present;
    } else {
      forall f | f in fields ensures f !in body || body[f] == Null {
        var p := (f, Get(body, f));
        assert p !in present;
      }
    }
  }

  /** A field present in a dictionary, among distinct fields, has its value in the expression. */
  lemma PresentValue(body: map<string, Value>, fields: seq<string>, f: string)
    requires forall i, j :: 0 <= i < j < |fields| ==> fields[i] != fields[j]
    requires f in fields && f in body && body[f] != Null
    ensures var e := AssignAll(NoExpr, Present(Object(body), fields).value);
            ":" + f in e.values && e.values[":" + f] == body[f]
  {
    var present := Present(Object(body), fields).value;
    PresentMembers(Object(body), fields);
    assert (f, body[f]) in present;
    var i :| 0 <= i < |present| && present[i] == (f, body[f]);
    PresentDistinctFields(Object(body), fields);
    assert LastFor(present, i);
    AssignAllLastValue(NoExpr, present, i);
  }

  /** A JSON update is refused exactly when none of title, album, genre and cover image is present and not null. */
  lemma JsonExprRefused(body: map<string, Value>, now: string)
    ensures JsonExpr(body, now).None? <==> forall f :: f in JsonFields ==> f !in body || body[f] == Null
  {
    var present := Present(Object(body), JsonFields).value;
    AssignAllClauses(NoExpr, present);
    PresentEmptyIff(body, JsonFields);
  }

  /** An accepted JSON update's clauses are the present fields', in order, and then `lastModified`. */
  lemma JsonExprClauses(body: map<string, Value>, now: string)
    requires JsonExpr(body, now).Some?
    ensures var present := Present(Object(body), JsonFields).value;
            JsonExpr(body, now).value.clauses == Clauses(present) + [Clause("lastModified")]
  {
    AssignAllClauses(NoExpr, Present(Object(body), JsonFields).value);
  }

  /** In an accepted JSON update every present field's value placeholder holds its value. */
  lemma JsonExprValues(body: map<string, Value>, now: string, f: string)
    requires JsonExpr(body, now).Some?
    requires f in JsonFields && f in body && body[f] != Null
    ensures ":" + f in JsonExpr(body, now).value.values
            && JsonExpr(body, now).value.values[":" + f] == body[f]
  {
    PresentValue(body, JsonFields, f);
    LastModifiedNotJsonField(f);
  }

  // ---------------------------------------------------------------------
  // The multipart update's expression
  // ---------------------------------------------------------------------

  const MetadataFields: seq<string> := ["title", "album", "genre"]

  /** `part.get('content_type', default)`. */
  function TypeOr(part: Part, default: string): string
  {
    if part.contentType.Some? then part.contentType.value else default
  }

  function AudioS3Key(contentId: string, filename: string): string
  {
    "music-content/" + contentId + "/audio/" + filename
  }

  function CoverS3Key(contentId: string, extension: string): string
  {
    "music-content/" + contentId + "/cover" + extension
  }

  /** The four fields a replaced audio file sets: its name, type, size and key. */
  function AudioAssignments(audio: Part, filename: string, contentId: string): seq<(string, Value)>
  {
    [("filename", Str(filename)),
     ("fileType", Str(TypeOr(audio, "audio/mpeg"))),
     ("fileSize", Int(|audio.data|)),
     ("s3Key", Str(AudioS3Key(contentId, filename)))]
  }

  /** The three fields a replaced cover image sets: its key, a presigned URL for the key, and its type. */
  function CoverAssignments(cover: Part, filename: string, contentId: string, presign: string -> string): seq<(string, Value)>
  {
    var contentType := TypeOr(cover, "image/jpeg");
    var key := CoverS3Key(contentId, FileExtension(filename, contentType));
    [("coverImageS3Key", Str(key)),
     ("coverImageUrl", Str(presign(key))),
     ("coverImageContentType", Str(contentType))]
  }

  /** A file part that has passed its upload carries a file name. */
  predicate Uploadable(part: Option<Part>) {
    part.Some? ==> part.value.filename.Some?
  }

  /**
   * The multipart update's assignments: the present metadata fields, the
   * audio fields when there is an audio file, the cover fields when there
   * is a cover image, and always `lastModified`.  `Err` where the metadata
   * lookups raise.
   */
  function MultipartAssignments(meta: Value, audio: Option<Part>, cover: Option<Part>, contentId: string,
                                now: string, presign: string -> string): (r: Result<seq<(string, Value)>>)
    requires Uploadable(audio) && Uploadable(cover)
    ensures r.Err? <==> Present(meta, MetadataFields).Err?
    ensures r.Ok? ==> |r.value| >= 1 && r.value[|r.value| - 1] == ("lastModified", Str(now))
  {
    var present := Present(meta, MetadataFields);
    if present.Err? then Err(present.error)
    else
      Ok(present.value
         + (if audio.Some? then AudioAssignments(audio.value, audio.value.filename.value, contentId) else [])
         + (if cover.Some? then CoverAssignments(cover.value, cover.value.filename.value, contentId, presign) else [])
         + [("lastModified", Str(now))])
  }

  function MultipartExpr(meta: Value, audio: Option<Part>, cover: Option<Part>, contentId: string,
                         now: string, presign: string -> string): Result<Expr>
    requires Uploadable(audio) && Uploadable(cover)
  {
    var assignments := MultipartAssignments(meta, audio, cover, contentId, now, presign);
    if assignments.Err? then Err(assignments.error) else Ok(AssignAll(NoExpr, assignments.value))
  }

  /** Lines 200-259 of the multipart update, one assignment after another. */
  method BuildMultipartExpr(meta: Value, audio: Option<Part>, cover: Option<Part>, contentId: string,
                            now: string, presign: string -> string) returns (r: Result<Expr>)
    requires Uploadable(audio) && Uploadable(cover)
    ensures r == MultipartExpr(meta, audio, cover, contentId, now, presign)
  {
    var fields := AddFields(NoExpr, meta, MetadataFields);
    if fields.Err? {
      return Err(fields.error);
    }
    var present := Present(meta, MetadataFields).value;
    var audioFields := if audio.Some? then AudioAssignments(audio.value, audio.value.filename.value, contentId) else [];
    var coverFields := if cover.Some? then CoverAssignments(cover.value, cover.value.filename.value, contentId, presign) else [];
    var last := [("lastModified", Str(now))];
    var expr := fields.value;
    if audio.Some? {
      expr := AssignAll(expr, audioFields);
    }
    assert expr == AssignAll(AssignAll(NoExpr, present), audioFields);
    AssignAllAppend(NoExpr, present, audioFields);
    if cover.Some? {
      expr := AssignAll(expr, coverFields);
    }
    assert expr == AssignAll(AssignAll(NoExpr, present + audioFields), coverFields);
    AssignAllAppend(NoExpr, present + audioFields, coverFields);
    expr := Assign(expr, "lastModified", Str(now));
    assert expr == AssignAll(AssignAll(NoExpr, present + audioFields + coverFields), last);
    AssignAllAppend(NoExpr, present + audioFields + coverFields, last);
    assert MultipartAssignments(meta, audio, cover, contentId, now, presign).value == present + audioFields + coverFields + last;
    r := Ok(expr);
  }

  /**
   * A multipart update always has at least one clause, the last being
   * `lastModified`, so its "no valid fields or files" answer cannot be given.
   */
  lemma MultipartExprNeverEmpty(meta: Value, audio: Option<Part>, cover: Option<Part>, contentId: string,
                                now: string, presign: string -> string)
    requires Uploadable(audio) && Uploadable(cover)
    requires MultipartExpr(meta, audio, cover, contentId, now, presign).Ok?
    ensures var e := MultipartExpr(meta, audio, cover, contentId, now, presign).value;
            e.clauses != [] && e.clauses[|e.clauses| - 1] == Clause("lastModified")
  {
    AssignAllClauses(NoExpr, MultipartAssignments(meta, audio, cover, contentId, now, presign).value);
  }

  /** Distinct fields have distinct clauses. */
  lemma ClauseInjective(f: string, g: string)
    ensures Clause(f) == Clause(g) <==> f == g
  {
    if Clause(f) == Clause(g) {
      assert |f| == |g|;
      assert f == Clause(f)[1..1 + |f|];
    }
  }

  /** A field's clause is in the clauses exactly when the field is assigned. */
  lemma ClausesMention(assignments: seq<(string, Value)>, f: string)
    ensures Clause(f) in Clauses(assignments) <==> exists i :: 0 <= i < |assignments| && assignments[i].0 == f
  {
    var cs := Clauses(assignments);
    if Clause(f) in cs {
      var i :| 0 <= i < |cs| && cs[i] == Clause(f);
      ClauseInjective(f, assignments[i].0);
    }
    if exists i :: 0 <= i < |assignments| && assignments[i].0 == f {
      var i :| 0 <= i < |assignments| && assignments[i].0 == f;
      assert cs[i] == Clause(f);
    }
  }

  /** The audio file's key is set by a multipart update exactly when the update carries an audio file. */
  lemma MultipartSetsKeyIffAudio(meta: Value, audio: Option<Part>, cover: Option<Part>, contentId: string,
                                 now: string, presign: string -> string)
    requires Uploadable(audio) && Uploadable(cover)
    requires MultipartExpr(meta, audio, cover, contentId, now, presign).Ok?
    ensures Clause("s3Key") in MultipartExpr(meta, audio, cover, contentId, now, presign).value.clauses <==> audio.Some?
  {
    var assignments := MultipartAssignments(meta, audio, cover, contentId, now, presign).value;
    FreshExprMentions(assignments, "s3Key");
    AssignsS3KeyIffAudio(meta, audio, cover, contentId, now, presign);
  }

  /** An expression built from nothing has a clause for a field exactly when some assignment is to it. */
  lemma FreshExprMentions(assignments: seq<(string, Value)>, f: string)
    ensures Clause(f) in AssignAll(NoExpr, assignments).clauses <==> exists i :: 0 <= i < |assignments| && assignments[i].0 == f
  {
    AssignAllClauses(NoExpr, assignments);
    assert NoExpr.clauses + Clauses(assignments) == Clauses(assignments);
    ClausesMention(assignments, f);
  }

  /** Among the multipart update's assignments, one is to `s3Key` exactly when there is an audio file. */
  lemma AssignsS3KeyIffAudio(meta: Value, audio: Option<Part>, cover: Option<Part>, contentId: string,
                             now: string, presign: string -> string)
    requires Uploadable(audio) && Uploadable(cover)
    requires MultipartAssignments(meta, audio, cover, contentId, now, presign).Ok?
    ensures var assignments := MultipartAssignments(meta, audio, cover, contentId, now, presign).value;
            (exists i :: 0 <= i < |assignments| && assignments[i].0 == "s3Key") <==> audio.Some?
  {
    var assignments := MultipartAssignments(meta, audio, cover, contentId, now, presign).value;
    var present := Present(meta, MetadataFields).value;
    PresentDistinctFields(meta, MetadataFields);
    var coverFields := if cover.Some? then CoverAssignments(cover.value, cover.value.filename.value, contentId, presign) else [];
    var last := [("lastModified", Str(now))];
    if audio.Some? {
      var audioFields := AudioAssignments(audio.value, audio.value.filename.value, contentId);
      assert assignments == present + audioFields + coverFields + last;
      assert assignments[|present| + 3] == audioFields[3];
    } else {
      assert assignments == present + [] + coverFields + last;
      NoS3KeyWithoutAudio(present, coverFields, last);
    }
  }

  /** Without the audio fields, no assignment is to `s3Key`. */
  lemma NoS3KeyWithoutAudio(present: seq<(string, Value)>, coverFields: seq<(string, Value)>, last: seq<(string, Value)>)
    requires forall i :: 0 <= i < |present| ==> present[i].0 in MetadataFields
    requires forall i :: 0 <= i < |coverFields| ==> coverFields[i].0 in {"coverImageS3Key", "coverImageUrl", "coverImageContentType"}
    requires |last| == 1 && last[0].0 == "lastModified"
    ensures forall i :: 0 <= i < |present + [] + coverFields + last| ==> (present + [] + coverFields + last)[i].0 != "s3Key"
  {
    var all := present + [] + coverFields + last;
    forall i | 0 <= i < |all| ensures all[i].0 != "s3Key" {
      if i < |present| {
        assert all[i] == present[i];
      } else if i < |present| + |coverFields| {
        assert all[i] == coverFields[i - |present|];
      }
    }
  }

  /** The audio assignments place the file's size and key. */
  lemma AudioFieldValues(base: Expr, audio: Part, filename: string, contentId: string)
    ensures var values := AssignAll(base, AudioAssignments(audio, filename, contentId)).values;
            ":" + "fileSize" in values && values[":" + "fileSize"] == Int(|audio.data|)
            && ":" + "s3Key" in values && values[":" + "s3Key"] == Str(AudioS3Key(contentId, filename))
  {
    var audioFields := AudioAssignments(audio, filename, contentId);
    assert LastFor(audioFields, 2);
    AssignAllLastValue(base, audioFields, 2);
    AssignAllLastValue(base, audioFields, 3);
  }

  /** The cover fields and `lastModified` leave the audio's placeholders alone. */
  lemma AfterAudioKeeps(mid: Expr, rest: seq<(string, Value)>, cover: Option<Part>, contentId: string,
                        now: string, presign: string -> string, k: string)
    requires Uploadable(cover)
    requires rest == (if cover.Some? then CoverAssignments(cover.value, cover.value.filename.value, contentId, presign) else [])
                     + [("lastModified", Str(now))]
    requires k == ":" + "fileSize" || k == ":" + "s3Key"
    requires k in mid.values
    ensures k in AssignAll(mid, rest).values && AssignAll(mid, rest).values[k] == mid.values[k]
  {
    AssignAllKeepsValue(mid, rest, k);
  }

  /** A multipart update with an audio file sets the file's size and its key under the content id. */
  lemma MultipartAudioValues(meta: Value, audio: Part, cover: Option<Part>, contentId: string,
                             now: string, presign: string -> string)
    requires audio.filename.Some? && Uploadable(cover)
    requires MultipartExpr(meta, Some(audio), cover, contentId, now, presign).Ok?
    ensures var values := MultipartExpr(meta, Some(audio), cover, contentId, now, presign).value.values;
            ":" + "fileSize" in values && values[":" + "fileSize"] == Int(|audio.data|)
            && ":" + "s3Key" in values && values[":" + "s3Key"] == Str(AudioS3Key(contentId, audio.filename.value))
  {
    var present := Present(meta, MetadataFields).value;
    var audioFields := AudioAssignments(audio, audio.filename.value, contentId);
    var rest := (if cover.Some? then CoverAssignments(cover.value, cover.value.filename.value, contentId, presign) else [])
                + [("lastModified", Str(now))];
    assert MultipartAssignments(meta, Some(audio), cover, contentId, now, presign).value == (present + audioFields) + rest;
    AssignAllAppend(NoExpr, present + audioFields, rest);
    AssignAllAppend(NoExpr, present, audioFields);
    var mid := AssignAll(AssignAll(NoExpr, present), audioFields);
    AudioFieldValues(AssignAll(NoExpr, present), audio, audio.filename.value, contentId);
    AfterAudioKeeps(mid, rest, cover, contentId, now, presign, ":" + "fileSize");
    AfterAudioKeeps(mid, rest, cover, contentId, now, presign, ":" + "s3Key");
  }

  /** Every multipart update stamps `lastModified` with the time of the update. */
  lemma MultipartStampsTime(meta: Value, audio: Option<Part>, cover: Option<Part>, contentId: string,
                            now: string, presign: string -> string)
    requires Uploadable(audio) && Uploadable(cover)
    requires MultipartExpr(meta, audio, cover, contentId, now, presign).Ok?
    ensures var values := MultipartExpr(meta, audio, cover, contentId, now, presign).value.values;
            ":" + "lastModified" in values && values[":" + "lastModified"] == Str(now)
  {
    var assignments := MultipartAssignments(meta, audio, cover, contentId, now, presign).value;
    AssignAllLastValue(NoExpr, assignments, |assignments| - 1);
  }

  // ---------------------------------------------------------------------
  // Replacing a file
  // ---------------------------------------------------------------------

  /** A call the handler makes on the bucket. */
  datatype S3Action = Delete(key: string) | Put(key: string, data: string, contentType: string)

  /** The environment: allowed types (absent when unset) and size limits (absent when unset, then defaulted). */
  datatype Settings = Settings(
    allowedFileTypes: Option<string>,
    maxFileSize: Option<int>,
    allowedImageTypes: Option<string>,
    maxImageSize: Option<int>)

  const DefaultMaxFileSize: int := 10485760
  const DefaultMaxImageSize: int := 5242880

  /** Which of the two files a part replaces. */
  datatype FileKind = AudioFile | CoverImage

  function DefaultType(kind: FileKind): string
  {
    match kind
    case AudioFile => "audio/mpeg"
    case CoverImage => "image/jpeg"
  }

  function AllowedTypes(kind: FileKind, settings: Settings): Option<string>
  {
    match kind
    case AudioFile => settings.allowedFileTypes
    case CoverImage => settings.allowedImageTypes
  }

  function MaxSize(kind: FileKind, settings: Settings): int
  {
    match kind
    case AudioFile => if settings.maxFileSize.Some? then settings.maxFileSize.value else DefaultMaxFileSize
    case CoverImage => if settings.maxImageSize.Some? then settings.maxImageSize.value else DefaultMaxImageSize
  }

  /** The item attribute holding the key of the file being replaced. */
  function OldKeyField(kind: FileKind): string
  {
    match kind
    case AudioFile => "s3Key"
    case CoverImage => "coverImageS3Key"
  }

  function NewKey(kind: FileKind, contentId: string, filename: string, contentType: string): string
  {
    match kind
    case AudioFile => AudioS3Key(contentId, filename)
    case CoverImage => CoverS3Key(contentId, FileExtension(filename, contentType))
  }

  function UploadFailed(kind: FileKind): string
  {
    match kind
    case AudioFile => "Error uploading audio file"
    case CoverImage => "Error uploading cover image"
  }

  function TypeRefused(kind: FileKind, allowed: seq<string>): string
  {
    match kind
    case AudioFile => "Invalid audio file type. Allowed types: " + Text.Join(allowed, ", ")
    case CoverImage => "Invalid image file type. Allowed types: " + Text.Join(allowed, ", ")
  }

  function SizeRefused(kind: FileKind, max: int): string
  {
    match kind
    case AudioFile => "Audio file size exceeds the maximum limit of " + Text.IntToString(max) + " bytes"
    case CoverImage => "Image file size exceeds the maximum limit of " + Text.IntToString(max) + " bytes"
  }

  /** The error a replacement reports, if any, and the calls it made on the bucket. */
  datatype FileResult = FileResult(error: Option<string>, actions: seq<S3Action>)

  /** Everything a replacement needs: an allowed type list, an allowed type, a size within the limit, a stored id and a file name. */
  predicate Accepted(kind: FileKind, part: Part, existing: map<string, Value>, settings: Settings) {
    AllowedTypes(kind, settings).Some?
    && TypeOr(part, DefaultType(kind)) in Text.Split(AllowedTypes(kind, settings).value, ",")
    && |part.data| <= MaxSize(kind, settings)
    && "contentId" in existing
    && part.filename.Some?
  }

  /**
   * `_update_audio_file` and `_update_cover_image`: the type and size
   * checks, then the old file's deletion when the item names one, then the
   * new file's upload under a key built from the stored content id.  A
   * type list that is not set, a stored item without an id and a part
   * without a file name all raise inside the `try` and report the generic
   * upload error.  A deletion of an old key that is not a string fails
   * inside its own `try` and is not recorded.
   */
  function ReplaceFile(kind: FileKind, part: Part, existing: map<string, Value>, settings: Settings,
                       show: Value -> string): (r: FileResult)
    ensures r.error.None? <==> Accepted(kind, part, existing, settings)
    ensures r.error.Some? ==> r.actions == []
    ensures r.error.None? ==>
              1 <= |r.actions| <= 2
              && r.actions[|r.actions| - 1]
                 == Put(NewKey(kind, PyStr(existing["contentId"], show), part.filename.value, TypeOr(part, DefaultType(kind))),
                        part.data, TypeOr(part, DefaultType(kind)))
    ensures r.error.None? ==>
              (|r.actions| == 2 <==> Truthy(Get(existing, OldKeyField(kind))) && Get(existing, OldKeyField(kind)).Str?)
    ensures |r.actions| == 2 ==> r.actions[0] == Delete(existing[OldKeyField(kind)].s)
  {
    var allowed := AllowedTypes(kind, settings);
    if allowed.None? then FileResult(Some(UploadFailed(kind)), [])
    else
      var types := Text.Split(allowed.value, ",");
      var contentType := TypeOr(part, DefaultType(kind));
      if contentType !in types then FileResult(Some(TypeRefused(kind, types)), [])
      else if |part.data| > MaxSize(kind, settings) then FileResult(Some(SizeRefused(kind, MaxSize(kind, settings))), [])
      else if "contentId" !in existing || part.filename.None? then FileResult(Some(UploadFailed(kind)), [])
      else
        var key := NewKey(kind, PyStr(existing["contentId"], show), part.filename.value, contentType);
        var previous := Get(existing, OldKeyField(kind));
        var delete := if Truthy(previous) && previous.Str? then [Delete(previous.s)] else [];
        FileResult(None, delete + [Put(key, part.data, contentType)])
  }

  /** A file over the limit is refused with the limit in the message, and nothing is deleted or uploaded. */
  lemma TooLargeRefused(kind: FileKind, part: Part, existing: map<string, Value>, settings: Settings, show: Value -> string)
    requires AllowedTypes(kind, settings).Some?
    requires TypeOr(part, DefaultType(kind)) in Text.Split(AllowedTypes(kind, settings).value, ",")
    requires |part.data| > MaxSize(kind, settings)
    ensures ReplaceFile(kind, part, existing, settings, show) == FileResult(Some(SizeRefused(kind, MaxSize(kind, settings))), [])
  {
  }

  /** An audio file without a content type is taken as `audio/mpeg`; a cover image without one as `image/jpeg`. */
  lemma DefaultTypeChecked(kind: FileKind, part: Part, existing: map<string, Value>, settings: Settings, show: Value -> string)
    requires part.contentType.None? && AllowedTypes(kind, settings).Some?
    ensures ReplaceFile(kind, part, existing, settings, show).error
            == Some(TypeRefused(kind, Text.Split(AllowedTypes(kind, settings).value, ",")))
            <==> DefaultType(kind) !in Text.Split(AllowedTypes(kind, settings).value, ",")
  {
    var types := Text.Split(AllowedTypes(kind, settings).value, ",");
    if DefaultType(kind) in types && ReplaceFile(kind, part, existing, settings, show).error.Some? {
      TypeRefusedDiffers(kind, types, MaxSize(kind, settings));
    }
  }

  /** The three error messages of a replacement differ. */
  lemma TypeRefusedDiffers(kind: FileKind, allowed: seq<string>, max: int)
    ensures TypeRefused(kind, allowed) != SizeRefused(kind, max)
    ensures TypeRefused(kind, allowed) != UploadFailed(kind)
  {
    var joined, n := Text.Join(allowed, ", "), Text.IntToString(max);
    match kind
    case AudioFile =>
      var head := "Audio file size exceeds the maximum limit of ";
      PrefixAt(head + n, " bytes", 39);
      PrefixAt(head, n, 39);
      DiffersAt("Invalid audio file type. Allowed types: ", joined, head + n + " bytes", 39);
      DiffersAt("Invalid audio file type. Allowed types: ", joined, "Error uploading audio file", 25);
    case CoverImage =>
      var head := "Image file size exceeds the maximum limit of ";
      PrefixAt(head + n, " bytes", 39);
      PrefixAt(head, n, 39);
      DiffersAt("Invalid image file type. Allowed types: ", joined, head + n + " bytes", 39);
      DiffersAt("Invalid image file type. Allowed types: ", joined, "Error uploading cover image", 26);
  }

  lemma PrefixAt(a: string, b: string, i: nat)
    requires i < |a|
    ensures (a + b)[i] == a[i]
  {
  }

  /** A string that differs from `s` at `i` stays different from it once extended. */
  lemma DiffersAt(a: string, x: string, s: string, i: nat)
    requires i < |a| && i < |s| && a[i] != s[i]
    ensures a + x != s
  {
    assert (a + x)[i] == a[i];
  }

  // ---------------------------------------------------------------------
  // The item returned
  // ---------------------------------------------------------------------

  /** The attributes never returned to a client. */
  const SensitiveFields: seq<string> := ["bucketName", "s3Key", "coverImageS3Key"]

  /** The item without its storage attributes. */
  function Sanitized(item: map<string, Value>): (r: map<string, Value>)
    ensures r.Keys == item.Keys - {"bucketName", "s3Key", "coverImageS3Key"}
    ensures forall k :: k in r ==> r[k] == item[k]
  {
    map k | k in item && k !in SensitiveFields :: item[k]
  }

  /** `_sanitize_item`: pops each storage attribute from a copy of the item. */
  method SanitizeItem(item: map<string, Value>) returns (safe: map<string, Value>)
    ensures safe == Sanitized(item)
  {
    safe := item;
    for i := 0 to |SensitiveFields|
      invariant safe.Keys == item.Keys - set j | 0 <= j < i :: SensitiveFields[j]
      invariant forall k :: k in safe ==> safe[k] == item[k]
    {
      safe := safe - {SensitiveFields[i]};
    }
  }

  /** Sanitizing twice removes nothing more. */
  lemma SanitizedIdempotent(item: map<string, Value>)
    ensures Sanitized(Sanitized(item)) == Sanitized(item)
  {
  }

  /** The item as the response carries it: decimals written as floats, storage attributes removed. */
  function Returned(attributes: map<string, Value>): (r: map<string, Value>)
    ensures r.Keys == attributes.Keys - {"bucketName", "s3Key", "coverImageS3Key"}
    ensures forall k :: k in r ==> NoDecimal(r[k]) && DecimalsBecameFloats(attributes[k], r[k])
  {
    var plain := DecimalsToFloat(Object(attributes));
    Sanitized(plain.fields)
  }

  // ---------------------------------------------------------------------
  // The content id
  // ---------------------------------------------------------------------

  /**
   * Lines 44-48: the query string's `contentId` when the query string is
   * truthy, otherwise (or when that one is falsy) the body's when the body
   * has one.  `Err` where `.get`, `in` or `[]` raises.
   */
  function ContentIdOf(query: Value, body: Value): (r: Result<Value>)
    ensures Truthy(query) && query.Object? && Truthy(Get(query.fields, "contentId"))
            ==> r == Ok(query.fields["contentId"])
    ensures (!Truthy(query) || (query.Object? && !Truthy(Get(query.fields, "contentId"))))
            && body.Object? && "contentId" in body.fields
            ==> r == Ok(body.fields["contentId"])
    ensures (!Truthy(query) || (query.Object? && !Truthy(Get(query.fields, "contentId"))))
            && body.Object? && "contentId" !in body.fields
            ==> r.Ok? && !Truthy(r.value)
  {
    var fromQuery := if !Truthy(query) then Ok(Null)
                     else if query.Object? then Ok(Get(query.fields, "contentId"))
                     else Err("object has no attribute 'get'");
    if fromQuery.Err? || Truthy(fromQuery.value) then fromQuery
    else
      var inside := PyIn("contentId", body);
      if inside.None? then Err("argument is not iterable")
      else if !inside.value then fromQuery
      else
        var id := PyIndex(body, "contentId");
        if id.None? then Err("indices must be integers") else Ok(id.value)
  }

  // ---------------------------------------------------------------------
  // The handler
  // ---------------------------------------------------------------------

  /** The request: the event (for the authorizer context), its headers, its decoded body and its query string. */
  datatype Request = Request(event: map<string, Value>, headers: map<string, string>, body: string, query: Value)

  /**
   * The answer: status and message, the bucket calls made, the update
   * expression sent to the table, the item returned and the files replaced.
   */
  datatype Response = Response(
    status: int,
    message: string,
    actions: seq<S3Action>,
    update: Option<Expr>,
    content: Option<map<string, Value>>,
    filesUpdated: seq<string>)

  function Reply(status: int, message: string): Response
  {
    Response(status, message, [], None, None, [])
  }

  const Forbidden := "Access denied. Administrator role required."
  const InternalError := "Internal server error"
  const NotFound := "Content not found"
  const Updated := "Music content updated successfully"
  const MultipartFailed := "Error updating multipart content"
  const NoFieldsOrFiles := "No valid fields or files provided to update"

  /** `headers.get('Content-Type') or headers.get('content-type', '')`. */
  function HeaderContentType(headers: map<string, string>): string
  {
    if "Content-Type" in headers && headers["Content-Type"] != "" then headers["Content-Type"]
    else if "content-type" in headers then headers["content-type"]
    else ""
  }

  /**
   * The stored item for a content id (`None` when there is none) and the
   * attributes the table returns after applying an update expression.
   */
  datatype Table = Table(fetch: Value -> Option<map<string, Value>>, apply: (Value, Expr) -> map<string, Value>)

  /**
   * `handler`: administrators only; a request whose content type mentions
   * `multipart/form-data` takes the multipart path, any other the JSON path.
   */
  function Handle(req: Request, settings: Settings, table: Table, now: string, decode: string -> Option<Value>,
                  show: Value -> string, presign: string -> string): (r: Response)
    ensures r.status == 403 <==> !Admin.IsAdminUser(req.event)
    ensures r.status in {200, 400, 403, 404, 500}
    ensures r.status == 200 <==> r.update.Some?
    ensures r.status == 200 <==> r.content.Some?
    ensures r.content.Some? ==> forall k :: k in SensitiveFields ==> k !in r.content.value
  {
    if !Admin.IsAdminUser(req.event) then Reply(403, Forbidden)
    else if Text.Contains(HeaderContentType(req.headers), "multipart/form-data") then
      HandleMultipart(req, settings, table, now, decode, show, presign)
    else HandleJson(req, table, now, decode)
  }

  /** `_handle_json_update`. */
  function HandleJson(req: Request, table: Table, now: string, decode: string -> Option<Value>): (r: Response)
    ensures r.status in {200, 400, 404, 500}
    ensures r.status == 200 <==> r.update.Some?
    ensures r.status == 200 <==> r.content.Some?
    ensures r.content.Some? ==> forall k :: k in SensitiveFields ==> k !in r.content.value
    ensures r.actions == [] && r.filesUpdated == []
  {
    var body := if req.body == "" then Some(Object(map[])) else decode(req.body);
    if body.None? then Reply(400, "Invalid JSON in request body")
    else
      var id := ContentIdOf(req.query, body.value);
      if id.Err? then Reply(500, InternalError)
      else if !Truthy(id.value) then Reply(400, "Missing contentId")
      else if table.fetch(id.value).None? then Reply(404, NotFound)
      else
        var present := Present(body.value, JsonFields);
        if present.Err? then Reply(500, InternalError)
        else
          var expr := WithLastModified(AssignAll(NoExpr, present.value), now);
          if expr.None? then Reply(400, "No valid fields provided to update")
          else
            Response(200, Updated, [], expr, Some(Returned(table.apply(id.value, expr.value))), [])
  }

  /** `_handle_mutipart_update`: the boundary, the parts, then the metadata's content id. */
  function HandleMultipart(req: Request, settings: Settings, table: Table, now: string, decode: string -> Option<Value>,
                           show: Value -> string, presign: string -> string): (r: Response)
    ensures r.status in {200, 400, 404, 500}
    ensures r.status == 200 <==> r.update.Some?
    ensures r.status == 200 <==> r.content.Some?
    ensures r.content.Some? ==> forall k :: k in SensitiveFields ==> k !in r.content.value
  {
    var boundary := Boundary(HeaderContentType(req.headers));
    if boundary.None? then Reply(400, "Invalid Content-Type header")
    else
      var sel := Select(MultipartParts(req.body, boundary.value), decode);
      if sel.None? then Reply(400, "Invalid JSON in metadata")
      else
        var meta := sel.value.metadata;
        if !Truthy(meta) then Reply(400, "Missing metadata or contentId")
        else
          var hasId := PyIn("contentId", meta);
          if hasId.None? then Reply(500, MultipartFailed)
          else if !hasId.value then Reply(400, "Missing metadata or contentId")
          else
            var id := PyIndex(meta, "contentId");
            if id.None? then Reply(500, MultipartFailed)
            else
              var existing := table.fetch(id.value);
              if existing.None? then Reply(404, NotFound)
              else ReplaceFiles(sel.value, id.value, existing.value, settings, table, now, show, presign)
  }

  /** Lines 180-287: the audio file, then the cover image, then the update. */
  function ReplaceFiles(sel: Selection, id: Value, existing: map<string, Value>, settings: Settings, table: Table,
                        now: string, show: Value -> string, presign: string -> string): (r: Response)
    ensures r.status in {200, 400, 500}
    ensures r.status == 200 <==> r.update.Some?
    ensures r.status == 200 <==> r.content.Some?
    ensures r.content.Some? ==> forall k :: k in SensitiveFields ==> k !in r.content.value
  {
    var audio := if sel.audio.Some? then ReplaceFile(AudioFile, sel.audio.value, existing, settings, show) else FileResult(None, []);
    if audio.error.Some? then Reply(400, audio.error.value)
    else
      var cover := if sel.cover.Some? then ReplaceFile(CoverImage, sel.cover.value, existing, settings, show) else FileResult(None, []);
      if cover.error.Some? then Response(400, cover.error.value, audio.actions, None, None, [])
      else
        var actions := audio.actions + cover.actions;
        var files := (if sel.audio.Some? then ["audio"] else []) + (if sel.cover.Some? then ["coverImage"] else []);
        var expr := MultipartExpr(sel.metadata, sel.audio, sel.cover, PyStr(id, show), now, presign);
        if expr.Err? then Response(500, MultipartFailed, actions, None, None, [])
        else if expr.value.clauses == [] then Response(400, NoFieldsOrFiles, actions, None, None, [])
        else Response(200, Updated, actions, Some(expr.value), Some(Returned(table.apply(id, expr.value))), files)
  }

  /**
   * An administrator's JSON update of stored content, naming the content in
   * its body, succeeds exactly when one of title, album, genre and cover
   * image is there and not null, and then sends the JSON update's expression.
   */
  lemma JsonUpdateAccepted(req: Request, settings: Settings, table: Table, now: string, decode: string -> Option<Value>,
                           show: Value -> string, presign: string -> string, body: map<string, Value>)
    requires Admin.IsAdminUser(req.event) && !Text.Contains(HeaderContentType(req.headers), "multipart/form-data")
    requires req.body != "" && decode(req.body) == Some(Object(body)) && req.query == Null
    requires "contentId" in body && Truthy(body["contentId"]) && table.fetch(body["contentId"]).Some?
    ensures var r := Handle(req, settings, table, now, decode, show, presign);
            (r.status == 200 <==> exists f :: f in JsonFields && f in body && body[f] != Null)
            && (r.status == 200 ==> r.update == JsonExpr(body, now))
  {
    JsonExprRefused(body, now);
  }

  /**
   * A multipart update answers 400 after the parts are read only with the
   * error the audio or the cover replacement reported: its "no valid
   * fields or files" answer is never given.
   */
  lemma MultipartRefusalsAreFileErrors(sel: Selection, id: Value, existing: map<string, Value>, settings: Settings,
                                       table: Table, now: string, show: Value -> string, presign: string -> string)
    ensures var r := ReplaceFiles(sel, id, existing, settings, table, now, show, presign);
            r.status == 400 ==>
              (sel.audio.Some? && ReplaceFile(AudioFile, sel.audio.value, existing, settings, show).error == Some(r.message))
              || (sel.cover.Some? && ReplaceFile(CoverImage, sel.cover.value, existing, settings, show).error == Some(r.message))
  {
    var audio := if sel.audio.Some? then ReplaceFile(AudioFile, sel.audio.value, existing, settings, show) else FileResult(None, []);
    var cover := if sel.cover.Some? then ReplaceFile(CoverImage, sel.cover.value, existing, settings, show) else FileResult(None, []);
    if audio.error.None? && cover.error.None? {
      var expr := MultipartExpr(sel.metadata, sel.audio, sel.cover, PyStr(id, show), now, presign);
      if expr.Ok? {
        MultipartExprNeverEmpty(sel.metadata, sel.audio, sel.cover, PyStr(id, show), now, presign);
      }
    }
  }

  /**
   * A refused cover image answers 400 and leaves the item as it was, but
   * the audio file given with it has already replaced the stored one.
   */
  lemma CoverRefusedAfterAudio(sel: Selection, id: Value, existing: map<string, Value>, settings: Settings,
                               table: Table, now: string, show: Value -> string, presign: string -> string)
    requires sel.audio.Some? && Accepted(AudioFile, sel.audio.value, existing, settings)
    requires sel.cover.Some? && !Accepted(CoverImage, sel.cover.value, existing, settings)
    ensures var r := ReplaceFiles(sel, id, existing, settings, table, now, show, presign);
            var audio := sel.audio.value;
            var contentType := TypeOr(audio, "audio/mpeg");
            r.status == 400 && r.update.None?
            && Put(AudioS3Key(PyStr(existing["contentId"], show), audio.filename.value), audio.data, contentType) in r.actions
  {
    var audio := ReplaceFile(AudioFile, sel.audio.value, existing, settings, show);
    assert audio.actions[|audio.actions| - 1] in audio.actions;
  }

  /**
   * A successful multipart update lists the audio file as updated, and sets
   * the audio key, exactly when it carried one; likewise for the cover image.
   */
  lemma FilesUpdatedIff(sel: Selection, id: Value, existing: map<string, Value>, settings: Settings,
                        table: Table, now: string, show: Value -> string, presign: string -> string)
    requires ReplaceFiles(sel, id, existing, settings, table, now, show, presign).status == 200
    ensures var r := ReplaceFiles(sel, id, existing, settings, table, now, show, presign);
            ("audio" in r.filesUpdated <==> sel.audio.Some?)
            && ("coverImage" in r.filesUpdated <==> sel.cover.Some?)
            && (Clause("s3Key") in r.update.value.clauses <==> sel.audio.Some?)
  {
    MultipartSetsKeyIffAudio(sel.metadata, sel.audio, sel.cover, PyStr(id, show), now, presign);
  }
}
