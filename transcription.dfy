/**
 * What the two transcription handlers share: the audio format passed to
 * the transcription service, the status-update expression they send to
 * the transcriptions table, and the small Python conversions they rely on.
 */
module Transcription {
  import opened Wrappers
  import opened Json
  import Text

  /** `str(v)` where it matters: strings are themselves, integers are written in decimal, the rest by `show`. */
  function Show(v: Value, show: Value -> string): (r: string)
    ensures v.Str? ==> r == v.s
    ensures v.Int? ==> r == Text.IntToString(v.i)
  {
    match v
    case Str(s) => s
    case Int(i) => Text.IntToString(i)
    case _ => show(v)
  }

  /** `v < n` for a retry count; `None` where Python raises (a count that is not a number). */
  function Below(v: Value, n: int): (r: Option<bool>)
    ensures r.Some? <==> v.Int? || v.Decimal? || v.Float? || v.Bool?
    ensures v.Int? ==> r == Some(v.i < n)
  {
    match v
    case Int(i) => Some(i < n)
    case Decimal(d) => Some(d < n as real)
    case Float(f) => Some(f < n as real)
    case Bool(b) => Some((if b then 1 else 0) < n)
    case _ => None
  }

  // ---------------------------------------------------------------------
  // Audio format
  // ---------------------------------------------------------------------

  /** The formats the transcription service is told about, by lower-cased file extension. */
  const Formats: map<string, string> := map["mp3" := "mp3", "wav" := "wav", "flac" := "flac", "m4a" := "mp4", "ogg" := "ogg"]

  /** `s3_key.lower().split('.')[-1]`. */
  function Extension(key: string): string
  {
    Text.LastPiece(Text.Lower(key), ".")
  }

  /** `get_audio_format`, identical in both handlers: always one of the five formats, `mp3` for anything unknown. */
  function AudioFormat(key: string): (r: string)
    ensures r in {"mp3", "wav", "flac", "mp4", "ogg"}
    ensures Extension(key) == "m4a" ==> r == "mp4"
    ensures Extension(key) in {"mp3", "wav", "flac", "ogg"} ==> r == Extension(key)
    ensures Extension(key) !in {"mp3", "wav", "flac", "m4a", "ogg"} ==> r == "mp3"
  {
    var ext := Extension(key);
    if ext in Formats then Formats[ext] else "mp3"
  }

  /** The extension is the lower-cased text after the key's last dot. */
  lemma ExtensionAfterLastDot(stem: string, ext: string)
    requires '.' !in ext
    ensures Extension(stem + "." + ext) == Text.Lower(ext)
  {
    assert Text.Lower(stem + "." + ext) == Text.Lower(stem) + "." + Text.Lower(ext);
    assert '.' !in Text.Lower(ext) by {
      forall i | 0 <= i < |ext| ensures Text.Lower(ext)[i] != '.' {
        assert ext[i] != '.';
      }
    }
    Text.LastPieceAfterLast(Text.Lower(stem), '.', Text.Lower(ext));
  }

  /** An `.M4A` file, in whatever case, is sent as `mp4`. */
  lemma M4aIsMp4(stem: string, ext: string)
    requires '.' !in ext && Text.Lower(ext) == "m4a"
    ensures AudioFormat(stem + "." + ext) == "mp4"
  {
    ExtensionAfterLastDot(stem, ext);
  }

  // ---------------------------------------------------------------------
  // Status updates
  // ---------------------------------------------------------------------

  /** Attribute names the table's expression language reserves, which must be aliased. */
  const Reserved: seq<string> := ["error", "status", "size", "type", "name", "data", "timestamp"]

  const StatusBase: string := "SET #status = :status, updatedAt = :updated_at"

  /** The value placeholders every status update has. */
  const BaseValueKeys: set<string> := {":status", ":updated_at"}

  /** The name placeholder every status update has. */
  const BaseNameKeys: set<string> := {"#status"}

  /** An update expression with its value and name placeholders. */
  datatype StatusUpdate = StatusUpdate(expression: string, values: map<string, Value>, names: map<string, string>)

  /** The clause one extra attribute adds: aliased as `#key` when reserved. */
  function ExtraClause(key: string): string
  {
    if key in Reserved then ", #" + key + " = :" + key else ", " + key + " = :" + key
  }

  /** The extra attributes' clauses, in order. */
  function ExtraClauses(extra: seq<(string, Value)>): (r: seq<string>)
    ensures |r| == |extra|
    ensures forall i :: 0 <= i < |extra| ==> r[i] == ExtraClause(extra[i].0)
  {
    seq(|extra|, i requires 0 <= i < |extra| => ExtraClause(extra[i].0))
  }

  /** One extra attribute added to the update. */
  function AddExtra(u: StatusUpdate, key: string, value: Value): StatusUpdate
  {
    StatusUpdate(u.expression + ExtraClause(key), u.values[":" + key := value],
                 if key in Reserved then u.names["#" + key := key] else u.names)
  }

  const NoExtra: seq<(string, Value)> := []

  /**
   * `update_transcription_status`'s expression for a status and extra
   * attributes, given in the dictionary's order.
   */
  function StatusUpdateOf(status: string, now: string, extra: seq<(string, Value)>): StatusUpdate
  {
    if extra == [] then
      StatusUpdate(StatusBase, map[":status" := Str(status), ":updated_at" := Str(now)], map["#status" := "status"])
    else
      var (key, value) := extra[|extra| - 1];
      AddExtra(StatusUpdateOf(status, now, extra[..|extra| - 1]), key, value)
  }

  /** The loop of `update_transcription_status`, growing the expression and both dictionaries. */
  method BuildStatusUpdate(status: string, now: string, extra: seq<(string, Value)>) returns (u: StatusUpdate)
    ensures u == StatusUpdateOf(status, now, extra)
  {
    var expression := StatusBase;
    var values := map[":status" := Str(status), ":updated_at" := Str(now)];
    var names := map["#status" := "status"];
    for i := 0 to |extra|
      invariant StatusUpdate(expression, values, names) == StatusUpdateOf(status, now, extra[..i])
    {
      var (key, value) := extra[i];
      assert extra[..i + 1][..i] == extra[..i];
      if key in Reserved {
        names := names["#" + key := key];
        expression := expression + (", #" + key + " = :" + key);
      } else {
        expression := expression + (", " + key + " = :" + key);
      }
      values := values[":" + key := value];
    }
    assert extra[..|extra|] == extra;
    u := StatusUpdate(expression, values, names);
  }

  /** The expression is the base clause followed by one clause per extra attribute. */
  lemma {:induction false} StatusExpression(status: string, now: string, extra: seq<(string, Value)>)
    ensures StatusUpdateOf(status, now, extra).expression == StatusBase + Text.Concat(ExtraClauses(extra))
  {
    if extra != [] {
      var n := |extra| - 1;
      StatusExpression(status, now, extra[..n]);
      ExtraClausesSnoc(extra);
      ConcatSnoc(ExtraClauses(extra[..n]), ExtraClause(extra[n].0));
      StatusExpressionStep(status, now, extra);
    } else {
      assert Text.Concat(ExtraClauses(extra)) == [];
    }
  }

  /** The last extra attribute appends its clause to the expression of the others. */
  lemma StatusExpressionStep(status: string, now: string, extra: seq<(string, Value)>)
    requires extra != []
    ensures StatusUpdateOf(status, now, extra).expression
            == StatusUpdateOf(status, now, extra[..|extra| - 1]).expression + ExtraClause(extra[|extra| - 1].0)
  {
  }

  lemma ExtraClausesSnoc(extra: seq<(string, Value)>)
    requires extra != []
    ensures ExtraClauses(extra) == ExtraClauses(extra[..|extra| - 1]) + [ExtraClause(extra[|extra| - 1].0)]
  {
  }

  lemma {:induction false} ConcatSnoc(parts: seq<string>, last: string)
    ensures Text.Concat(parts + [last]) == Text.Concat(parts) + last
    decreases |parts|
  {
    if parts == [] {
      assert [] + [last] == [last];
      assert Text.Concat([last]) == last + Text.Concat([]);
    } else {
      assert (parts + [last])[1..] == parts[1..] + [last];
      ConcatSnoc(parts[1..], last);
    }
  }

  /** The value placeholders are those of the status and the time and one per extra attribute. */
  lemma {:induction false} StatusValueKeys(status: string, now: string, extra: seq<(string, Value)>)
    ensures forall k :: k in StatusUpdateOf(status, now, extra).values
                    <==> k in BaseValueKeys || exists i :: 0 <= i < |extra| && k == ":" + extra[i].0
  {
    if extra != [] {
      var n := |extra| - 1;
      var u := StatusUpdateOf(status, now, extra[..n]);
      assert StatusUpdateOf(status, now, extra).values == u.values[":" + extra[n].0 := extra[n].1];
      StatusValueKeys(status, now, extra[..n]);
      forall i | 0 <= i < n ensures extra[i] == extra[..n][i] { }
    }
  }

  /** Every extra attribute's value placeholder holds its value; the dictionary's keys are distinct. */
  lemma {:induction false} StatusExtraValues(status: string, now: string, extra: seq<(string, Value)>)
    requires forall i, j :: 0 <= i < j < |extra| ==> extra[i].0 != extra[j].0
    ensures forall i :: 0 <= i < |extra| ==> ":" + extra[i].0 in StatusUpdateOf(status, now, extra).values
    ensures forall i :: 0 <= i < |extra| ==> StatusUpdateOf(status, now, extra).values[":" + extra[i].0] == extra[i].1
  {
    if extra != [] {
      var n := |extra| - 1;
      var u := StatusUpdateOf(status, now, extra[..n]);
      assert StatusUpdateOf(status, now, extra).values == u.values[":" + extra[n].0 := extra[n].1];
      StatusExtraValues(status, now, extra[..n]);
      var key := extra[n].0;
      forall i | 0 <= i < n ensures ":" + extra[i].0 != ":" + key && extra[i] == extra[..n][i] {
        Text.PrefixInjective(":", extra[i].0, key);
      }
    }
  }

  /** The status and the time are those given unless an extra attribute is itself named `status` or `updated_at`. */
  lemma {:induction false} StatusBaseValues(status: string, now: string, extra: seq<(string, Value)>)
    requires forall i :: 0 <= i < |extra| ==> extra[i].0 != "status" && extra[i].0 != "updated_at"
    ensures HasBase(StatusUpdateOf(status, now, extra), status, now)
  {
    if extra != [] {
      var n := |extra| - 1;
      assert StatusUpdateOf(status, now, extra) == AddExtra(StatusUpdateOf(status, now, extra[..n]), extra[n].0, extra[n].1);
      forall i | 0 <= i < n ensures extra[..n][i] == extra[i] { }
      StatusBaseValues(status, now, extra[..n]);
      AddExtraKeepsBase(StatusUpdateOf(status, now, extra[..n]), status, now, extra[n].0, extra[n].1);
    }
  }

  /** The status and time placeholders hold the given status and time. */
  predicate HasBase(u: StatusUpdate, status: string, now: string)
  {
    ":status" in u.values && u.values[":status"] == Str(status)
    && ":updated_at" in u.values && u.values[":updated_at"] == Str(now)
  }

  lemma AddExtraKeepsBase(u: StatusUpdate, status: string, now: string, key: string, value: Value)
    requires HasBase(u, status, now) && key != "status" && key != "updated_at"
    ensures HasBase(AddExtra(u, key, value), status, now)
  {
    assert ":status" == ":" + "status";
    assert ":updated_at" == ":" + "updated_at";
    Text.PrefixInjective(":", "status", key);
    Text.PrefixInjective(":", "updated_at", key);
  }

  /** Every name placeholder is `#` followed by the attribute it names. */
  predicate SelfNamed(names: map<string, string>)
  {
    forall k :: k in names ==> "#" + names[k] == k
  }

  /** The name placeholders each name their own attribute. */
  lemma {:induction false} StatusNamesSelf(status: string, now: string, extra: seq<(string, Value)>)
    ensures SelfNamed(StatusUpdateOf(status, now, extra).names)
  {
    if extra != [] {
      var n := |extra| - 1;
      var u := StatusUpdateOf(status, now, extra[..n]);
      assert StatusUpdateOf(status, now, extra) == AddExtra(u, extra[n].0, extra[n].1);
      StatusNamesSelf(status, now, extra[..n]);
      AddExtraNames(u, extra[n].0, extra[n].1);
    } else {
      assert "#status" == "#" + "status";
    }
  }

  /** The `#key` name placeholders of the reserved extra attributes. */
  function ReservedNames(extra: seq<(string, Value)>): set<string>
  {
    if extra == [] then {}
    else
      var key := extra[|extra| - 1].0;
      ReservedNames(extra[..|extra| - 1]) + (if key in Reserved then {"#" + key} else {})
  }

  /** A name is among the reserved extra attributes' placeholders exactly when some reserved attribute has it. */
  lemma {:induction false} ReservedNamesIff(extra: seq<(string, Value)>, k: string)
    ensures k in ReservedNames(extra) <==> exists i :: 0 <= i < |extra| && extra[i].0 in Reserved && k == "#" + extra[i].0
  {
    if extra != [] {
      var n := |extra| - 1;
      ReservedNamesIff(extra[..n], k);
      if exists i :: 0 <= i < |extra| && extra[i].0 in Reserved && k == "#" + extra[i].0 {
        var i :| 0 <= i < |extra| && extra[i].0 in Reserved && k == "#" + extra[i].0;
        if i < n {
          assert extra[..n][i] == extra[i];
        }
      }
      if k in ReservedNames(extra[..n]) {
        var i :| 0 <= i < n && extra[..n][i].0 in Reserved && k == "#" + extra[..n][i].0;
        assert extra[..n][i] == extra[i];
      }
    }
  }

  /** The name placeholders are `#status` and one `#key` per reserved extra attribute. */
  lemma {:induction false} StatusNames(status: string, now: string, extra: seq<(string, Value)>)
    ensures StatusUpdateOf(status, now, extra).names.Keys == BaseNameKeys + ReservedNames(extra)
  {
    if extra != [] {
      var n := |extra| - 1;
      var u := StatusUpdateOf(status, now, extra[..n]);
      var key := extra[n].0;
      assert StatusUpdateOf(status, now, extra).names == if key in Reserved then u.names["#" + key := key] else u.names;
      StatusNames(status, now, extra[..n]);
    }
  }

  /** Adding an attribute keeps every name placeholder naming its own attribute. */
  lemma AddExtraNames(u: StatusUpdate, key: string, value: Value)
    requires SelfNamed(u.names)
    ensures SelfNamed(AddExtra(u, key, value).names)
  {
  }

  /** The two-attribute failure update both handlers send. */
  function FailedUpdate(error: string, now: string): StatusUpdate
  {
    StatusUpdateOf("FAILED", now, [("errorMessage", Str(error)), ("failedAt", Str(now))])
  }

  /** A failure update marks the record `FAILED` and records the error and the time, under plain names. */
  lemma FailedUpdateShape(error: string, now: string)
    ensures var values := FailedUpdate(error, now).values;
            values.Keys == {":status", ":updated_at", ":" + "errorMessage", ":" + "failedAt"}
            && values[":status"] == Str("FAILED") && values[":updated_at"] == Str(now)
            && values[":" + "errorMessage"] == Str(error) && values[":" + "failedAt"] == Str(now)
    ensures FailedUpdate(error, now).names == map["#status" := "status"]
  {
    var extra := [("errorMessage", Str(error)), ("failedAt", Str(now))];
    assert extra[..1] == [("errorMessage", Str(error))];
    assert extra[..1][..0] == [];
    assert "errorMessage" !in Reserved && "failedAt" !in Reserved;
    var first := StatusUpdateOf("FAILED", now, extra[..1]);
    assert first.names == StatusUpdateOf("FAILED", now, []).names;
    assert FailedUpdate(error, now).names == first.names;
    StatusValueKeys("FAILED", now, extra);
    StatusExtraValues("FAILED", now, extra);
    StatusBaseValues("FAILED", now, extra);
  }
}
