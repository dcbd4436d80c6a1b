/**
 * Reading the transcription service's result document: the transcript
 * text, its word count and the average confidence of the recognised
 * items.  Every exception inside the parser is caught and answered with
 * the empty result.
 *
 * As written, the parser collects each confidence as text and then sums
 * the texts, which raises for any item that carries a confidence; a real
 * result document therefore always parses as empty.  `ParseTranscript` is
 * that code, and the monitor model stores its result.
 * `ParseTranscriptIntended` sums the confidences as numbers; it is the
 * corrected parser, which nothing in the model calls.
 */
module TranscriptText {
  import opened Wrappers
  import opened Json
  import Text

  /** The parsed text, average confidence, word count and raw items. */
  datatype Parsed = Parsed(text: Value, confidence: real, wordCount: nat, items: Value)

  /** The answer when there is no transcript or anything raised. */
  const EmptyParse: Parsed := Parsed(Str(""), 0.0, 0, List([]))

  /** What the document holds before its items are read: no transcript, or the first one's text and the items. */
  datatype Front = NoTranscripts | Found(text: Value, items: Value)

  /**
   * The document's `results.transcripts[0].transcript` and
   * `results.items`, with Python's defaults; `Err` where Python raises.
   */
  function ReadFront(data: Value): (r: Result<Front>)
    ensures r.Ok? ==> data.Object?
    ensures r == Ok(NoTranscripts) <==>
              data.Object? && GetOr(data.fields, "results", Object(map[])).Object?
              && !Truthy(GetOr(GetOr(data.fields, "results", Object(map[])).fields, "transcripts", List([])))
  {
    if !data.Object? then Err("'results' lookup on a value that is not a dictionary")
    else
      var results := GetOr(data.fields, "results", Object(map[]));
      if !results.Object? then Err("'transcripts' lookup on a value that is not a dictionary")
      else
        var transcripts := GetOr(results.fields, "transcripts", List([]));
        if !Truthy(transcripts) then Ok(NoTranscripts)
        else if !transcripts.List? then Err("the first transcript cannot be read")
        else
          var first := transcripts.items[0];
          if !first.Object? then Err("the first transcript is not a dictionary")
          else Ok(Found(GetOr(first.fields, "transcript", Str("")), GetOr(results.fields, "items", List([]))))
  }

  /**
   * What `for item in v` walks over.  A non-empty dictionary is walked by
   * its keys, which are strings, and the first `.get` on one raises, so it
   * is refused here directly.
   */
  function Iterate(v: Value): (r: Result<seq<Value>>)
    ensures v.List? ==> r == Ok(v.items)
    ensures r.Ok? <==> v.List? || v.Str? || v == Object(map[])
  {
    match v
    case List(items) => Ok(items)
    case Str(s) => Ok(seq(|s|, i requires 0 <= i < |s| => Str([s[i]])))
    case Object(fields) => if fields == map[] then Ok([]) else Err("a string item has no 'get'")
    case _ => Err("the items are not iterable")
  }

  /**
   * One item's confidence: `Ok(None)` when it has no alternative or the
   * first alternative has no confidence, `Err` where Python raises (an
   * item or a first alternative that is not a dictionary, alternatives
   * that are not a list).
   */
  function ItemConfidence(item: Value): (r: Result<Option<Value>>)
    ensures r.Ok? && r.value.Some? ==> r.value.value != Null
    ensures !item.Object? ==> r.Err?
  {
    if !item.Object? then Err("an item is not a dictionary")
    else
      var alternatives := GetOr(item.fields, "alternatives", List([]));
      if !Truthy(alternatives) then Ok(None)
      else if !alternatives.List? then Err("the first alternative cannot be read")
      else
        var first := alternatives.items[0];
        if !first.Object? then Err("the first alternative is not a dictionary")
        else
          var confidence := Get(first.fields, "confidence");
          if confidence == Null then Ok(None) else Ok(Some(confidence))
  }

  /** The confidences of the items, in order; the first item that raises decides the error. */
  function Confidences(items: seq<Value>): (r: Result<seq<Value>>)
    ensures r.Ok? ==> |r.value| <= |items|
    ensures r.Ok? ==> forall i :: 0 <= i < |items| ==> ItemConfidence(items[i]).Ok?
  {
    if items == [] then Ok([])
    else
      var n := |items| - 1;
      var previous := Confidences(items[..n]);
      if previous.Err? then previous
      else
        assert forall i :: 0 <= i < n ==> items[..n][i] == items[i];
        match ItemConfidence(items[n])
        case Err(e) => Err(e)
        case Ok(None) => previous
        case Ok(Some(c)) => Ok(previous.value + [c])
  }

  /** The loop over the items, appending each confidence it finds. */
  method CollectConfidences(items: seq<Value>) returns (r: Result<seq<Value>>)
    ensures r == Confidences(items)
  {
    var scores: seq<Value> := [];
    for i := 0 to |items|
      invariant Confidences(items[..i]) == Ok(scores)
    {
      assert items[..i + 1][..i] == items[..i];
      var c := ItemConfidence(items[i]);
      if c.Err? {
        assert Confidences(items[..i + 1]) == Err(c.error);
        ErrorPersists(items, i + 1, c.error);
        return Err(c.error);
      }
      if c.value.Some? {
        scores := scores + [c.value.value];
      }
    }
    assert items[..|items|] == items;
    r := Ok(scores);
  }

  /** Once a prefix of the items raises, the whole list raises with the same error. */
  lemma {:induction false} ErrorPersists(items: seq<Value>, k: nat, e: string)
    requires k <= |items| && Confidences(items[..k]) == Err(e)
    ensures Confidences(items) == Err(e)
    decreases |items| - k
  {
    if k < |items| {
      assert items[..k + 1][..k] == items[..k];
      ErrorPersists(items, k + 1, e);
    } else {
      assert items[..k] == items;
    }
  }

  /**
   * The text, its word count and the items, given the average confidence;
   * `Err` where Python raises: a non-empty text that is not a string
   * cannot be split, and a text without a length cannot be logged.
   */
  function Finish(text: Value, items: Value, confidence: real): (r: Result<Parsed>)
    ensures r.Ok? <==> (text.Str? || (!Truthy(text) && Len(text).Some?))
    ensures r.Ok? ==> r.value.text == text && r.value.items == items && r.value.confidence == confidence
    ensures r.Ok? && text.Str? ==> r.value.wordCount == Text.WordCount(text.s)
  {
    var count := if !Truthy(text) then Some(0) else if text.Str? then Some(Text.WordCount(text.s)) else None;
    if count.None? || Len(text).None? then Err("the text cannot be split or measured")
    else Ok(Parsed(text, confidence, count.value, items))
  }

  /**
   * `parse_transcript` as written.  The confidences are kept as text, and
   * summing a non-empty list of texts raises, so the average is only ever
   * taken over no confidences at all.
   */
  function ParseTranscript(data: Value): (r: Parsed)
    ensures r.confidence == 0.0
    ensures ReadFront(data) == Ok(NoTranscripts) ==> r == EmptyParse
  {
    match ReadFront(data)
    case Err(_) => EmptyParse
    case Ok(NoTranscripts) => EmptyParse
    case Ok(Found(text, items)) =>
      match Iterate(items)
      case Err(_) => EmptyParse
      case Ok(list) =>
        match Confidences(list)
        case Err(_) => EmptyParse
        case Ok(scores) =>
          if scores != [] then EmptyParse
          else
            match Finish(text, items, 0.0)
            case Err(_) => EmptyParse
            case Ok(p) => p
  }

  /** The sum of the confidences. */
  function Sum(xs: seq<real>): real
  {
    if xs == [] then 0.0 else Sum(xs[..|xs| - 1]) + xs[|xs| - 1]
  }

  /** The average, 0 for no confidences. */
  function Mean(xs: seq<real>): real
  {
    if xs == [] then 0.0 else Sum(xs) / (|xs| as real)
  }

  /** Every confidence converted to a number; `None` where one does not convert. */
  function Numbers(scores: seq<Value>, toReal: Value -> Option<real>): (r: Option<seq<real>>)
    ensures r.Some? <==> forall i :: 0 <= i < |scores| ==> toReal(scores[i]).Some?
    ensures r.Some? ==> |r.value| == |scores| && forall i :: 0 <= i < |scores| ==> r.value[i] == toReal(scores[i]).value
  {
    if scores == [] then Some([])
    else
      var n := |scores| - 1;
      var previous := Numbers(scores[..n], toReal);
      assert forall i :: 0 <= i < n ==> scores[..n][i] == scores[i];
      if previous.None? || toReal(scores[n]).None? then None
      else Some(previous.value + [toReal(scores[n]).value])
  }

  /**
   * `parse_transcript` as evidently intended: each confidence converted
   * with `float` (`toReal`, `None` where it raises) and their average
   * taken.
   */
  function ParseTranscriptIntended(data: Value, toReal: Value -> Option<real>): (r: Parsed)
    ensures ReadFront(data) == Ok(NoTranscripts) ==> r == EmptyParse
  {
    match ReadFront(data)
    case Err(_) => EmptyParse
    case Ok(NoTranscripts) => EmptyParse
    case Ok(Found(text, items)) =>
      match Iterate(items)
      case Err(_) => EmptyParse
      case Ok(list) =>
        match Confidences(list)
        case Err(_) => EmptyParse
        case Ok(scores) =>
          match Numbers(scores, toReal)
          case None => EmptyParse
          case Some(numbers) =>
            match Finish(text, items, Mean(numbers))
            case Err(_) => EmptyParse
            case Ok(p) => p
  }

  /** The sum of values within `[lo, hi]` lies between `n * lo` and `n * hi`. */
  lemma {:induction false} SumBounds(xs: seq<real>, lo: real, hi: real)
    requires forall i :: 0 <= i < |xs| ==> lo <= xs[i] <= hi
    ensures (|xs| as real) * lo <= Sum(xs) <= (|xs| as real) * hi
  {
    if xs != [] {
      var n := |xs| - 1;
      assert forall i :: 0 <= i < n ==> xs[..n][i] == xs[i];
      SumBounds(xs[..n], lo, hi);
      var m := n as real;
      assert Sum(xs) == Sum(xs[..n]) + xs[n];
      OneMore(|xs| as real, m, lo);
      OneMore(|xs| as real, m, hi);
    }
  }

  lemma OneMore(k: real, m: real, x: real)
    requires k == m + 1.0
    ensures k * x == m * x + x
  {
  }

  /** The average of values within `[lo, hi]` lies within `[lo, hi]`. */
  lemma MeanBounds(xs: seq<real>, lo: real, hi: real)
    requires xs != []
    requires forall i :: 0 <= i < |xs| ==> lo <= xs[i] <= hi
    ensures lo <= Mean(xs) <= hi
  {
    SumBounds(xs, lo, hi);
    var n := |xs| as real;
    assert n * lo <= Sum(xs) <= n * hi;
    DivBounds(Sum(xs), n, lo, hi);
  }

  lemma DivBounds(s: real, n: real, lo: real, hi: real)
    requires n > 0.0 && n * lo <= s <= n * hi
    ensures lo <= s / n <= hi
  {
    assert s / n * n == s;
  }

  /**
   * On a document with a string transcript and items whose confidences all
   * convert, the intended parser keeps the text, counts its words and
   * reports an average confidence within the range of the items' own.
   */
  lemma IntendedReadsTranscript(data: Value, toReal: Value -> Option<real>, t: string, items: seq<Value>, lo: real, hi: real)
    requires ReadFront(data) == Ok(Found(Str(t), List(items)))
    requires Confidences(items).Ok?
    requires forall i :: 0 <= i < |Confidences(items).value| ==> toReal(Confidences(items).value[i]).Some?
    requires forall i :: 0 <= i < |Confidences(items).value| ==> lo <= toReal(Confidences(items).value[i]).value <= hi
    ensures var r := ParseTranscriptIntended(data, toReal);
            r.text == Str(t) && r.wordCount == Text.WordCount(t) && r.items == List(items)
            && (Confidences(items).value != [] ==> lo <= r.confidence <= hi)
            && (Confidences(items).value == [] ==> r.confidence == 0.0)
  {
    var scores := Confidences(items).value;
    var numbers := Numbers(scores, toReal).value;
    if scores != [] {
      MeanBounds(numbers, lo, hi);
    }
  }

  /** Where no item carries a confidence, the code as written and the intended parser agree. */
  lemma AgreeWithoutConfidences(data: Value, toReal: Value -> Option<real>, text: Value, items: Value)
    requires ReadFront(data) == Ok(Found(text, items))
    requires Iterate(items).Ok? && Confidences(Iterate(items).value) == Ok([])
    ensures ParseTranscript(data) == ParseTranscriptIntended(data, toReal)
  {
  }

  /**
   * As written, any item with a confidence empties the result: the text,
   * the word count and the items are all lost.
   */
  lemma AnyConfidenceEmpties(data: Value, text: Value, items: Value)
    requires ReadFront(data) == Ok(Found(text, items))
    requires Iterate(items).Ok? && Confidences(Iterate(items).value).Ok?
    requires Confidences(Iterate(items).value).value != []
    ensures ParseTranscript(data) == EmptyParse
  {
  }

  /** A list of one item with a confidence. */
  lemma OneItem(item: Value, c: Value, toReal: Value -> Option<real>)
    requires ItemConfidence(item) == Ok(Some(c)) && toReal(c).Some?
    ensures Confidences([item]) == Ok([c])
    ensures Numbers([c], toReal) == Some([toReal(c).value])
  {
    assert [item][..0] == [] && [item][0] == item;
    assert Confidences([item][..0]) == Ok([]);
    assert [] + [c] == [c];
    assert [c][..0] == [] && [c][0] == c;
    assert Numbers([c][..0], toReal) == Some([]);
    assert [] + [toReal(c).value] == [toReal(c).value];
  }

  /** One item with a convertible confidence, under a string transcript: lost as written, read as intended. */
  lemma OneConfidence(data: Value, t: string, item: Value, c: Value, toReal: Value -> Option<real>)
    requires ReadFront(data) == Ok(Found(Str(t), List([item])))
    requires ItemConfidence(item) == Ok(Some(c)) && toReal(c).Some?
    ensures ParseTranscript(data) == EmptyParse
    ensures ParseTranscriptIntended(data, toReal) == Parsed(Str(t), toReal(c).value, Text.WordCount(t), List([item]))
  {
    OneItem(item, c, toReal);
    AnyConfidenceEmpties(data, Str(t), List([item]));
    var x := toReal(c).value;
    IntendedReadsTranscript(data, toReal, t, [item], x, x);
  }

  /** A two-word transcript with one recognised item, as the transcription service writes it. */
  const SampleItem: Value := Object(map["alternatives" := List([Object(map["confidence" := Str("0.99"), "content" := Str("hello")])])])

  const Sample: Value :=
    Object(map["results" := Object(map[
      "transcripts" := List([Object(map["transcript" := Str("hello world")])]),
      "items" := List([SampleItem])])])

  lemma SampleParts()
    ensures ReadFront(Sample) == Ok(Found(Str("hello world"), List([SampleItem])))
    ensures ItemConfidence(SampleItem) == Ok(Some(Str("0.99")))
  {
  }

  lemma HelloWorldWords()
    ensures Text.WordCount("hello world") == 2
  {
    var words := ["hello", "world"];
    Text.WordCountJoin(words);
    assert words[1..] == ["world"];
    assert Text.Join(words[1..], " ") == "world";
    assert Text.Join(words, " ") == "hello" + " " + "world" == "hello world";
  }

  /**
   * The sample document: as written it parses as empty; as intended it
   * gives its two words and the item's confidence.
   */
  lemma SampleShowsLoss(toReal: Value -> Option<real>)
    requires toReal(Str("0.99")) == Some(0.99)
    ensures ParseTranscript(Sample) == EmptyParse
    ensures ParseTranscriptIntended(Sample, toReal) == Parsed(Str("hello world"), 0.99, 2, List([SampleItem]))
  {
    SampleParts();
    HelloWorldWords();
    OneConfidence(Sample, "hello world", SampleItem, Str("0.99"), toReal);
  }
}
