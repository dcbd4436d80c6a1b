/**
 * The pieces of Python's `str` and `bytes` behaviour that the handlers rely
 * on: whitespace stripping, ASCII case mapping, `split`, `join`, `find`,
 * `startswith`/`endswith`, `in` and `replace(old, '')`.  The sequence
 * operations are generic, so the same definitions serve `str` (a
 * `seq<char>`) and `bytes` (a `seq<Byte>`).
 */
module Text {

  // ---------------------------------------------------------------------
  // Characters
  // ---------------------------------------------------------------------

  /** `c.isspace()`: the characters Python treats as whitespace in `str`. */
  predicate IsSpace(c: char) {
    ('\t' <= c <= '\r') || ('\U{1C}' <= c <= ' ') || c == '\U{85}' || c == '\U{A0}'
    || c == '\U{1680}' || ('\U{2000}' <= c <= '\U{200A}') || c == '\U{2028}' || c == '\U{2029}'
    || c == '\U{202F}' || c == '\U{205F}' || c == '\U{3000}'
  }

  predicate IsUpper(c: char) { 'A' <= c <= 'Z' }
  predicate IsLower(c: char) { 'a' <= c <= 'z' }
  predicate IsDigit(c: char) { '0' <= c <= '9' }
  predicate IsAlnum(c: char) { IsUpper(c) || IsLower(c) || IsDigit(c) }

  function LowerChar(c: char): (r: char)
    ensures !IsUpper(r)
    ensures IsUpper(c) || r == c
  {
    if IsUpper(c) then (c as int + 32) as char else c
  }

  function UpperChar(c: char): (r: char)
    ensures !IsLower(r)
    ensures IsLower(c) || r == c
  {
    if IsLower(c) then (c as int - 32) as char else c
  }

  /** `s.lower()` for the ASCII letters. */
  function Lower(s: string): (r: string)
    ensures |r| == |s|
    ensures forall i :: 0 <= i < |s| ==> r[i] == LowerChar(s[i])
  {
    seq(|s|, i requires 0 <= i < |s| => LowerChar(s[i]))
  }

  lemma LowerIdempotent(s: string)
    ensures Lower(Lower(s)) == Lower(s)
  {
    assert forall i :: 0 <= i < |s| ==> LowerChar(LowerChar(s[i])) == LowerChar(s[i]);
  }

  /** `s.isalnum()` for ASCII text: non-empty and every character a letter or digit. */
  predicate IsAlnumString(s: string) {
    |s| > 0 && forall i :: 0 <= i < |s| ==> IsAlnum(s[i])
  }

  // ---------------------------------------------------------------------
  // Stripping
  // ---------------------------------------------------------------------

  predicate IsBlank(s: string) {
    forall i :: 0 <= i < |s| ==> IsSpace(s[i])
  }

  function LStrip(s: string): (r: string)
    ensures |r| <= |s| && r == s[|s| - |r|..]
    ensures r == [] || !IsSpace(r[0])
    ensures forall i :: 0 <= i < |s| - |r| ==> IsSpace(s[i])
    decreases |s|
  {
    if |s| > 0 && IsSpace(s[0]) then LStrip(s[1..]) else s
  }

  function RStrip(s: string): (r: string)
    ensures |r| <= |s| && r == s[..|r|]
    ensures r == [] || !IsSpace(r[|r| - 1])
    ensures forall i :: |r| <= i < |s| ==> IsSpace(s[i])
    decreases |s|
  {
    if |s| > 0 && IsSpace(s[|s| - 1]) then RStrip(s[..|s| - 1]) else s
  }

  /** `s.strip()`: the text between the leading and trailing whitespace. */
  function Strip(s: string): (r: string)
    ensures |r| <= |s|
    ensures r == [] <==> IsBlank(s)
    ensures Trimmed(r)
  {
    var l := LStrip(s);
    var r := RStrip(l);
    StripEmpty(s);
    r
  }

  lemma StripEmpty(s: string)
    ensures RStrip(LStrip(s)) == [] <==> IsBlank(s)
  {
    var l := LStrip(s);
    if l == [] {
      assert IsBlank(s);
    } else {
      assert !IsSpace(l[0]);
      assert !IsBlank(l);
    }
  }

  /** Neither starts nor ends with whitespace. */
  predicate Trimmed(t: string) {
    t == [] || (!IsSpace(t[0]) && !IsSpace(t[|t| - 1]))
  }

  /** A string that neither starts nor ends with whitespace is its own strip. */
  lemma StripFixed(t: string)
    requires Trimmed(t)
    ensures Strip(t) == t
  {
    var l := LStrip(t);
    if |l| < |t| {
      assert IsSpace(t[0]);
    }
    assert l == t;
    var r := RStrip(l);
    assert |r| == |l|;
  }

  /** `s.strip()` is a slice of `s`. */
  lemma StripSlice(s: string) returns (k: nat)
    ensures k + |Strip(s)| <= |s| && Strip(s) == s[k..k + |Strip(s)|]
  {
    var l := LStrip(s);
    k := |s| - |l|;
    var r := RStrip(l);
    SliceOfSuffix(s, k, |r|);
  }

  /** Two texts with the same prefix are equal only when the rest is: placeholders like `:key` and `#key` are distinct for distinct keys. */
  lemma PrefixInjective<T>(prefix: seq<T>, f: seq<T>, g: seq<T>)
    ensures prefix + f == prefix + g <==> f == g
  {
    if prefix + f == prefix + g {
      assert f == (prefix + f)[|prefix|..];
    }
  }

  lemma SliceOfSuffix<T>(s: seq<T>, k: nat, n: nat)
    requires k + n <= |s|
    ensures s[k..][..n] == s[k..k + n]
  {
  }

  /** Lower-casing a string with no upper-case letter leaves it as it is. */
  lemma LowerFixed(t: string)
    requires forall i :: 0 <= i < |t| ==> !IsUpper(t[i])
    ensures Lower(t) == t
  {
  }

  /** Lower-casing and stripping a second time changes nothing. */
  lemma StripLowerIdempotent(s: string)
    ensures Strip(Lower(Strip(Lower(s)))) == Strip(Lower(s))
  {
    var t := Strip(Lower(s));
    assert Lower(t) == t by {
      StripLowerHasNoUpper(s);
      LowerFixed(t);
    }
    StripFixed(t);
  }

  lemma StripLowerHasNoUpper(s: string)
    ensures forall i :: 0 <= i < |Strip(Lower(s))| ==> !IsUpper(Strip(Lower(s))[i])
  {
    var t := Strip(Lower(s));
    var k := StripSlice(Lower(s));
    forall i | 0 <= i < |t|
      ensures !IsUpper(t[i])
    {
      assert t[i] == Lower(s)[k + i];
    }
  }

  /** `s.lstrip(c)` for a single character `c`. */
  function LStripChar(s: string, c: char): (r: string)
    ensures |r| <= |s| && r == s[|s| - |r|..]
    ensures r == [] || r[0] != c
    ensures forall i :: 0 <= i < |s| - |r| ==> s[i] == c
    decreases |s|
  {
    if |s| > 0 && s[0] == c then LStripChar(s[1..], c) else s
  }

  // ---------------------------------------------------------------------
  // Searching
  // ---------------------------------------------------------------------

  /** `pat` occurs in `s` at index `i`. */
  predicate IsAt<T(==)>(s: seq<T>, pat: seq<T>, i: int) {
    0 <= i && i + |pat| <= |s| && s[i..i + |pat|] == pat
  }

  function FindFrom<T(==)>(s: seq<T>, pat: seq<T>, k: nat): (r: int)
    ensures r == -1 || (k <= r && IsAt(s, pat, r))
    ensures r == -1 ==> forall i :: k <= i ==> !IsAt(s, pat, i)
    ensures r != -1 ==> forall i :: k <= i < r ==> !IsAt(s, pat, i)
    decreases |s| - k
  {
    if k + |pat| > |s| then -1
    else if s[k..k + |pat|] == pat then k
    else FindFrom(s, pat, k + 1)
  }

  /** `s.find(pat)`: the first index where `pat` occurs, or -1. */
  function Find<T(==)>(s: seq<T>, pat: seq<T>): (r: int)
    ensures r == -1 || IsAt(s, pat, r)
    ensures r == -1 <==> forall i :: !IsAt(s, pat, i)
    ensures r != -1 ==> forall i :: 0 <= i < r ==> !IsAt(s, pat, i)
  {
    FindFrom(s, pat, 0)
  }

  /** `pat in s`. */
  predicate Contains<T(==)>(s: seq<T>, pat: seq<T>) {
    Find(s, pat) != -1
  }

  lemma ContainsAt<T>(s: seq<T>, pat: seq<T>, i: int)
    requires IsAt(s, pat, i)
    ensures Contains(s, pat)
  {
  }

  predicate StartsWith<T(==)>(s: seq<T>, prefix: seq<T>) {
    |prefix| <= |s| && s[..|prefix|] == prefix
  }

  predicate EndsWith<T(==)>(s: seq<T>, suffix: seq<T>) {
    |suffix| <= |s| && s[|s| - |suffix|..] == suffix
  }

  // ---------------------------------------------------------------------
  // Splitting and joining
  // ---------------------------------------------------------------------

  /** `s.split(sep)` for a non-empty separator. */
  function Split<T(==)>(s: seq<T>, sep: seq<T>): (r: seq<seq<T>>)
    requires |sep| > 0
    ensures |r| >= 1
    decreases |s|
  {
    var i := Find(s, sep);
    if i == -1 then [s] else [s[..i]] + Split(s[i + |sep|..], sep)
  }

  /** `s.split(sep, 1)`: at most two pieces, cut at the first occurrence. */
  function SplitOnce<T(==)>(s: seq<T>, sep: seq<T>): (r: seq<seq<T>>)
    requires |sep| > 0
    ensures 1 <= |r| <= 2
    ensures |r| == 1 <==> !Contains(s, sep)
    ensures |r| == 1 ==> r[0] == s
    ensures |r| == 2 ==> s == r[0] + sep + r[1] && !Contains(r[0], sep)
  {
    var i := Find(s, sep);
    if i == -1 then [s]
    else
      var a, b := s[..i], s[i + |sep|..];
      assert s == a + sep + b by { assert s[i..i + |sep|] == sep; }
      assert !Contains(a, sep) by {
        forall j | 0 <= j && j + |sep| <= |a| ensures !IsAt(a, sep, j) {
          assert !IsAt(s, sep, j);
          assert s[j..j + |sep|] == a[j..j + |sep|];
        }
      }
      [a, b]
  }

  /** `s.split(sep)[0]`: everything before the first occurrence of `sep`. */
  function Before<T(==)>(s: seq<T>, sep: seq<T>): (r: seq<T>)
    requires |sep| > 0
    ensures StartsWith(s, r)
    ensures !Contains(r, sep)
    ensures Contains(s, sep) ==> StartsWith(s, r + sep)
  {
    SplitOnce(s, sep)[0]
  }

  lemma SplitHeadIsBefore<T>(s: seq<T>, sep: seq<T>)
    requires |sep| > 0
    ensures Split(s, sep)[0] == Before(s, sep)
  {
  }

  /** `s.split(sep)[1]`: the text after the first `sep`, up to the next one. */
  lemma SplitSecond<T>(s: seq<T>, sep: seq<T>)
    requires |sep| > 0 && Contains(s, sep)
    ensures |Split(s, sep)| >= 2
    ensures !Contains(Split(s, sep)[1], sep)
    ensures StartsWith(s, Before(s, sep) + sep + Split(s, sep)[1])
  {
    var i := Find(s, sep);
    SplitFirst(s, sep, i);
    var rest := s[i + |sep|..];
    SplitHeadIsBefore(rest, sep);
    var r := Before(rest, sep);
    SecondPieceStarts(s, sep, i, s[..i], r);
  }

  lemma SecondPieceStarts<T>(s: seq<T>, sep: seq<T>, i: nat, b: seq<T>, r: seq<T>)
    requires i + |sep| <= |s| && s[i..i + |sep|] == sep && b == s[..i]
    requires StartsWith(s[i + |sep|..], r)
    ensures StartsWith(s, b + sep + r)
  {
    assert s[..i + |sep| + |r|] == s[..i] + s[i..i + |sep|] + s[i + |sep|..][..|r|];
  }

  /** `sep.join(parts)`. */
  function Join<T>(parts: seq<seq<T>>, sep: seq<T>): seq<T>
  {
    if |parts| == 0 then []
    else if |parts| == 1 then parts[0]
    else parts[0] + sep + Join(parts[1..], sep)
  }

  /** `''.join(parts)`. */
  function Concat<T>(parts: seq<seq<T>>): seq<T>
  {
    if |parts| == 0 then [] else parts[0] + Concat(parts[1..])
  }

  /** `s.replace(pat, '')`: every occurrence, left to right, removed. */
  function RemoveAll<T(==)>(s: seq<T>, pat: seq<T>): (r: seq<T>)
    requires |pat| > 0
  {
    Concat(Split(s, pat))
  }

  lemma {:induction false} RemoveAllWithout<T>(s: seq<T>, pat: seq<T>)
    requires |pat| > 0 && !Contains(s, pat)
    ensures RemoveAll(s, pat) == s
  {
    assert Split(s, pat) == [s];
    assert Concat([s]) == s + Concat([]);
  }

  /**
   * Joining with a one-character separator and splitting again gives the
   * pieces back, as long as no piece holds the separator.
   */
  lemma {:induction false} SplitJoin(parts: seq<string>, c: char)
    requires |parts| > 0
    requires forall k :: 0 <= k < |parts| ==> c !in parts[k]
    ensures Split(Join(parts, [c]), [c]) == parts
    decreases |parts|
  {
    var p := parts[0];
    if |parts| == 1 {
      NoCharNoFind(p, c);
    } else {
      var rest := Join(parts[1..], [c]);
      var s := p + [c] + rest;
      assert s == Join(parts, [c]);
      assert IsAt(s, [c], |p|);
      forall i | 0 <= i < |p| ensures !IsAt(s, [c], i) {
        assert s[i] == p[i];
      }
      assert Find(s, [c]) == |p|;
      assert s[..|p|] == p;
      assert s[|p| + 1..] == rest;
      SplitJoin(parts[1..], c);
    }
  }

  lemma NoCharNoFind(p: string, c: char)
    requires c !in p
    ensures Split(p, [c]) == [p]
  {
    forall i | 0 <= i < |p| ensures !IsAt(p, [c], i) {
      assert p[i..i + 1] == [p[i]];
    }
  }

  /** No occurrence of `pat` can start where its `k`-th element would fall before `m`, if that element is absent there. */
  lemma NotAtBefore<T>(s: seq<T>, pat: seq<T>, k: nat, m: nat)
    requires k < |pat| && m <= |s|
    requires forall i :: 0 <= i < m ==> s[i] != pat[k]
    ensures forall j :: 0 <= j && j + k < m ==> !IsAt(s, pat, j)
  {
    forall j | 0 <= j && j + k < m ensures !IsAt(s, pat, j) {
      if j + |pat| <= |s| {
        assert s[j..j + |pat|][k] == s[j + k] != pat[k];
      }
    }
  }

  /** A sequence without an element of `pat` does not contain `pat`, and splitting it gives it back whole. */
  lemma NotContained<T>(s: seq<T>, pat: seq<T>, k: nat)
    requires k < |pat|
    requires forall i :: 0 <= i < |s| ==> s[i] != pat[k]
    ensures !Contains(s, pat)
    ensures Split(s, pat) == [s]
  {
    NotAtBefore(s, pat, k, |s|);
  }

  /** Splitting at the first occurrence. */
  lemma SplitFirst<T>(s: seq<T>, sep: seq<T>, i: nat)
    requires |sep| > 0 && IsAt(s, sep, i)
    requires forall j :: 0 <= j < i ==> !IsAt(s, sep, j)
    ensures Find(s, sep) == i
    ensures Split(s, sep) == [s[..i]] + Split(s[i + |sep|..], sep)
    ensures Before(s, sep) == s[..i]
  {
  }

  /** Splitting at the only occurrence gives the two sides of it. */
  lemma SplitOnly<T>(s: seq<T>, sep: seq<T>, i: nat)
    requires |sep| > 0 && IsAt(s, sep, i)
    requires forall j :: 0 <= j < i ==> !IsAt(s, sep, j)
    requires Split(s[i + |sep|..], sep) == [s[i + |sep|..]]
    ensures Split(s, sep) == [s[..i], s[i + |sep|..]]
  {
    SplitFirst(s, sep, i);
  }

  /** What ends a suffix of `s` ends `s`. */
  lemma EndsWithSuffix<T>(s: seq<T>, k: nat, suffix: seq<T>)
    requires k <= |s| && EndsWith(s[k..], suffix)
    ensures EndsWith(s, suffix)
  {
    assert s[k..][|s| - k - |suffix|..] == s[|s| - |suffix|..];
  }

  /** `s.split(sep)[-1]`. */
  function LastPiece<T(==)>(s: seq<T>, sep: seq<T>): seq<T>
    requires |sep| > 0
  {
    var parts := Split(s, sep);
    parts[|parts| - 1]
  }

  /** The last piece of a split holds no separator. */
  lemma {:induction false} LastPieceNoSep<T>(s: seq<T>, sep: seq<T>)
    requires |sep| > 0
    ensures !Contains(LastPiece(s, sep), sep)
    decreases |s|
  {
    var i := Find(s, sep);
    if i != -1 {
      LastPieceNoSep(s[i + |sep|..], sep);
    }
  }

  /** Past the first separator, the last piece is that of the rest. */
  lemma LastPieceOfRest<T>(s: seq<T>, sep: seq<T>)
    requires |sep| > 0 && Contains(s, sep)
    ensures Find(s, sep) + |sep| <= |s|
    ensures LastPiece(s, sep) == LastPiece(s[Find(s, sep) + |sep|..], sep)
  {
    var i := Find(s, sep);
    assert IsAt(s, sep, i);
    var tail := Split(s[i + |sep|..], sep);
    var parts := Split(s, sep);
    assert parts == [s[..i]] + tail;
    assert parts[|parts| - 1] == tail[|tail| - 1];
  }

  /** The last piece ends the text. */
  lemma {:induction false} LastPieceEnds<T>(s: seq<T>, sep: seq<T>)
    requires |sep| > 0
    ensures EndsWith(s, LastPiece(s, sep))
    decreases |s|
  {
    if Contains(s, sep) {
      LastPieceOfRest(s, sep);
      var k := Find(s, sep) + |sep|;
      LastPieceEnds(s[k..], sep);
      EndsWithSuffix(s, k, LastPiece(s, sep));
    } else {
      assert s[|s| - |s|..] == s;
    }
  }

  /** When there is a separator, the last piece follows the last one. */
  lemma {:induction false} LastPieceAfterSep<T>(s: seq<T>, sep: seq<T>)
    requires |sep| > 0 && Contains(s, sep)
    ensures EndsWith(s, sep + LastPiece(s, sep))
    decreases |s|
  {
    LastPieceOfRest(s, sep);
    var i := Find(s, sep);
    var k := i + |sep|;
    var t := s[k..];
    if Contains(t, sep) {
      LastPieceAfterSep(t, sep);
      EndsWithSuffix(s, k, sep + LastPiece(s, sep));
    } else {
      assert EndsWith(s[i..], sep + LastPiece(s, sep)) by {
        assert LastPiece(s, sep) == t;
        assert s[i..] == s[i..k] + t;
      }
      EndsWithSuffix(s, i, sep + LastPiece(s, sep));
    }
  }

  /** `sep.join(parts)` contains each part. */
  lemma {:induction false} JoinContainsPart(parts: seq<string>, c: char, k: nat)
    requires k < |parts|
    ensures Contains(Join(parts, [c]), parts[k])
    decreases |parts|
  {
    var j := Join(parts, [c]);
    if |parts| == 1 {
      assert IsAt(j, parts[0], 0);
    } else if k == 0 {
      assert j[0..|parts[0]|] == parts[0];
      assert IsAt(j, parts[0], 0);
    } else {
      JoinContainsPart(parts[1..], c, k - 1);
      var rest := Join(parts[1..], [c]);
      var i := Find(rest, parts[k]);
      var off := |parts[0]| + 1;
      assert j == parts[0] + [c] + rest;
      assert j[off + i..off + i + |parts[k]|] == rest[i..i + |parts[k]|];
      assert IsAt(j, parts[k], off + i);
    }
  }

  // ---------------------------------------------------------------------
  // Title case
  // ---------------------------------------------------------------------

  function TitleFrom(s: string, previousCased: bool): (r: string)
    ensures |r| == |s|
    decreases |s|
  {
    if s == [] then []
    else
      var c := s[0];
      var c' := if IsUpper(c) && previousCased then LowerChar(c)
                else if IsLower(c) && !previousCased then UpperChar(c)
                else c;
      [c'] + TitleFrom(s[1..], IsUpper(c) || IsLower(c))
  }

  /** `s.title()` for ASCII text: each run of letters starts upper-case and goes on lower-case. */
  function Title(s: string): (r: string)
    ensures |r| == |s|
  {
    TitleFrom(s, false)
  }

  /** Title casing changes only the case of letters. */
  lemma {:induction false} TitleKeepsLetters(s: string, previousCased: bool)
    ensures Lower(TitleFrom(s, previousCased)) == Lower(s)
    decreases |s|
  {
    if s != [] {
      TitleKeepsLetters(s[1..], IsUpper(s[0]) || IsLower(s[0]));
      var r := TitleFrom(s, previousCased);
      assert r[1..] == TitleFrom(s[1..], IsUpper(s[0]) || IsLower(s[0]));
      assert LowerChar(r[0]) == LowerChar(s[0]);
      forall i | 1 <= i < |s| ensures Lower(r)[i] == Lower(s)[i] {
        assert r[i] == r[1..][i - 1];
        assert Lower(r[1..])[i - 1] == Lower(s[1..])[i - 1];
      }
    }
  }

  // ---------------------------------------------------------------------
  // Numbers
  // ---------------------------------------------------------------------

  function DigitChar(d: nat): (c: char)
    requires d < 10
    ensures IsDigit(c)
  {
    ('0' as int + d) as char
  }

  /** `str(n)` for a non-negative integer. */
  function NatToString(n: nat): (r: string)
    ensures |r| >= 1
    ensures forall i :: 0 <= i < |r| ==> IsDigit(r[i])
    ensures |r| > 1 ==> r[0] != '0'
    decreases n
  {
    if n < 10 then [DigitChar(n)] else NatToString(n / 10) + [DigitChar(n % 10)]
  }

  /** `str(i)`. */
  function IntToString(i: int): string
  {
    if i < 0 then "-" + NatToString(-i) else NatToString(i)
  }

  /** The value of a string of decimal digits. */
  function DigitsValue(s: string): (n: nat)
    requires forall i :: 0 <= i < |s| ==> IsDigit(s[i])
  {
    if s == [] then 0
    else
      var d := s[|s| - 1] as int - '0' as int;
      assert IsDigit(s[|s| - 1]);
      10 * DigitsValue(s[..|s| - 1]) + d
  }

  /** Reading back what `str` wrote gives the number. */
  lemma {:induction false} NatToStringRoundTrip(n: nat)
    ensures DigitsValue(NatToString(n)) == n
    decreases n
  {
    if n >= 10 {
      NatToStringRoundTrip(n / 10);
      var r := NatToString(n);
      assert r[..|r| - 1] == NatToString(n / 10);
    }
  }

  /** The first occurrence of a one-character separator, and the last piece from there on. */
  lemma FirstAt(t: string, c: char, i: nat)
    requires i < |t| && t[i] == c
    requires forall j :: 0 <= j < i ==> t[j] != c
    ensures Find(t, [c]) == i
    ensures LastPiece(t, [c]) == LastPiece(t[i + 1..], [c])
  {
    NotAtBefore(t, [c], 0, i);
    assert t[i..i + 1] == [c];
    SplitFirst(t, [c], i);
  }

  /** What follows the last separator character is the last piece. */
  lemma {:induction false} LastPieceAfterLast(s: string, c: char, e: string)
    requires c !in e
    ensures LastPiece(s + [c] + e, [c]) == e
    decreases |s|
  {
    var t := s + [c] + e;
    var i := Find(s, [c]);
    if i == -1 {
      forall j | 0 <= j < |s| ensures t[j] != c {
        assert !IsAt(s, [c], j);
        assert s[j..j + 1] == [s[j]];
      }
      FirstAt(t, c, |s|);
      assert t[|s| + 1..] == e;
      NoCharNoFind(e, c);
    } else {
      forall j | 0 <= j < i ensures t[j] != c {
        assert !IsAt(s, [c], j);
        assert s[j..j + 1] == [s[j]];
      }
      assert s[i..i + 1] == [c];
      FirstAt(t, c, i);
      assert t[i + 1..] == s[i + 1..] + [c] + e;
      LastPieceAfterLast(s[i + 1..], c, e);
    }
  }

  // ---------------------------------------------------------------------
  // Words
  // ---------------------------------------------------------------------

  /** `len(s.split())`: the number of maximal runs of characters that are not whitespace. */
  function WordCount(s: string): (r: nat)
    ensures r <= |s|
    ensures r == 0 <==> IsBlank(s)
  {
    if |s| == 0 then 0
    else
      var n := |s| - 1;
      var starts := !IsSpace(s[n]) && (n == 0 || IsSpace(s[n - 1]));
      assert IsBlank(s) <==> IsBlank(s[..n]) && IsSpace(s[n]);
      WordCount(s[..n]) + (if starts then 1 else 0)
  }

  /** A word appended after a space adds one to the count. */
  lemma {:induction false} WordCountAppend(a: string, w: string)
    requires |w| > 0 && forall i :: 0 <= i < |w| ==> !IsSpace(w[i])
    ensures WordCount(a + " " + w) == WordCount(a) + 1
    decreases |w|
  {
    var n := |w| - 1;
    var s := a + " " + w;
    assert s[..|s| - 1] == a + " " + w[..n];
    if n == 0 {
      assert (a + " ")[..|a|] == a;
    } else {
      WordCountAppend(a, w[..n]);
    }
  }

  /** Words without whitespace joined by single spaces count as themselves. */
  lemma {:induction false} WordCountJoin(words: seq<string>)
    requires forall k :: 0 <= k < |words| ==> |words[k]| > 0
    requires forall k, i :: 0 <= k < |words| && 0 <= i < |words[k]| ==> !IsSpace(words[k][i])
    ensures WordCount(Join(words, " ")) == |words|
    decreases |words|
  {
    if |words| == 1 {
      var w := words[0];
      assert w == [] + w;
      WordCountOne(w);
    } else if |words| > 1 {
      var n := |words| - 1;
      JoinSnoc(words[..n], words[n], " ");
      assert words[..n] + [words[n]] == words;
      WordCountJoin(words[..n]);
      WordCountAppend(Join(words[..n], " "), words[n]);
    }
  }

  lemma {:induction false} WordCountOne(w: string)
    requires forall i :: 0 <= i < |w| ==> !IsSpace(w[i])
    ensures WordCount(w) == if |w| == 0 then 0 else 1
    decreases |w|
  {
    if |w| > 1 {
      WordCountOne(w[..|w| - 1]);
    }
  }

  /** Joining one more part. */
  lemma {:induction false} JoinSnoc<T>(parts: seq<seq<T>>, last: seq<T>, sep: seq<T>)
    requires |parts| > 0
    ensures Join(parts + [last], sep) == Join(parts, sep) + sep + last
    decreases |parts|
  {
    if |parts| == 1 {
      assert (parts + [last])[1..] == [last];
    } else {
      assert (parts + [last])[1..] == parts[1..] + [last];
      JoinSnoc(parts[1..], last, sep);
    }
  }
}
