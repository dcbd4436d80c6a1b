/**
 * The discover handler: routes a request by its path suffix to the genre
 * catalogue or to one of three genre listings, normalises the genre and
 * limit parameters, chooses the index a content listing queries, and
 * builds the catalogue of genres ordered by how many items each has.
 *
 * The tables are parameters (`Env`): a scan per table, the per-genre item
 * counts (which are 0 where the count query fails), the listing query, and
 * the codecs `int(str)`, pagination-key decoding and encoding.
 */
module Discover {
  import opened Wrappers
  import opened Json
  import Text
  import Ranking

  // ---------------------------------------------------------------------
  // String order
  // ---------------------------------------------------------------------

  /** Python's `a < b` on `str`: lexicographic by code point. */
  predicate Precedes(a: string, b: string)
    decreases |a|
  {
    |b| > 0 && (|a| == 0 || a[0] < b[0] || (a[0] == b[0] && Precedes(a[1..], b[1..])))
  }

  lemma {:induction false} PrecedesIrreflexive(a: string)
    ensures !Precedes(a, a)
    decreases |a|
  {
    if |a| > 0 {
      PrecedesIrreflexive(a[1..]);
    }
  }

  lemma {:induction false} PrecedesTransitive(a: string, b: string, c: string)
    ensures Precedes(a, b) && Precedes(b, c) ==> Precedes(a, c)
    decreases |a|
  {
    if |a| > 0 && |b| > 0 && |c| > 0 {
      PrecedesTransitive(a[1..], b[1..], c[1..]);
    }
  }

  lemma {:induction false} PrecedesTotal(a: string, b: string)
    ensures a == b || Precedes(a, b) || Precedes(b, a)
    decreases |a|
  {
    if |a| > 0 && |b| > 0 {
      PrecedesTotal(a[1..], b[1..]);
      if a[0] == b[0] && a[1..] == b[1..] {
        assert a == [a[0]] + a[1..] && b == [b[0]] + b[1..];
      }
    }
  }

  lemma PrecedesAsymmetric(a: string, b: string)
    ensures Precedes(a, b) ==> !Precedes(b, a)
  {
    PrecedesTransitive(a, b, a);
    PrecedesIrreflexive(a);
  }

  /** Strictly increasing, so no name appears twice. */
  predicate Increasing(s: seq<string>) {
    forall i, j :: 0 <= i < j < |s| ==> Precedes(s[i], s[j])
  }

  function Elements(s: seq<string>): set<string> {
    set x | x in s
  }

  lemma ElementsCons(x: string, t: seq<string>)
    ensures Elements([x] + t) == {x} + Elements(t)
  {
    assert forall y :: y in [x] + t <==> y == x || y in t;
  }

  lemma ElementsNonEmpty(t: seq<string>)
    ensures t != [] ==> t[0] in Elements(t)
  {
  }

  /** Adds `g` to a sorted set of names, kept as its increasing list. */
  function InsertSorted(s: seq<string>, g: string): (r: seq<string>)
    ensures Elements(r) == Elements(s) + {g}
    ensures Increasing(s) ==> Increasing(r)
    decreases |s|
  {
    if s == [] then [g]
    else if g == s[0] then s
    else if Precedes(g, s[0]) then
      PrecedesIncreasingFront(g, s);
      [g] + s
    else
      var rest := InsertSorted(s[1..], g);
      assert s == [s[0]] + s[1..];
      PrecedesTotal(g, s[0]);
      PrecedesIncreasingInsert(s, g, rest);
      ElementsCons(s[0], s[1..]);
      ElementsCons(s[0], rest);
      [s[0]] + rest
  }

  lemma PrecedesIncreasingFront(g: string, s: seq<string>)
    requires |s| > 0 && Precedes(g, s[0])
    ensures Increasing(s) ==> Increasing([g] + s)
  {
    if Increasing(s) {
      forall j | 1 <= j < |s| + 1 ensures Precedes(([g] + s)[0], ([g] + s)[j]) {
        PrecedesTransitive(g, s[0], s[j - 1]);
      }
    }
  }

  lemma PrecedesIncreasingInsert(s: seq<string>, g: string, rest: seq<string>)
    requires |s| > 0 && Precedes(s[0], g)
    requires Elements(rest) == Elements(s[1..]) + {g}
    requires Increasing(s[1..]) ==> Increasing(rest)
    ensures Increasing(s) ==> Increasing([s[0]] + rest)
  {
    if Increasing(s) {
      assert Increasing(s[1..]);
      forall j | 0 <= j < |rest| ensures Precedes(s[0], rest[j]) {
        assert rest[j] in Elements(rest);
        if rest[j] != g {
          var k :| 0 <= k < |s[1..]| && s[1..][k] == rest[j];
          assert s[k + 1] == rest[j];
        }
      }
    }
  }

  /** Adds each of `gs` in turn. */
  function InsertAll(s: seq<string>, gs: seq<string>): (r: seq<string>)
    ensures Elements(r) == Elements(s) + Elements(gs)
    ensures Increasing(s) ==> Increasing(r)
    decreases |gs|
  {
    if gs == [] then s
    else
      assert Elements(gs) == {gs[0]} + Elements(gs[1..]);
      InsertAll(InsertSorted(s, gs[0]), gs[1..])
  }

  /**
   * An increasing list is determined by its elements: the catalogue is
   * `sorted(...)` of the set of names, whatever order they were found in.
   */
  lemma {:induction false} IncreasingUnique(s: seq<string>, t: seq<string>)
    requires Increasing(s) && Increasing(t) && Elements(s) == Elements(t)
    ensures s == t
    decreases |s|
  {
    if s != [] {
      assert s[0] in Elements(t);
      assert t != [];
      assert t[0] in Elements(s);
      var i :| 0 <= i < |t| && t[i] == s[0];
      var j :| 0 <= j < |s| && s[j] == t[0];
      assert i == 0 || Precedes(t[0], s[0]);
      assert j == 0 || Precedes(s[0], t[0]);
      PrecedesAsymmetric(s[0], t[0]);
      assert s[0] == t[0];
      PrecedesIrreflexive(s[0]);
      assert Elements(s[1..]) == Elements(s) - {s[0]} by {
        assert forall k :: 0 <= k < |s[1..]| ==> Precedes(s[0], s[1..][k]);
        assert s == [s[0]] + s[1..];
      }
      assert Elements(t[1..]) == Elements(t) - {t[0]} by {
        assert forall k :: 0 <= k < |t[1..]| ==> Precedes(t[0], t[1..][k]);
        assert t == [t[0]] + t[1..];
      }
      IncreasingUnique(s[1..], t[1..]);
      assert s == [s[0]] + s[1..] && t == [t[0]] + t[1..];
    } else {
      ElementsNonEmpty(t);
    }
  }

  // ---------------------------------------------------------------------
  // Parameters
  // ---------------------------------------------------------------------

  predicate NoUpper(s: string) {
    forall i :: 0 <= i < |s| ==> !Text.IsUpper(s[i])
  }

  /** `s.lower().strip()`. */
  function Normalize(s: string): (r: string)
    ensures NoUpper(r) && Text.Trimmed(r)
    ensures r == [] <==> Text.IsBlank(Text.Lower(s))
  {
    Text.StripLowerHasNoUpper(s);
    Text.Strip(Text.Lower(s))
  }

  /** Title casing is one-to-one on lower-case names. */
  lemma TitleInjective(a: string, b: string)
    requires NoUpper(a) && NoUpper(b) && Text.Title(a) == Text.Title(b)
    ensures a == b
  {
    Text.TitleKeepsLetters(a, false);
    Text.TitleKeepsLetters(b, false);
    Text.LowerFixed(a);
    Text.LowerFixed(b);
  }

  /** `query_params.get('genre', '').lower().strip()`; `None` where `.lower()` raises. */
  function GenreParam(params: map<string, Value>): (r: Option<string>)
    ensures r.Some? <==> GetOr(params, "genre", Str("")).Str?
    ensures r.Some? ==> r.value == Normalize(GetOr(params, "genre", Str("")).s)
  {
    match GetOr(params, "genre", Str(""))
    case Str(s) => Some(Normalize(s))
    case _ => None
  }

  const DefaultLimit: int := 20
  const MaxLimit: int := 100

  /** `int(v)` for a parameter; `None` where it raises. */
  function IntParam(v: Value, parseInt: string -> Option<int>): Option<int>
  {
    match v
    case Int(i) => Some(i)
    case Str(s) => parseInt(s)
    case _ => None
  }

  /** `min(int(query_params.get('limit', 20)), 100)`. */
  function LimitParam(params: map<string, Value>, parseInt: string -> Option<int>): (r: Option<int>)
    ensures r.Some? <==> IntParam(GetOr(params, "limit", Int(DefaultLimit)), parseInt).Some?
    ensures r.Some? ==> r.value <= MaxLimit
    ensures r.Some? ==> var n := IntParam(GetOr(params, "limit", Int(DefaultLimit)), parseInt).value;
                        (n <= MaxLimit ==> r.value == n) && (n >= MaxLimit ==> r.value == MaxLimit)
    ensures "limit" !in params ==> r == Some(DefaultLimit)
  {
    match IntParam(GetOr(params, "limit", Int(DefaultLimit)), parseInt)
    case None => None
    case Some(n) => Some(if n < MaxLimit then n else MaxLimit)
  }

  /** `sort_by != 'newest'`: ascending order unless the newest come first, which is the default. */
  function Forward(params: map<string, Value>): (r: bool)
    ensures "sortBy" !in params ==> !r
    ensures "sortBy" in params && params["sortBy"] == Str("oldest") ==> r
  {
    GetOr(params, "sortBy", Str("newest")) != Str("newest")
  }

  /** `decode_last_key`: the decoded key, or `None` for an empty or malformed one. */
  function DecodeLastKey(v: Value, decode: string -> Option<Value>): (r: Value)
    ensures !Truthy(v) ==> r == Null
    ensures v.Str? && v.s != "" && decode(v.s).Some? ==> r == decode(v.s).value
    ensures !v.Str? || decode(v.s).None? ==> r == Null
  {
    if !Truthy(v) || !v.Str? then Null
    else match decode(v.s)
      case Some(key) => key
      case None => Null
  }

  /** `encode_last_key`: the encoded key, or `None` for an empty key or one that cannot be encoded. */
  function EncodeLastKey(key: Value, encode: Value -> Option<string>): (r: Value)
    ensures r != Null ==> Truthy(key) && encode(key).Some? && r == Str(encode(key).value)
  {
    if !Truthy(key) then Null
    else match encode(key)
      case Some(s) => Str(s)
      case None => Null
  }

  // ---------------------------------------------------------------------
  // Listings
  // ---------------------------------------------------------------------

  datatype Table = MusicContent | Artists | Albums

  /** One `table.query(...)`: the index, the key conditions, `Limit`, `ScanIndexForward` and `ExclusiveStartKey`. */
  datatype Query = Query(table: Table, index: string, keys: seq<(string, Value)>, limit: int, forward: bool, startKey: Option<Value>)

  /** A query's `Items` and its `LastEvaluatedKey`, if any. */
  datatype Page = Page(items: seq<map<string, Value>>, lastEvaluated: Option<Value>)

  datatype Endpoint = GenresEndpoint | ContentEndpoint | ArtistsEndpoint | AlbumsEndpoint | InvalidEndpoint

  /** The first of `/genres`, `/content`, `/artists`, `/albums` the path ends with. */
  function Route(path: string): (r: Endpoint)
    ensures r == InvalidEndpoint <==>
              !Text.EndsWith(path, "/genres") && !Text.EndsWith(path, "/content")
              && !Text.EndsWith(path, "/artists") && !Text.EndsWith(path, "/albums")
  {
    if Text.EndsWith(path, "/genres") then GenresEndpoint
    else if Text.EndsWith(path, "/content") then ContentEndpoint
    else if Text.EndsWith(path, "/artists") then ArtistsEndpoint
    else if Text.EndsWith(path, "/albums") then AlbumsEndpoint
    else InvalidEndpoint
  }

  /** The last `k` characters of `p + s` are those of `s`. */
  lemma SuffixSlice(p: string, s: string, k: nat)
    requires k <= |s|
    ensures (p + s)[|p + s| - k..] == s[|s| - k..]
  {
    var q := p + s;
    assert q[|p|..] == s;
    assert q[|q| - k..] == q[|p|..][|s| - k..];
  }

  /** Each suffix routes to its own endpoint: no path ends with two of them. */
  lemma RouteGenres(prefix: string)
    ensures Route(prefix + "/genres") == GenresEndpoint
  {
    SuffixSlice(prefix, "/genres", 7);
  }

  lemma RouteContent(prefix: string)
    ensures Route(prefix + "/content") == ContentEndpoint
  {
    var c := prefix + "/content";
    SuffixSlice(prefix, "/content", 8);
    SuffixSlice(prefix, "/content", 7);
    assert c[|c| - 7] == 'c';
    assert !Text.EndsWith(c, "/genres");
  }

  lemma RouteArtists(prefix: string)
    ensures Route(prefix + "/artists") == ArtistsEndpoint
  {
    var a := prefix + "/artists";
    SuffixSlice(prefix, "/artists", 8);
    SuffixSlice(prefix, "/artists", 7);
    assert a[|a| - 7] == 'a' && a[|a| - 7] == a[|a| - 8..][1];
    assert !Text.EndsWith(a, "/genres") && !Text.EndsWith(a, "/content");
  }

  lemma RouteAlbums(prefix: string)
    ensures Route(prefix + "/albums") == AlbumsEndpoint
  {
    var b := prefix + "/albums";
    SuffixSlice(prefix, "/albums", 7);
    assert b[|b| - 6] == 'a';
    assert !Text.EndsWith(b, "/genres");
    assert |b| >= 8 ==> b[|b| - 7] == b[|b| - 8..][1] == '/';
    assert !Text.EndsWith(b, "/content") && !Text.EndsWith(b, "/artists");
  }

  /**
   * The query a listing runs: content by album (track order), by genre and
   * artist, or by genre in creation order; artists by primary genre;
   * albums by genre in creation order.
   */
  function ListingQuery(endpoint: Endpoint, genre: string, limit: int, params: map<string, Value>, decode: string -> Option<Value>): (r: Query)
    requires endpoint in {ContentEndpoint, ArtistsEndpoint, AlbumsEndpoint}
    ensures r.limit == limit && |r.keys| > 0
    ensures r.index != "albumId-trackNumber-index" ==> r.keys[0] == (r.keys[0].0, Str(genre))
    ensures r.startKey.Some? <==> Truthy(Get(params, "lastKey"))
  {
    var lastKey := Get(params, "lastKey");
    var startKey := if Truthy(lastKey) then Some(DecodeLastKey(lastKey, decode)) else None;
    match endpoint
    case ContentEndpoint =>
      if Truthy(Get(params, "albumId")) then
        Query(MusicContent, "albumId-trackNumber-index", [("albumId", Get(params, "albumId"))], limit, true, startKey)
      else if Truthy(Get(params, "artistId")) then
        Query(MusicContent, "genre-artistId-index", [("genre", Str(genre)), ("artistId", Get(params, "artistId"))], limit, Forward(params), startKey)
      else
        Query(MusicContent, "genre-createdAt-index", [("genre", Str(genre))], limit, Forward(params), startKey)
    case ArtistsEndpoint =>
      Query(Artists, "primaryGenre-index", [("primaryGenre", Str(genre))], limit, true, startKey)
    case AlbumsEndpoint =>
      Query(Albums, "genre-createdAt-index", [("genre", Str(genre))], limit, Forward(params), startKey)
  }

  datatype Env = Env(
    scan: Table -> Option<seq<map<string, Value>>>,  // a scan's `Items`; `None` where it raises
    count: Table -> string -> nat,                   // the per-genre `Count`, 0 where the query fails
    query: Query -> Option<Page>,                    // `None` where the query raises
    parseInt: string -> Option<int>,                 // `int(str)`
    decode: string -> Option<Value>,                 // base64, UTF-8 and JSON decoding of a pagination key
    encode: Value -> Option<string>)                 // JSON, UTF-8 and base64 encoding of a pagination key

  /** One genre's catalogue entry. */
  datatype GenreRow = GenreRow(genre: string, contentCount: nat, artistCount: nat, albumCount: nat, totalItems: nat)

  datatype Outcome =
    | Failure(statusCode: int, message: string)
    | Listed(query: Query, items: seq<map<string, Value>>, hasMore: bool, lastKey: Value)
    | Catalogue(genres: seq<GenreRow>)

  /**
   * A genre listing; `None` where it raises.  The genre and the limit are
   * read before the genre is checked, so a bad limit raises even when the
   * genre is missing.
   */
  function Listing(endpoint: Endpoint, params: map<string, Value>, env: Env): (r: Option<Outcome>)
    requires endpoint in {ContentEndpoint, ArtistsEndpoint, AlbumsEndpoint}
    ensures r.Some? && r.value.Listed? ==> r.value.query.limit <= MaxLimit
    ensures r.Some? && r.value.Failure? ==> r.value == Failure(400, "Genre parameter is required")
  {
    var genre := GenreParam(params);
    var limit := LimitParam(params, env.parseInt);
    if genre.None? || limit.None? then None
    else if genre.value == "" then Some(Failure(400, "Genre parameter is required"))
    else
      var q := ListingQuery(endpoint, genre.value, limit.value, params, env.decode);
      match env.query(q)
      case None => None
      case Some(page) =>
        var lastKey := if page.lastEvaluated.Some? then EncodeLastKey(page.lastEvaluated.value, env.encode) else Null;
        Some(Listed(q, page.items, page.lastEvaluated.Some?, lastKey))
  }

  // ---------------------------------------------------------------------
  // Genre catalogue
  // ---------------------------------------------------------------------

  /** `if item.get(field): add(item[field].lower().strip())`; `None` where `.lower()` raises. */
  function FieldGenre(item: map<string, Value>, field: string): (r: Option<seq<string>>)
    ensures r.Some? ==> forall i :: 0 <= i < |r.value| ==> NoUpper(r.value[i])
  {
    var g := Get(item, field);
    if !Truthy(g) then Some([])
    else if g.Str? then Some([Normalize(g.s)])
    else None
  }

  /** `if genre and genre.strip(): add(genre.lower().strip())`; `None` where `.strip()` raises. */
  function SecondaryGenre(g: Value): (r: Option<seq<string>>)
    ensures r.Some? ==> |r.value| <= 1 && forall i :: 0 <= i < |r.value| ==> NoUpper(r.value[i])
  {
    if !Truthy(g) then Some([])
    else if !g.Str? then None
    else if Text.Strip(g.s) == "" then Some([])
    else Some([Normalize(g.s)])
  }

  /** The secondary genres among `vs` that are non-empty after stripping. */
  function SecondaryEach(vs: seq<Value>): (r: Option<seq<string>>)
    ensures r.Some? ==> forall i :: 0 <= i < |r.value| ==> NoUpper(r.value[i])
  {
    if vs == [] then Some([])
    else
      var n := |vs| - 1;
      var before := SecondaryEach(vs[..n]);
      var last := SecondaryGenre(vs[n]);
      if before.None? || last.None? then None
      else Some(before.value + last.value)
  }

  /** `for genre in item.get('genres', [])`: a list, or a string iterated character by character. */
  function Secondary(v: Value): (r: Option<seq<string>>)
    ensures r.Some? ==> forall i :: 0 <= i < |r.value| ==> NoUpper(r.value[i])
  {
    match v
    case List(vs) => SecondaryEach(vs)
    case Str(s) => SecondaryEach(seq(|s|, i requires 0 <= i < |s| => Str([s[i]])))
    case _ => None
  }

  /** The normalised genres one scanned item adds; `None` where reading them raises. */
  function Contribution(table: Table, item: map<string, Value>): (r: Option<seq<string>>)
    ensures r.Some? ==> forall i :: 0 <= i < |r.value| ==> NoUpper(r.value[i])
  {
    if table == Artists then
      var primary := FieldGenre(item, "primaryGenre");
      var secondary := Secondary(GetOr(item, "genres", List([])));
      if primary.None? || secondary.None? then None else Some(primary.value + secondary.value)
    else FieldGenre(item, "genre")
  }

  /** The set the scan loop over `items` adds to; `None` where the loop raises. */
  function Contributed(table: Table, items: seq<map<string, Value>>): (r: Option<set<string>>)
  {
    if items == [] then Some({})
    else
      var n := |items| - 1;
      var before := Contributed(table, items[..n]);
      var c := Contribution(table, items[n]);
      if before.None? || c.None? then None else Some(before.value + Elements(c.value))
  }

  /** The scan loop over `items`, adding to the sorted set `acc`. */
  function Gathered(acc: seq<string>, table: Table, items: seq<map<string, Value>>): (r: Option<seq<string>>)
  {
    if items == [] then Some(acc)
    else
      var n := |items| - 1;
      var before := Gathered(acc, table, items[..n]);
      var c := Contribution(table, items[n]);
      if before.None? || c.None? then None else Some(InsertAll(before.value, c.value))
  }

  /** The loop adds exactly the contributed genres and keeps the set sorted. */
  lemma {:induction false} GatheredElements(acc: seq<string>, table: Table, items: seq<map<string, Value>>)
    ensures Gathered(acc, table, items).Some? <==> Contributed(table, items).Some?
    ensures Gathered(acc, table, items).Some? ==>
              Elements(Gathered(acc, table, items).value) == Elements(acc) + Contributed(table, items).value
    ensures Gathered(acc, table, items).Some? && Increasing(acc) ==> Increasing(Gathered(acc, table, items).value)
  {
    if items != [] {
      GatheredElements(acc, table, items[..|items| - 1]);
    }
  }

  /** Every contributed genre is lower-case. */
  lemma {:induction false} ContributedLowerCase(table: Table, items: seq<map<string, Value>>)
    ensures Contributed(table, items).Some? ==> forall g :: g in Contributed(table, items).value ==> NoUpper(g)
  {
    if items != [] {
      ContributedLowerCase(table, items[..|items| - 1]);
    }
  }

  /** `scan` over one table's items, adding to the sorted set `acc`. */
  method GatherGenres(acc: seq<string>, table: Table, items: seq<map<string, Value>>) returns (r: Option<seq<string>>)
    ensures r == Gathered(acc, table, items)
  {
    var genres := acc;
    for i := 0 to |items|
      invariant Gathered(acc, table, items[..i]) == Some(genres)
    {
      assert items[..i + 1][..i] == items[..i];
      var c := Contribution(table, items[i]);
      if c.None? {
        assert items[..i + 1][i] == items[i];
        GatheredRaises(acc, table, items, i + 1);
        return None;
      }
      genres := InsertAll(genres, c.value);
    }
    assert items[..|items|] == items;
    r := Some(genres);
  }

  /** Once the loop has raised, it has raised over any longer list. */
  lemma {:induction false} GatheredRaises(acc: seq<string>, table: Table, items: seq<map<string, Value>>, k: nat)
    requires k <= |items| && Gathered(acc, table, items[..k]).None?
    ensures Gathered(acc, table, items).None?
    decreases |items| - k
  {
    if k < |items| {
      assert items[..k + 1][..k] == items[..k];
      GatheredRaises(acc, table, items, k + 1);
    } else {
      assert items[..k] == items;
    }
  }

  /** The three scans in turn: the sorted union of content, artist and album genres. */
  function GenreNames(music: seq<map<string, Value>>, artists: seq<map<string, Value>>, albums: seq<map<string, Value>>): Option<seq<string>>
  {
    var m := Gathered([], MusicContent, music);
    if m.None? then None
    else
      var a := Gathered(m.value, Artists, artists);
      if a.None? then None else Gathered(a.value, Albums, albums)
  }

  function Row(g: string, count: Table -> string -> nat): GenreRow
  {
    var content, artists, albums := count(MusicContent)(g), count(Artists)(g), count(Albums)(g);
    GenreRow(Text.Title(g), content, artists, albums, content + artists + albums)
  }

  function TotalKey(row: GenreRow): real {
    row.totalItems as real
  }

  /** `get_available_genres`: one row per genre, the most items first; `None` where it raises. */
  function Genres(env: Env): Option<seq<GenreRow>>
  {
    var music, artists, albums := env.scan(MusicContent), env.scan(Artists), env.scan(Albums);
    if music.None? || artists.None? || albums.None? then None
    else
      match GenreNames(music.value, artists.value, albums.value)
      case None => None
      case Some(names) => Some(Ranking.SortedDesc(Rows(names, env.count), TotalKey))
  }

  /** One row per genre name, in the order of the names. */
  function Rows(names: seq<string>, count: Table -> string -> nat): (r: seq<GenreRow>)
    ensures |r| == |names| && forall i :: 0 <= i < |names| ==> r[i] == Row(names[i], count)
  {
    seq(|names|, i requires 0 <= i < |names| => Row(names[i], count))
  }

  /** The row loop of `get_available_genres`. */
  method GenreRows(names: seq<string>, count: Table -> string -> nat) returns (rows: seq<GenreRow>)
    ensures rows == Rows(names, count)
  {
    rows := [];
    for i := 0 to |names|
      invariant |rows| == i && forall j :: 0 <= j < i ==> rows[j] == Row(names[j], count)
    {
      rows := rows + [Row(names[i], count)];
    }
  }

  /** `get_available_genres` with its scan loops and its row loop. */
  method AvailableGenres(env: Env) returns (r: Option<seq<GenreRow>>)
    ensures r == Genres(env)
  {
    var music, artists, albums := env.scan(MusicContent), env.scan(Artists), env.scan(Albums);
    if music.None? || artists.None? || albums.None? {
      return None;
    }
    var names := GatherGenres([], MusicContent, music.value);
    if names.None? {
      return None;
    }
    names := GatherGenres(names.value, Artists, artists.value);
    if names.None? {
      return None;
    }
    names := GatherGenres(names.value, Albums, albums.value);
    if names.None? {
      return None;
    }
    var rows := GenreRows(names.value, env.count);
    r := Some(Ranking.SortedDesc(rows, TotalKey));
  }

  /**
   * The genre names are the union of the three tables' normalised genres,
   * each once and in alphabetical order, and so they are
   * `sorted(music | artist | album)` whichever order the scans returned.
   */
  lemma GenreNamesAreSortedUnion(music: seq<map<string, Value>>, artists: seq<map<string, Value>>, albums: seq<map<string, Value>>)
    ensures GenreNames(music, artists, albums).Some? <==>
              Contributed(MusicContent, music).Some? && Contributed(Artists, artists).Some? && Contributed(Albums, albums).Some?
    ensures GenreNames(music, artists, albums).Some? ==>
              var names := GenreNames(music, artists, albums).value;
              Increasing(names)
              && Elements(names) == Contributed(MusicContent, music).value + Contributed(Artists, artists).value
                                    + Contributed(Albums, albums).value
  {
    GatheredElements([], MusicContent, music);
    var m := Gathered([], MusicContent, music);
    if m.Some? {
      GatheredElements(m.value, Artists, artists);
      var a := Gathered(m.value, Artists, artists);
      if a.Some? {
        GatheredElements(a.value, Albums, albums);
      }
    }
  }

  /** The row's total is the sum of its three counts. */
  predicate Summed(row: GenreRow) {
    row.totalItems == row.contentCount + row.artistCount + row.albumCount
  }

  /** Rows for distinct lower-case names have distinct title-cased names, and each total is summed. */
  lemma {:induction false} RowsByName(names: seq<string>, count: Table -> string -> nat)
    requires Increasing(names) && forall i :: 0 <= i < |names| ==> NoUpper(names[i])
    ensures var byName := Rows(names, count);
            (forall i :: 0 <= i < |byName| ==> Summed(byName[i]))
            && (forall i, j :: 0 <= i < j < |byName| ==> byName[i].genre != byName[j].genre)
  {
    var byName := Rows(names, count);
    forall i, j | 0 <= i < j < |byName| ensures byName[i].genre != byName[j].genre {
      PrecedesIrreflexive(names[i]);
      if byName[i].genre == byName[j].genre {
        TitleInjective(names[i], names[j]);
      }
    }
  }

  /** Reordering keeps every row summed. */
  lemma PermutedSummed(rows: seq<GenreRow>, byName: seq<GenreRow>)
    requires multiset(rows) == multiset(byName)
    requires forall i :: 0 <= i < |byName| ==> Summed(byName[i])
    ensures forall i :: 0 <= i < |rows| ==> Summed(rows[i])
  {
    forall i | 0 <= i < |rows| ensures Summed(rows[i]) {
      assert rows[i] in multiset(byName);
      var k :| 0 <= k < |byName| && byName[k] == rows[i];
    }
  }

  /** Every genre name is lower-case. */
  lemma NamesLowerCase(music: seq<map<string, Value>>, artists: seq<map<string, Value>>, albums: seq<map<string, Value>>)
    requires GenreNames(music, artists, albums).Some?
    ensures var names := GenreNames(music, artists, albums).value;
            forall i :: 0 <= i < |names| ==> NoUpper(names[i])
  {
    GenreNamesAreSortedUnion(music, artists, albums);
    ContributedLowerCase(MusicContent, music);
    ContributedLowerCase(Artists, artists);
    ContributedLowerCase(Albums, albums);
    var names := GenreNames(music, artists, albums).value;
    forall i | 0 <= i < |names| ensures NoUpper(names[i]) {
      assert names[i] in Elements(names);
    }
  }

  /**
   * The catalogue: each genre once with its three counts summed, ordered
   * by total with the most first, genres with equal totals staying in
   * alphabetical order; the displayed (title-cased) names are distinct.
   */
  lemma GenresOrdered(env: Env)
    requires Genres(env).Some?
    ensures var names := GenreNames(env.scan(MusicContent).value, env.scan(Artists).value, env.scan(Albums).value).value;
            var byName := Rows(names, env.count);
            var rows := Genres(env).value;
            Increasing(names)
            && multiset(rows) == multiset(byName)
            && Ranking.NonIncreasing(rows, TotalKey)
            && (forall v :: Ranking.WithKey(rows, TotalKey, v) == Ranking.WithKey(byName, TotalKey, v))
            && (forall i :: 0 <= i < |rows| ==> Summed(rows[i]))
            && (forall i, j :: 0 <= i < j < |byName| ==> byName[i].genre != byName[j].genre)
  {
    var music, artists, albums := env.scan(MusicContent).value, env.scan(Artists).value, env.scan(Albums).value;
    GenreNamesAreSortedUnion(music, artists, albums);
    NamesLowerCase(music, artists, albums);
    var names := GenreNames(music, artists, albums).value;
    RowsByName(names, env.count);
    PermutedSummed(Genres(env).value, Rows(names, env.count));
  }

  // ---------------------------------------------------------------------
  // Handler
  // ---------------------------------------------------------------------

  /** `event.get('queryStringParameters') or {}`; `None` when it is not a dictionary, so `.get` raises. */
  function QueryParams(event: map<string, Value>): Option<map<string, Value>>
  {
    var q := Get(event, "queryStringParameters");
    if !Truthy(q) then Some(map[]) else if q.Object? then Some(q.fields) else None
  }

  const InternalError := Failure(500, "Internal server error")

  /** `handler`: routes the request; anything that raises is a 500. */
  function Handle(event: map<string, Value>, env: Env): (r: Outcome)
    ensures r.Failure? ==> r.statusCode == 400 || r == InternalError
    ensures r.Listed? ==> r.query.limit <= MaxLimit
  {
    var path := GetOr(event, "path", Str(""));
    if !path.Str? then InternalError
    else
      match Route(path.s)
      case InvalidEndpoint => Failure(400, "Invalid discover endpoint")
      case GenresEndpoint =>
        var rows := Genres(env);
        if rows.None? then InternalError else Catalogue(rows.value)
      case endpoint =>
        var params := QueryParams(event);
        if params.None? then InternalError
        else
          var listed := Listing(endpoint, params.value, env);
          if listed.None? then InternalError else listed.value
  }

  /**
   * A listing only queries with a non-empty genre: a blank genre is a 400
   * before any query, unless reading the limit raised first.
   */
  lemma BlankGenreRejected(endpoint: Endpoint, params: map<string, Value>, env: Env, genre: string)
    requires endpoint in {ContentEndpoint, ArtistsEndpoint, AlbumsEndpoint}
    requires GetOr(params, "genre", Str("")) == Str(genre) && Text.IsBlank(Text.Lower(genre))
    ensures Listing(endpoint, params, env)
            == if LimitParam(params, env.parseInt).Some? then Some(Failure(400, "Genre parameter is required")) else None
  {
    BlankGenreParam(params, genre);
    EmptyGenreRejected(endpoint, params, env);
  }

  /** A genre that normalises to nothing ends the listing with a 400 once the limit is read. */
  lemma EmptyGenreRejected(endpoint: Endpoint, params: map<string, Value>, env: Env)
    requires endpoint in {ContentEndpoint, ArtistsEndpoint, AlbumsEndpoint}
    requires GenreParam(params) == Some("")
    ensures Listing(endpoint, params, env)
            == if LimitParam(params, env.parseInt).Some? then Some(Failure(400, "Genre parameter is required")) else None
  {
  }

  /** A genre that is blank once lower-cased normalises to the empty string. */
  lemma BlankGenreParam(params: map<string, Value>, genre: string)
    requires GetOr(params, "genre", Str("")) == Str(genre) && Text.IsBlank(Text.Lower(genre))
    ensures GenreParam(params) == Some("")
  {
  }

  /** Every query a listing issues carries the normalised genre (or the album) key and a limit of at most 100. */
  lemma ListingQueries(endpoint: Endpoint, params: map<string, Value>, env: Env)
    requires endpoint in {ContentEndpoint, ArtistsEndpoint, AlbumsEndpoint}
    requires Listing(endpoint, params, env).Some? && Listing(endpoint, params, env).value.Listed?
    ensures GenreParam(params).Some? && GenreParam(params).value != ""
    ensures LimitParam(params, env.parseInt).Some?
    ensures Listing(endpoint, params, env).value.query
            == ListingQuery(endpoint, GenreParam(params).value, LimitParam(params, env.parseInt).value, params, env.decode)
    ensures var q := Listing(endpoint, params, env).value.query;
            q.limit <= MaxLimit && |q.keys| > 0
            && (q.index != "albumId-trackNumber-index" ==> q.keys[0].1 == Str(GenreParam(params).value))
  {
    var genre := GenreParam(params);
    var limit := LimitParam(params, env.parseInt);
    assert genre.Some? && limit.Some? && genre.value != "";
    var q := ListingQuery(endpoint, genre.value, limit.value, params, env.decode);
    assert Listing(endpoint, params, env).value.query == q;
  }

  /**
   * The content listing's index: an album id wins over an artist id, which
   * wins over the genre alone; album tracks come in track order, the rest
   * newest first unless `sortBy` says otherwise.
   */
  lemma ContentIndexChoice(genre: string, limit: int, params: map<string, Value>, decode: string -> Option<Value>)
    ensures var q := ListingQuery(ContentEndpoint, genre, limit, params, decode);
            q.table == MusicContent
            && (Truthy(Get(params, "albumId")) ==> q.index == "albumId-trackNumber-index" && q.forward)
            && (!Truthy(Get(params, "albumId")) && Truthy(Get(params, "artistId")) ==>
                  q.index == "genre-artistId-index" && q.keys == [("genre", Str(genre)), ("artistId", Get(params, "artistId"))])
            && (!Truthy(Get(params, "albumId")) && !Truthy(Get(params, "artistId")) ==>
                  q.index == "genre-createdAt-index" && q.keys == [("genre", Str(genre))])
            && (!Truthy(Get(params, "albumId")) ==> (q.forward <==> GetOr(params, "sortBy", Str("newest")) != Str("newest")))
  {
  }

  /**
   * Pagination: sending back the `lastKey` a listing returned resumes the
   * query at that listing's last evaluated key, when the codecs invert
   * each other; a key that does not decode is passed on as `None`.
   */
  lemma PaginationResumes(endpoint: Endpoint, genre: string, limit: int, params: map<string, Value>, env: Env, key: Value)
    requires endpoint in {ContentEndpoint, ArtistsEndpoint, AlbumsEndpoint}
    requires Truthy(key) && env.encode(key).Some? && env.encode(key).value != ""
    requires env.decode(env.encode(key).value) == Some(key)
    ensures ListingQuery(endpoint, genre, limit, params["lastKey" := EncodeLastKey(key, env.encode)], env.decode).startKey == Some(key)
  {
    assert Get(params["lastKey" := EncodeLastKey(key, env.encode)], "lastKey") == Str(env.encode(key).value);
  }

  lemma MalformedKeyIsNone(endpoint: Endpoint, genre: string, limit: int, params: map<string, Value>, decode: string -> Option<Value>)
    requires endpoint in {ContentEndpoint, ArtistsEndpoint, AlbumsEndpoint}
    requires "lastKey" in params && params["lastKey"].Str? && params["lastKey"].s != ""
    requires decode(params["lastKey"].s).None?
    ensures ListingQuery(endpoint, genre, limit, params, decode).startKey == Some(Null)
  {
  }
}
