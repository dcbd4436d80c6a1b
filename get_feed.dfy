/**
 * The feed-reading handler's `get_feed_albums`: the same signals as the
 * feed-calculation handler, but tracks are looked up by album id in a
 * dictionary, every score is reduced by a diversity penalty and floored at 0,
 * and the albums themselves are not annotated.
 */
module GetFeed {
  import opened Wrappers
  import opened Json
  import opened FeedSignals
  import Ranking

  /**
   * What the handler can pass as `content`: a dictionary from album id to its
   * tracks, or the HTTP-shaped `{'statusCode': ..., 'body': ...}` dictionary
   * that `_get_all_content` returns.
   */
  datatype ContentArg = TrackIndex(index: map<string, seq<Track>>) | Envelope(statusCode: int, body: string)

  /** Iterating `content.get(album_id, [])` and calling `.get` on each element. */
  function TracksFor(content: ContentArg, id: string): (r: Result<seq<Track>>)
    ensures content.TrackIndex? ==> r == Ok(if id in content.index then content.index[id] else [])
    ensures content.Envelope? ==> (r.Err? <==> id == "statusCode" || (id == "body" && content.body != []))
    ensures content.Envelope? && r.Ok? ==> r.value == []
  {
    match content
    case TrackIndex(index) => Ok(if id in index then index[id] else [])
    case Envelope(_, body) =>
      if id == "statusCode" then Err("'int' object is not iterable")
      else if id == "body" && body != [] then Err("'str' object has no attribute 'get'")
      else Ok([])
  }

  /** The tracks of every album in turn, or the first lookup that raises. */
  function ResolveTracks(content: ContentArg, albums: seq<Album>): (r: Result<seq<seq<Track>>>)
    ensures r.Ok? <==> forall i :: 0 <= i < |albums| ==> TracksFor(content, albums[i].albumId).Ok?
    ensures r.Ok? ==> |r.value| == |albums|
    ensures r.Ok? ==> forall i :: 0 <= i < |albums| ==> r.value[i] == TracksFor(content, albums[i].albumId).value
  {
    if albums == [] then Ok([])
    else
      var n := |albums| - 1;
      var front := ResolveTracks(content, albums[..n]);
      var last := TracksFor(content, albums[n].albumId);
      if front.Err? then front
      else if last.Err? then Err(last.error)
      else Ok(front.value + [last.value])
  }

  /** `min(total_genre_plays * 0.5, 10)`. */
  function DiversityPenalty(plays: int): (r: real)
    ensures plays >= 0 ==> 0.0 <= r <= 10.0
    ensures r <= 10.0
  {
    if plays as real * 0.5 < 10.0 then plays as real * 0.5 else 10.0
  }

  /** The score less the diversity penalty, never below 0. */
  function FlooredScore(s: AlbumSignals): (r: real)
    ensures r >= 0.0
    ensures r >= Score(s) - DiversityPenalty(s.genrePlays + s.recentGenrePlays)
    ensures r == 0.0 || r == Score(s) - DiversityPenalty(s.genrePlays + s.recentGenrePlays)
  {
    var penalised := Score(s) - DiversityPenalty(s.genrePlays + s.recentGenrePlays);
    if penalised > 0.0 then penalised else 0.0
  }

  /** The score of each album, stated from the inputs (0 outside the handler's domain). */
  function SpecScore(input: FeedInput, tracksOf: seq<seq<Track>>): Album -> real
  {
    (a: Album) =>
      if |tracksOf| == |input.albums| && input.albums != [] then FlooredScore(SpecSignals(input, tracksOf, a)) else 0.0
  }

  /** What `get_feed_albums` returns, or the error it raises. */
  function Feed(input: FeedInput, content: ContentArg): (r: Result<seq<Album>>)
    ensures r.Err? <==> input.albums == [] || ResolveTracks(content, input.albums).Err?
    ensures r.Ok? ==> |r.value| == |input.albums|
  {
    var tracks := ResolveTracks(content, input.albums);
    if tracks.Err? then Err(tracks.error)
    else if input.albums == [] then Err("name 'album_song_ratings' is not defined")
    else
      var key := SortKey(ScoreTable(input.albums, SpecScore(input, tracks.value)));
      Ok(Ranking.Apply(Ranking.SortedDesc(input.albums, key), ConvertAlbum))
  }

  /** `get_feed_albums`, with the clock and the current hour as parameters. */
  method GetFeedAlbums(input: FeedInput, content: ContentArg) returns (r: Result<seq<Album>>)
    ensures r == Feed(input, content)
  {
    var tracks := ResolveTracks(content, input.albums);
    if tracks.Err? {
      return Err(tracks.error);
    }
    var signals := BuildSignals(input, tracks.value);
    if signals.Err? {
      return Err("name 'album_song_ratings' is not defined");
    }
    var table := signals.value;
    var scoreOf := (a: Album) => FlooredScore(Lookup(table, input.currentHour, a));
    ghost var specScore := SpecScore(input, tracks.value);
    assert forall a :: scoreOf(a) == specScore(a);
    ScoreTableAgrees(input.albums, scoreOf, specScore);
    var albumScores := ScoreAll(input.albums, scoreOf);
    var ranked := Ranking.SortedDesc(input.albums, SortKey(albumScores));
    r := Ok(Ranking.Apply(ranked, ConvertAlbum));
  }

  /** The scoring loop: `album_scores[album_id] = score` for each album in turn. */
  method ScoreAll(albums: seq<Album>, scoreOf: Album -> real) returns (albumScores: map<string, real>)
    ensures albumScores == ScoreTable(albums, scoreOf)
  {
    albumScores := map[];
    var i := 0;
    while i < |albums|
      invariant 0 <= i <= |albums|
      invariant albumScores == ScoreTable(albums[..i], scoreOf)
    {
      assert albums[..i + 1][..i] == albums[..i];
      albumScores := albumScores[albums[i].albumId := scoreOf(albums[i])];
      i := i + 1;
    }
    assert albums[..i] == albums;
  }

  /** The response body the handler builds: `{'content': feed, 'count': len(feed)}`, or a 500. */
  datatype Response = Response(statusCode: int, content: seq<Album>, count: int)

  function Handler(input: FeedInput, content: ContentArg): (r: Response)
    ensures r.statusCode == 200 || r.statusCode == 500
    ensures r.statusCode == 200 ==> r.count == |r.content| == |input.albums|
  {
    var feed := Feed(input, content);
    if feed.Ok? then Response(200, feed.value, |feed.value|) else Response(500, [], 0)
  }

  // ---------------------------------------------------------------------
  // Properties
  // ---------------------------------------------------------------------

  /** Every key the feed is ranked by is at least 0. */
  lemma {:induction false} ScoresNonNegative(input: FeedInput, tracksOf: seq<seq<Track>>, upto: seq<Album>)
    ensures forall id :: id in ScoreTable(upto, SpecScore(input, tracksOf)) ==> ScoreTable(upto, SpecScore(input, tracksOf))[id] >= 0.0
    decreases |upto|
  {
    if upto != [] {
      ScoresNonNegative(input, tracksOf, upto[..|upto| - 1]);
    }
  }

  /**
   * The feed is the catalogue, converted, rearranged into non-increasing
   * order of `album_scores`, with albums of equal score in catalogue order;
   * every score it is ranked by is at least 0.
   */
  lemma FeedRanksByScore(input: FeedInput, content: ContentArg)
    requires Feed(input, content).Ok?
    ensures var tracksOf := ResolveTracks(content, input.albums).value;
            var key := SortKey(ScoreTable(input.albums, SpecScore(input, tracksOf)));
            var converted := Ranking.Apply(input.albums, ConvertAlbum);
            var feed := Feed(input, content).value;
            && multiset(feed) == multiset(converted)
            && Ranking.NonIncreasing(feed, key)
            && (forall v :: Ranking.WithKey(feed, key, v) == Ranking.WithKey(converted, key, v))
            && (forall i :: 0 <= i < |feed| ==> key(feed[i]) >= 0.0)
  {
    var tracksOf := ResolveTracks(content, input.albums).value;
    ScoresNonNegative(input, tracksOf, input.albums);
    RankedConverted(input.albums, ScoreTable(input.albums, SpecScore(input, tracksOf)));
  }

  /** Converting after the sort is sorting the converted catalogue; a table with no negative entry gives no negative key. */
  lemma RankedConverted(albums: seq<Album>, table: map<string, real>)
    requires forall id :: id in table ==> table[id] >= 0.0
    ensures var key := SortKey(table);
            var converted := Ranking.Apply(albums, ConvertAlbum);
            var feed := Ranking.Apply(Ranking.SortedDesc(albums, key), ConvertAlbum);
            && multiset(feed) == multiset(converted)
            && Ranking.NonIncreasing(feed, key)
            && (forall v :: Ranking.WithKey(feed, key, v) == Ranking.WithKey(converted, key, v))
            && (forall i :: 0 <= i < |feed| ==> key(feed[i]) >= 0.0)
  {
    Ranking.SortApply(albums, SortKey(table), ConvertAlbum, SortKey(table));
  }

  /**
   * With no subscriptions, ratings or history, every album scores 0 (the
   * trend test compares 0 with 0 and the penalty is 0) and the feed is the
   * catalogue in its own order.
   */
  lemma NoSignalsKeepsCatalogue(input: FeedInput, content: ContentArg)
    requires Feed(input, content).Ok?
    requires input.subscriptions == [] && input.ratings == [] && input.history == []
    ensures Feed(input, content).value == Ranking.Apply(input.albums, ConvertAlbum)
  {
    var tracksOf := ResolveTracks(content, input.albums).value;
    var scoreOf := SpecScore(input, tracksOf);
    forall i | 0 <= i < |input.albums| ensures scoreOf(input.albums[i]) == 0.0 {
      NoSignalsZeroFloored(input, tracksOf, input.albums[i]);
    }
    TiedRanking(input.albums, scoreOf);
  }

  lemma NoSignalsZeroFloored(input: FeedInput, tracksOf: seq<seq<Track>>, a: Album)
    requires |tracksOf| == |input.albums| && input.albums != []
    requires input.subscriptions == [] && input.ratings == [] && input.history == []
    ensures SpecScore(input, tracksOf)(a) == 0.0
  {
    NoSignalsZeroScore(input, tracksOf, a);
  }

  /** When every album scores 0, ranking keeps the catalogue as it is. */
  lemma TiedRanking(albums: seq<Album>, scoreOf: Album -> real)
    requires forall i :: 0 <= i < |albums| ==> scoreOf(albums[i]) == 0.0
    ensures Ranking.SortedDesc(albums, SortKey(ScoreTable(albums, scoreOf))) == albums
  {
    ScoreTableTied(albums, scoreOf, 0.0);
    var key := SortKey(ScoreTable(albums, scoreOf));
    forall i | 0 <= i < |albums| ensures key(albums[i]) == 0.0 {
    }
    Ranking.AllTiedKeepsOrder(albums, key, 0.0);
  }

  /** An album whose id is `statusCode` makes the lookup in the envelope raise. */
  lemma EnvelopeStatusCodeRaises(input: FeedInput, statusCode: int, body: string, i: int)
    requires 0 <= i < |input.albums| && input.albums[i].albumId == "statusCode"
    ensures Feed(input, Envelope(statusCode, body)).Err?
    ensures Handler(input, Envelope(statusCode, body)).statusCode == 500
  {
  }

  /** Ratings only reach the score through rated tracks. */
  lemma NoTracksSameSignals(input: FeedInput, tracksOf: seq<seq<Track>>, a: Album)
    requires |tracksOf| == |input.albums| && input.albums != []
    requires forall i :: 0 <= i < |tracksOf| ==> tracksOf[i] == []
    ensures SpecSignals(input, tracksOf, a) == SpecSignals(input.(ratings := []), tracksOf, a)
  {
    NoStarsNoAffinity(input.albums, tracksOf, SongRatings(input.ratings));
    NoStarsNoAffinity(input.albums, tracksOf, SongRatings([]));
  }

  /**
   * As the handler calls it, with the HTTP-shaped dictionary as `content`,
   * no album finds a track, so the ratings never change the feed.
   */
  lemma EnvelopeIgnoresRatings(input: FeedInput, statusCode: int, body: string)
    ensures Handler(input, Envelope(statusCode, body)) == Handler(input.(ratings := []), Envelope(statusCode, body))
  {
    var content := Envelope(statusCode, body);
    var tracks := ResolveTracks(content, input.albums);
    if tracks.Ok? && input.albums != [] {
      var f := SpecScore(input, tracks.value);
      var g := SpecScore(input.(ratings := []), tracks.value);
      forall a ensures f(a) == g(a) {
        NoTracksSameSignals(input, tracks.value, a);
      }
      ScoreTableAgrees(input.albums, f, g);
    }
  }
}
