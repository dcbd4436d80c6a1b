/**
 * The feed-calculation handler's `get_feed_albums`: it finds each album's
 * tracks by filtering the content list, builds the signals, writes each
 * album's score into the album in place, ranks the albums by the
 * `album_scores` table and converts Decimal leaves to floats.  Scores are not
 * floored.
 */
module CalculateFeed {
  import opened Wrappers
  import opened Json
  import opened FeedSignals
  import Ranking

  // ---------------------------------------------------------------------
  // Album records
  // ---------------------------------------------------------------------

  /** The keys `transform_album_for_response` copies. */
  const AlbumFields: set<string> := {
    "albumId", "title", "artistId", "genre", "description", "releaseYear", "trackCount",
    "duration", "coverImageUrl", "status", "createdAt", "updatedAt", "metadata",
    "recordLabel", "producer", "tags", "isExplicit"}

  /** The default of `item.get(key, default)` for each copied key; `None` where none is given. */
  function FieldDefault(key: string): Value
  {
    if key in {"description", "coverImageUrl", "recordLabel", "producer"} then Str("")
    else if key in {"trackCount", "duration"} then Int(0)
    else if key == "metadata" then Object(map[])
    else if key == "tags" then List([])
    else if key == "isExplicit" then Bool(false)
    else Null
  }

  /** The top-level pass: a Decimal value becomes a float, anything else stays. */
  function LeafToFloat(v: Value): Value
  {
    if v.Decimal? then Float(v.d) else v
  }

  /**
   * `transform_album_for_response`: exactly the listed keys and `stats`, with
   * `stats.score` starting at 0, top-level Decimals turned into floats and
   * absent keys given their defaults.
   */
  function TransformAlbumForResponse(item: map<string, Value>): (r: map<string, Value>)
    ensures r.Keys == AlbumFields + {"stats"}
    ensures r["stats"] == Object(map["score" := Int(0)])
    ensures forall k :: k in r ==> !r[k].Decimal?
    ensures forall k :: k in AlbumFields && k in item && !item[k].Decimal? ==> r[k] == item[k]
    ensures forall k :: k in AlbumFields && k !in item ==> r[k] == FieldDefault(k)
  {
    StatsNotCopied();
    map k | k in AlbumFields + {"stats"} :: if k == "stats" then Object(map["score" := Int(0)]) else Copied(item, k)
  }

  /** `item.get(key, default)` with a top-level Decimal turned into a float. */
  function Copied(item: map<string, Value>, k: string): (r: Value)
    ensures !r.Decimal?
    ensures k in item && !item[k].Decimal? ==> r == item[k]
    ensures k !in item ==> r == FieldDefault(k)
  {
    if k in item then LeafToFloat(item[k]) else FieldDefault(k)
  }

  /** `stats` is not one of the copied keys. */
  lemma StatsNotCopied()
    ensures "stats" !in AlbumFields
  {
  }

  /** `stats.score` of a record, read as a number. */
  function StatsScore(record: map<string, Value>): real
  {
    var stats := Get(record, "stats");
    if stats.Object? && "score" in stats.fields && stats.fields["score"].Int? then stats.fields["score"].i as real
    else 0.0
  }

  /** The view of a record the scorer works on; albums whose three keys are not strings are outside the model. */
  function AlbumOf(record: map<string, Value>): (r: Option<Album>)
    ensures r.Some? <==> Get(record, "albumId").Str? && Get(record, "artistId").Str? && Get(record, "genre").Str?
    ensures r.Some? ==> r.value.albumId == record["albumId"].s && r.value.details == Object(record)
  {
    if Get(record, "albumId").Str? && Get(record, "artistId").Str? && Get(record, "genre").Str? then
      Some(Album(record["albumId"].s, record["artistId"].s, record["genre"].s, StatsScore(record), Object(record)))
    else None
  }

  /** A freshly transformed album has score 0 and keeps its id. */
  lemma TransformedAlbumStartsAtZero(item: map<string, Value>, id: string)
    requires Get(item, "albumId") == Str(id) && Get(item, "artistId").Str? && Get(item, "genre").Str?
    ensures AlbumOf(TransformAlbumForResponse(item)).Some?
    ensures AlbumOf(TransformAlbumForResponse(item)).value.score == 0.0
    ensures AlbumOf(TransformAlbumForResponse(item)).value.albumId == id
  {
    var r := TransformAlbumForResponse(item);
    assert "albumId" in AlbumFields && "artistId" in AlbumFields && "genre" in AlbumFields;
    assert r["albumId"] == Str(id);
  }

  // ---------------------------------------------------------------------
  // The feed
  // ---------------------------------------------------------------------

  /** `[item for item in content if item.get("albumId") == album_id]`. */
  function AlbumTracks(content: seq<Track>, id: string): (r: seq<Track>)
    ensures |r| <= |content|
    ensures forall t :: t in r <==> t in content && t.albumId == Some(id)
  {
    if content == [] then []
    else
      var last := content[|content| - 1];
      AlbumTracks(content[..|content| - 1], id) + (if last.albumId == Some(id) then [last] else [])
  }

  function TracksOf(content: seq<Track>, albums: seq<Album>): seq<seq<Track>>
  {
    seq(|albums|, i requires 0 <= i < |albums| => AlbumTracks(content, albums[i].albumId))
  }

  function InputOf(subscriptions: seq<Subscription>, ratings: seq<Rating>, history: seq<Play>,
                   albums: seq<Album>, now: int, currentHour: int): FeedInput
  {
    FeedInput(subscriptions, ratings, history, albums, now, currentHour)
  }

  /** The score of each album, stated from the inputs (0 outside the handler's domain). */
  function SpecScore(input: FeedInput, tracksOf: seq<seq<Track>>): Album -> real
  {
    (a: Album) =>
      if |tracksOf| == |input.albums| && input.albums != [] then Score(SpecSignals(input, tracksOf, a)) else 0.0
  }

  /**
   * The catalogue after the scoring loop: each album with its score written
   * into `stats.score`, which `Album.score` stands for.
   */
  function Rescored(albums: seq<Album>, scoreOf: Album -> real): (r: seq<Album>)
    ensures |r| == |albums|
    ensures forall i :: 0 <= i < |r| ==> r[i].albumId == albums[i].albumId && r[i].score == scoreOf(albums[i])
  {
    seq(|albums|, i requires 0 <= i < |albums| => albums[i].(score := scoreOf(albums[i])))
  }

  /** What `get_feed_albums` returns, or the error it raises. */
  function Feed(input: FeedInput, content: seq<Track>): (r: Result<seq<Album>>)
    ensures r.Err? <==> input.albums == []
    ensures r.Ok? ==> |r.value| == |input.albums|
  {
    if input.albums == [] then Err("name 'album_song_ratings' is not defined")
    else
      var scoreOf := SpecScore(input, TracksOf(content, input.albums));
      var ranked := Ranking.SortedDesc(Rescored(input.albums, scoreOf), SortKey(ScoreTable(input.albums, scoreOf)));
      Ok(Ranking.Apply(ranked, ConvertAlbum))
  }

  /**
   * `get_feed_albums`: the catalogue is the caller's list, and each album's
   * score is written into it before the ranked, converted copy is returned.
   */
  method GetFeedAlbums(subscriptions: seq<Subscription>, ratings: seq<Rating>, history: seq<Play>,
                       albums: array<Album>, content: seq<Track>, now: int, currentHour: int)
    returns (r: Result<seq<Album>>)
    modifies albums
    ensures r == Feed(InputOf(subscriptions, ratings, history, old(albums[..]), now, currentHour), content)
    ensures r.Err? ==> albums[..] == old(albums[..])
    ensures r.Ok? ==> albums[..] == Rescored(old(albums[..]),
      SpecScore(InputOf(subscriptions, ratings, history, old(albums[..]), now, currentHour), TracksOf(content, old(albums[..]))))
  {
    var input := InputOf(subscriptions, ratings, history, albums[..], now, currentHour);
    var tracksOf := TracksOf(content, albums[..]);
    var signals := BuildSignals(input, tracksOf);
    if signals.Err? {
      return Err("name 'album_song_ratings' is not defined");
    }
    var table := signals.value;
    var scoreOf := (a: Album) => Score(Lookup(table, currentHour, a));
    ghost var specScore := SpecScore(input, tracksOf);
    assert forall a :: scoreOf(a) == specScore(a);
    ScoreTableAgrees(input.albums, scoreOf, specScore);
    var albumScores := ScoreAlbums(albums, scoreOf);
    assert albums[..] == Rescored(input.albums, specScore);
    var ranked := Ranking.SortedDesc(albums[..], SortKey(albumScores));
    r := Ok(Ranking.Apply(ranked, ConvertAlbum));
  }

  /** The scoring loop: writes each album's score into it and records it in `album_scores`. */
  method ScoreAlbums(albums: array<Album>, scoreOf: Album -> real) returns (albumScores: map<string, real>)
    modifies albums
    ensures albums[..] == Rescored(old(albums[..]), scoreOf)
    ensures albumScores == ScoreTable(old(albums[..]), scoreOf)
  {
    ghost var catalogue := albums[..];
    albumScores := map[];
    var i := 0;
    while i < albums.Length
      invariant 0 <= i <= albums.Length
      invariant albums[..] == Rescored(catalogue[..i], scoreOf) + catalogue[i..]
      invariant albumScores == ScoreTable(catalogue[..i], scoreOf)
    {
      var album := albums[i];
      RescoreStep(catalogue, scoreOf, i);
      var score := scoreOf(album);
      albums[i] := album.(score := score);
      albumScores := albumScores[album.albumId := score];
      i := i + 1;
    }
    assert catalogue[..i] == catalogue;
  }

  lemma RescoreStep(catalogue: seq<Album>, scoreOf: Album -> real, i: int)
    requires 0 <= i < |catalogue|
    ensures (Rescored(catalogue[..i], scoreOf) + catalogue[i..])[i] == catalogue[i]
    ensures Rescored(catalogue[..i + 1], scoreOf) + catalogue[i + 1..]
         == (Rescored(catalogue[..i], scoreOf) + catalogue[i..])[i := catalogue[i].(score := scoreOf(catalogue[i]))]
    ensures ScoreTable(catalogue[..i + 1], scoreOf)
         == ScoreTable(catalogue[..i], scoreOf)[catalogue[i].albumId := scoreOf(catalogue[i])]
  {
    assert catalogue[..i + 1][..i] == catalogue[..i];
  }

  // ---------------------------------------------------------------------
  // Properties of the feed
  // ---------------------------------------------------------------------

  /**
   * The feed is the scored catalogue, converted, rearranged into
   * non-increasing order of `album_scores`, with albums of equal score in
   * catalogue order.
   */
  lemma FeedRanksByScore(input: FeedInput, content: seq<Track>)
    requires input.albums != []
    ensures var scoreOf := SpecScore(input, TracksOf(content, input.albums));
            var key := SortKey(ScoreTable(input.albums, scoreOf));
            var scored := Ranking.Apply(Rescored(input.albums, scoreOf), ConvertAlbum);
            var feed := Feed(input, content).value;
            && multiset(feed) == multiset(scored)
            && Ranking.NonIncreasing(feed, key)
            && forall v :: Ranking.WithKey(feed, key, v) == Ranking.WithKey(scored, key, v)
  {
    var scoreOf := SpecScore(input, TracksOf(content, input.albums));
    var key := SortKey(ScoreTable(input.albums, scoreOf));
    Ranking.SortApply(Rescored(input.albums, scoreOf), key, ConvertAlbum, key);
  }

  /** With distinct ids, each rescored album's key is the score written into it. */
  lemma RescoredKeys(albums: seq<Album>, scoreOf: Album -> real)
    requires DistinctIds(albums)
    ensures var scored := Ranking.Apply(Rescored(albums, scoreOf), ConvertAlbum);
            forall x :: x in multiset(scored) ==> SortKey(ScoreTable(albums, scoreOf))(x) == x.score
  {
    var scored := Ranking.Apply(Rescored(albums, scoreOf), ConvertAlbum);
    forall x | x in multiset(scored) ensures SortKey(ScoreTable(albums, scoreOf))(x) == x.score {
      var j :| 0 <= j < |scored| && scored[j] == x;
      TableHoldsOwnScore(albums, scoreOf, j);
    }
  }

  /**
   * With distinct album ids, every album of the feed carries in `stats.score`
   * the very number it was ranked by, so the feed is non-increasing in the
   * written scores.
   */
  lemma WrittenScoreIsSortKey(input: FeedInput, content: seq<Track>)
    requires input.albums != [] && DistinctIds(input.albums)
    ensures var feed := Feed(input, content).value;
            forall i :: 0 <= i < |feed| ==>
              SortKey(ScoreTable(input.albums, SpecScore(input, TracksOf(content, input.albums))))(feed[i]) == feed[i].score
  {
    var scoreOf := SpecScore(input, TracksOf(content, input.albums));
    FeedRanksByScore(input, content);
    RescoredKeys(input.albums, scoreOf);
    KeysCarried(Feed(input, content).value, Ranking.Apply(Rescored(input.albums, scoreOf), ConvertAlbum),
                SortKey(ScoreTable(input.albums, scoreOf)));
  }

  /** A rearrangement of albums whose keys are their scores has the same property. */
  lemma KeysCarried(feed: seq<Album>, scored: seq<Album>, key: Album -> real)
    requires multiset(feed) == multiset(scored)
    requires forall x :: x in multiset(scored) ==> key(x) == x.score
    ensures forall i :: 0 <= i < |feed| ==> key(feed[i]) == feed[i].score
  {
    assert forall i :: 0 <= i < |feed| ==> feed[i] in multiset(feed);
  }

  /** When every album scores 0, ranking keeps the rescored catalogue as it is. */
  lemma TiedRanking(albums: seq<Album>, scoreOf: Album -> real)
    requires forall i :: 0 <= i < |albums| ==> scoreOf(albums[i]) == 0.0
    ensures Ranking.SortedDesc(Rescored(albums, scoreOf), SortKey(ScoreTable(albums, scoreOf))) == Rescored(albums, scoreOf)
  {
    var rescored := Rescored(albums, scoreOf);
    var key := SortKey(ScoreTable(albums, scoreOf));
    ScoreTableTied(albums, scoreOf, 0.0);
    forall i | 0 <= i < |rescored| ensures key(rescored[i]) == 0.0 {
    }
    Ranking.AllTiedKeepsOrder(rescored, key, 0.0);
  }

  /**
   * With no subscriptions, ratings or history, every album scores 0 and the
   * feed is the catalogue in its own order.
   */
  lemma NoSignalsKeepsCatalogue(input: FeedInput, content: seq<Track>)
    requires input.albums != []
    requires input.subscriptions == [] && input.ratings == [] && input.history == []
    ensures var feed := Feed(input, content).value;
            && |feed| == |input.albums|
            && forall i :: 0 <= i < |feed| ==> feed[i] == ConvertAlbum(input.albums[i].(score := 0.0))
  {
    var tracksOf := TracksOf(content, input.albums);
    var scoreOf := SpecScore(input, tracksOf);
    forall i | 0 <= i < |input.albums| ensures scoreOf(input.albums[i]) == 0.0 {
      NoSignalsZeroScore(input, tracksOf, input.albums[i]);
    }
    TiedRanking(input.albums, scoreOf);
  }

  /** Scores are not floored: an album of a genre rated 1 on average scores -40. */
  lemma LowRatedGenreScoresNegative()
    ensures Score(AlbumSignals(0, None, Some(1.0), None, 0, 0, 0, 0, None)) == -40.0
  {
  }
}
