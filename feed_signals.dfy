/**
 * The signals both feed handlers compute before they rank albums: the
 * subscription boost, the song ratings and the rating averages per genre and
 * artist, and the play counters taken from the listening history.  Each
 * accumulator the handlers fill in a loop is built here by a method proved
 * against a specification function; the per-album score is defined once, on
 * the numbers an album reads from those accumulators.
 */
module FeedSignals {
  import opened Wrappers
  import opened Json
  import Text

  // ---------------------------------------------------------------------
  // Inputs
  // ---------------------------------------------------------------------

  /** A subscription as the collector returns it; `artistId` is `sub.get('artistId')`. */
  datatype Subscription = Subscription(subscriptionType: string, targetName: string, artistId: Option<string>)

  /** A song rating; `stars` is `int(rating['stars'])`. */
  datatype Rating = Rating(songId: string, stars: int)

  /** A history entry: its genre and artist, its timestamp in microseconds, and the hour of day of that timestamp. */
  datatype Play = Play(genre: string, artist: string, instant: int, hour: int)

  /** A content item: `item.get('contentId')` and `item.get('albumId')`. */
  datatype Track = Track(contentId: Option<string>, albumId: Option<string>)

  /**
   * An album record: the three keys the scorer reads, `stats.score`, and
   * every other field.  `score` stands for `stats.score`: writing the score
   * sets `score` and leaves the copy of `stats` inside `details` as read.
   */
  datatype Album = Album(albumId: string, artistId: string, genre: string, score: real, details: Value)

  datatype FeedInput = FeedInput(
    subscriptions: seq<Subscription>,
    ratings: seq<Rating>,
    history: seq<Play>,
    albums: seq<Album>,
    now: int,
    currentHour: int)

  const ArtistBoost := 50
  const GenreBoost := 30
  const MicrosPerDay := 24 * 60 * 60 * 1000000
  /** `timedelta(days=30)`. */
  const RecentWindow := 30 * MicrosPerDay

  /** `d.get(k, 0)` on a dict or Counter of numbers. */
  function Count(m: map<string, int>, k: string): int
  {
    if k in m then m[k] else 0
  }

  /** `d.get(k, [])` on a dict of lists. */
  function Stars(m: map<string, seq<int>>, k: string): seq<int>
  {
    if k in m then m[k] else []
  }

  // ---------------------------------------------------------------------
  // Subscription boost
  // ---------------------------------------------------------------------

  predicate ArtistMatch(sub: Subscription, album: Album) {
    sub.subscriptionType == "ARTIST" && sub.artistId == Some(album.artistId)
  }

  predicate GenreMatch(sub: Subscription, album: Album) {
    sub.subscriptionType == "GENRE" && Text.Lower(album.genre) == Text.Lower(sub.targetName)
  }

  /** What one subscription adds to one album. */
  function Weight(sub: Subscription, album: Album): nat
  {
    if ArtistMatch(sub, album) then ArtistBoost
    else if GenreMatch(sub, album) then GenreBoost
    else 0
  }

  /** What `sub` adds to the boost of id `id`, summed over the albums carrying that id. */
  function AlbumsWeight(sub: Subscription, albums: seq<Album>, id: string): nat
  {
    if albums == [] then 0
    else
      var a := albums[|albums| - 1];
      AlbumsWeight(sub, albums[..|albums| - 1], id) + (if a.albumId == id then Weight(sub, a) else 0)
  }

  /** The boost of id `id`: the weight of every (subscription, album) pair on that id. */
  function TotalBoost(subs: seq<Subscription>, albums: seq<Album>, id: string): nat
  {
    if subs == [] then 0
    else TotalBoost(subs[..|subs| - 1], albums, id) + AlbumsWeight(subs[|subs| - 1], albums, id)
  }

  /** Number of ARTIST subscriptions whose `artistId` is the album's. */
  function ArtistSubscriptions(subs: seq<Subscription>, album: Album): nat
  {
    if subs == [] then 0
    else ArtistSubscriptions(subs[..|subs| - 1], album) + (if ArtistMatch(subs[|subs| - 1], album) then 1 else 0)
  }

  /** Number of GENRE subscriptions whose target equals the album's genre, ignoring case. */
  function GenreSubscriptions(subs: seq<Subscription>, album: Album): nat
  {
    if subs == [] then 0
    else GenreSubscriptions(subs[..|subs| - 1], album) + (if GenreMatch(subs[|subs| - 1], album) then 1 else 0)
  }

  /** The subscription loop: for each subscription, every matching album's id gains its weight. */
  method BuildSubscriptionBoost(subs: seq<Subscription>, albums: seq<Album>) returns (boost: map<string, int>)
    ensures forall id :: Count(boost, id) == TotalBoost(subs, albums, id)
  {
    boost := map[];
    var i := 0;
    while i < |subs|
      invariant 0 <= i <= |subs|
      invariant forall id :: Count(boost, id) == TotalBoost(subs[..i], albums, id)
    {
      boost := AddSubscription(boost, subs[i], albums);
      assert subs[..i + 1][..i] == subs[..i];
      i := i + 1;
    }
    assert subs[..i] == subs;
  }

  method AddSubscription(boost: map<string, int>, sub: Subscription, albums: seq<Album>) returns (boost': map<string, int>)
    ensures forall id :: Count(boost', id) == Count(boost, id) + AlbumsWeight(sub, albums, id)
  {
    boost' := boost;
    if sub.subscriptionType == "ARTIST" || sub.subscriptionType == "GENRE" {
      var j := 0;
      assert albums[..0] == [];
      while j < |albums|
        invariant 0 <= j <= |albums|
        invariant forall id :: Count(boost', id) == Count(boost, id) + AlbumsWeight(sub, albums[..j], id)
      {
        boost' := AddAlbumWeight(boost, sub, albums, j, boost');
        j := j + 1;
      }
      assert albums[..j] == albums;
    } else {
      NoWeight(sub, albums);
    }
  }

  /**
   * One pass of the inner loop: album `j` gains the artist boost when the
   * subscription follows its artist, or the genre boost when it follows its
   * genre (compared lower-cased).
   */
  method AddAlbumWeight(boost: map<string, int>, sub: Subscription, albums: seq<Album>, j: nat, acc: map<string, int>)
    returns (acc': map<string, int>)
    requires j < |albums|
    requires forall id :: Count(acc, id) == Count(boost, id) + AlbumsWeight(sub, albums[..j], id)
    ensures forall id :: Count(acc', id) == Count(boost, id) + AlbumsWeight(sub, albums[..j + 1], id)
  {
    var album := albums[j];
    assert albums[..j + 1][..j] == albums[..j];
    acc' := acc;
    if sub.subscriptionType == "ARTIST" {
      if Some(album.artistId) == sub.artistId {
        acc' := acc[album.albumId := Count(acc, album.albumId) + ArtistBoost];
      }
    } else if sub.subscriptionType == "GENRE" {
      if Text.Lower(album.genre) == Text.Lower(sub.targetName) {
        acc' := acc[album.albumId := Count(acc, album.albumId) + GenreBoost];
      }
    }
  }

  lemma {:induction false} NoWeight(sub: Subscription, albums: seq<Album>)
    requires sub.subscriptionType != "ARTIST" && sub.subscriptionType != "GENRE"
    ensures forall id :: AlbumsWeight(sub, albums, id) == 0
    decreases |albums|
  {
    if albums != [] {
      NoWeight(sub, albums[..|albums| - 1]);
    }
  }

  /** With every album id distinct, an album's boost is 50 per matching ARTIST and 30 per matching GENRE subscription, without a cap. */
  lemma {:induction false} BoostCounts(subs: seq<Subscription>, albums: seq<Album>, k: nat)
    requires k < |albums|
    requires forall j :: 0 <= j < |albums| && j != k ==> albums[j].albumId != albums[k].albumId
    ensures TotalBoost(subs, albums, albums[k].albumId)
            == ArtistBoost * ArtistSubscriptions(subs, albums[k]) + GenreBoost * GenreSubscriptions(subs, albums[k])
    decreases |subs|
  {
    if subs != [] {
      BoostCounts(subs[..|subs| - 1], albums, k);
      AlbumsWeightUnique(subs[|subs| - 1], albums, k);
    }
  }

  lemma {:induction false} AlbumsWeightUnique(sub: Subscription, albums: seq<Album>, k: nat)
    requires k < |albums|
    requires forall j :: 0 <= j < |albums| && j != k ==> albums[j].albumId != albums[k].albumId
    ensures AlbumsWeight(sub, albums, albums[k].albumId) == Weight(sub, albums[k])
    decreases |albums|
  {
    var init := albums[..|albums| - 1];
    if k == |albums| - 1 {
      AlbumsWeightAbsent(sub, init, albums[k].albumId);
    } else {
      assert albums[k] == init[k];
      AlbumsWeightUnique(sub, init, k);
    }
  }

  lemma {:induction false} AlbumsWeightAbsent(sub: Subscription, albums: seq<Album>, id: string)
    requires forall j :: 0 <= j < |albums| ==> albums[j].albumId != id
    ensures AlbumsWeight(sub, albums, id) == 0
    decreases |albums|
  {
    if albums != [] {
      AlbumsWeightAbsent(sub, albums[..|albums| - 1], id);
    }
  }

  /**
   * The subscription collector emits `targetId` and never `artistId`, so
   * with its output no ARTIST subscription matches any album; an album
   * here always has a string `artistId`.
   */
  lemma {:induction false} CollectedSubscriptionsNeverMatchArtist(subs: seq<Subscription>, album: Album)
    requires forall i :: 0 <= i < |subs| ==> subs[i].artistId == None
    ensures ArtistSubscriptions(subs, album) == 0
    decreases |subs|
  {
    if subs != [] {
      CollectedSubscriptionsNeverMatchArtist(subs[..|subs| - 1], album);
    }
  }

  // ---------------------------------------------------------------------
  // Ratings
  // ---------------------------------------------------------------------

  /** `{r['songId']: int(r['stars']) for r in ratings}`: one entry per rated song. */
  function SongRatings(ratings: seq<Rating>): (m: map<string, int>)
    ensures forall id :: id in m <==> exists i :: 0 <= i < |ratings| && ratings[i].songId == id
  {
    if ratings == [] then map[]
    else
      var init := ratings[..|ratings| - 1];
      var m := SongRatings(init);
      assert forall i :: 0 <= i < |init| ==> init[i] == ratings[i];
      m[ratings[|ratings| - 1].songId := ratings[|ratings| - 1].stars]
  }

  /** A later rating of the same song replaces an earlier one. */
  lemma {:induction false} SongRatingsLastWins(ratings: seq<Rating>, i: nat)
    requires i < |ratings|
    requires forall j :: i < j < |ratings| ==> ratings[j].songId != ratings[i].songId
    ensures SongRatings(ratings)[ratings[i].songId] == ratings[i].stars
    decreases |ratings|
  {
    if i < |ratings| - 1 {
      var init := ratings[..|ratings| - 1];
      assert init[i] == ratings[i];
      SongRatingsLastWins(init, i);
    }
  }

  /** The stars of the rated tracks among `tracks`, in track order. */
  function RatedStars(songRatings: map<string, int>, tracks: seq<Track>): seq<int>
  {
    if tracks == [] then []
    else
      var t := tracks[|tracks| - 1];
      RatedStars(songRatings, tracks[..|tracks| - 1])
      + (if t.contentId.Some? && t.contentId.value in songRatings then [songRatings[t.contentId.value]] else [])
  }

  /**
   * `genre_affinity` after the album loop: for each album in turn, the stars
   * of its rated tracks are appended to the list of its genre.
   * `tracksOf[i]` are the tracks of `albums[i]`.
   */
  function GenreAffinity(albums: seq<Album>, tracksOf: seq<seq<Track>>, songRatings: map<string, int>): (m: map<string, seq<int>>)
    requires |tracksOf| == |albums|
    ensures NoEmptyLists(m)
  {
    if albums == [] then map[]
    else
      var n := |albums| - 1;
      var m := GenreAffinity(albums[..n], tracksOf[..n], songRatings);
      ExtendByKeepsNonEmpty(m, albums[n].genre, RatedStars(songRatings, tracksOf[n]));
      ExtendBy(m, albums[n].genre, RatedStars(songRatings, tracksOf[n]))
  }

  /** `artist_affinity` after the album loop, keyed by artist id. */
  function ArtistAffinity(albums: seq<Album>, tracksOf: seq<seq<Track>>, songRatings: map<string, int>): (m: map<string, seq<int>>)
    requires |tracksOf| == |albums|
    ensures NoEmptyLists(m)
  {
    if albums == [] then map[]
    else
      var n := |albums| - 1;
      var m := ArtistAffinity(albums[..n], tracksOf[..n], songRatings);
      ExtendByKeepsNonEmpty(m, albums[n].artistId, RatedStars(songRatings, tracksOf[n]));
      ExtendBy(m, albums[n].artistId, RatedStars(songRatings, tracksOf[n]))
  }

  function Sum(s: seq<int>): int
  {
    if s == [] then 0 else Sum(s[..|s| - 1]) + s[|s| - 1]
  }

  function Min(s: seq<int>): int
    requires s != []
  {
    if |s| == 1 then s[0] else var m := Min(s[..|s| - 1]); if s[|s| - 1] < m then s[|s| - 1] else m
  }

  function Max(s: seq<int>): int
    requires s != []
  {
    if |s| == 1 then s[0] else var m := Max(s[..|s| - 1]); if s[|s| - 1] > m then s[|s| - 1] else m
  }

  lemma {:induction false} MinBelow(s: seq<int>, i: nat)
    requires i < |s|
    ensures Min(s) <= s[i] <= Max(s)
    decreases |s|
  {
    if |s| > 1 && i < |s| - 1 {
      MinBelow(s[..|s| - 1], i);
    }
  }

  lemma {:induction false} SumAtLeast(s: seq<int>, m: int)
    requires forall i :: 0 <= i < |s| ==> m <= s[i]
    ensures (|s| as real) * (m as real) <= Sum(s) as real
    decreases |s|
  {
    if s != [] {
      var n := |s| - 1;
      SumAtLeast(s[..n], m);
      assert (|s| as real) * (m as real) == (n as real) * (m as real) + m as real;
    }
  }

  lemma {:induction false} SumAtMost(s: seq<int>, m: int)
    requires forall i :: 0 <= i < |s| ==> s[i] <= m
    ensures Sum(s) as real <= (|s| as real) * (m as real)
    decreases |s|
  {
    if s != [] {
      var n := |s| - 1;
      SumAtMost(s[..n], m);
      assert (|s| as real) * (m as real) == (n as real) * (m as real) + m as real;
    }
  }

  lemma DivBetween(a: real, n: real, lo: real, hi: real)
    requires n > 0.0 && n * lo <= a <= n * hi
    ensures lo <= a / n <= hi
  {
    assert a / n - lo == (a - n * lo) / n;
    assert hi - a / n == (n * hi - a) / n;
  }

  lemma MeanBetween(s: seq<int>)
    requires s != []
    ensures Min(s) as real <= Sum(s) as real / |s| as real <= Max(s) as real
  {
    var lo, hi := Min(s), Max(s);
    WithinBounds(s);
    SumAtLeast(s, lo);
    SumAtMost(s, hi);
    DivBetween(Sum(s) as real, |s| as real, lo as real, hi as real);
  }

  lemma WithinBounds(s: seq<int>)
    requires s != []
    ensures forall i :: 0 <= i < |s| ==> Min(s) <= s[i] <= Max(s)
  {
    forall i | 0 <= i < |s| ensures Min(s) <= s[i] <= Max(s) {
      MinBelow(s, i);
    }
  }

  /** `sum(s) / len(s)`: the mean, which lies between the smallest and the largest value. */
  function Mean(s: seq<int>): (r: real)
    requires s != []
    ensures Min(s) as real <= r <= Max(s) as real
  {
    MeanBetween(s);
    Sum(s) as real / |s| as real
  }

  function Average(s: seq<int>): Option<real>
  {
    if s == [] then None else Some(Mean(s))
  }

  /**
   * The album loop: for every album and every one of its tracks that has a
   * rating, the stars go to the album's genre list and artist list.  The
   * last result is `album_song_ratings` after the loop, which exists only
   * when there was at least one album.
   */
  method BuildAffinity(albums: seq<Album>, tracksOf: seq<seq<Track>>, songRatings: map<string, int>)
    returns (genreAffinity: map<string, seq<int>>, artistAffinity: map<string, seq<int>>, lastAlbumStars: Option<seq<int>>)
    requires |tracksOf| == |albums|
    ensures genreAffinity == GenreAffinity(albums, tracksOf, songRatings)
    ensures artistAffinity == ArtistAffinity(albums, tracksOf, songRatings)
    ensures albums == [] ==> lastAlbumStars.None?
    ensures albums != [] ==> lastAlbumStars == Some(RatedStars(songRatings, tracksOf[|albums| - 1]))
  {
    genreAffinity, artistAffinity, lastAlbumStars := map[], map[], None;
    AffinityNone(albums, tracksOf, songRatings);
    var i := 0;
    while i < |albums|
      invariant 0 <= i <= |albums|
      invariant genreAffinity == GenreAffinity(albums[..i], tracksOf[..i], songRatings)
      invariant artistAffinity == ArtistAffinity(albums[..i], tracksOf[..i], songRatings)
      invariant i == 0 ==> lastAlbumStars.None?
      invariant i > 0 ==> lastAlbumStars == Some(RatedStars(songRatings, tracksOf[i - 1]))
    {
      var albumSongRatings;
      genreAffinity, artistAffinity, albumSongRatings := AddAlbumAt(albums, tracksOf, songRatings, i, genreAffinity, artistAffinity);
      lastAlbumStars := Some(albumSongRatings);
      i := i + 1;
    }
    AffinityWhole(albums, tracksOf, songRatings);
  }

  /** The album loop's body for album `i`, on accumulators that hold the affinities of the albums before it. */
  method AddAlbumAt(albums: seq<Album>, tracksOf: seq<seq<Track>>, songRatings: map<string, int>, i: nat,
                    g: map<string, seq<int>>, a: map<string, seq<int>>)
    returns (g': map<string, seq<int>>, a': map<string, seq<int>>, stars: seq<int>)
    requires |tracksOf| == |albums| && i < |albums|
    requires g == GenreAffinity(albums[..i], tracksOf[..i], songRatings)
    requires a == ArtistAffinity(albums[..i], tracksOf[..i], songRatings)
    ensures stars == RatedStars(songRatings, tracksOf[i])
    ensures g' == GenreAffinity(albums[..i + 1], tracksOf[..i + 1], songRatings)
    ensures a' == ArtistAffinity(albums[..i + 1], tracksOf[..i + 1], songRatings)
  {
    g', a', stars := AddAlbum(g, a, albums[i], tracksOf[i], songRatings);
    AffinityStep(albums, tracksOf, songRatings, i);
  }

  lemma AffinityNone(albums: seq<Album>, tracksOf: seq<seq<Track>>, songRatings: map<string, int>)
    requires |tracksOf| == |albums|
    ensures GenreAffinity(albums[..0], tracksOf[..0], songRatings) == map[]
    ensures ArtistAffinity(albums[..0], tracksOf[..0], songRatings) == map[]
  {
    assert albums[..0] == [];
  }

  lemma AffinityWhole(albums: seq<Album>, tracksOf: seq<seq<Track>>, songRatings: map<string, int>)
    requires |tracksOf| == |albums|
    ensures GenreAffinity(albums[..|albums|], tracksOf[..|albums|], songRatings) == GenreAffinity(albums, tracksOf, songRatings)
    ensures ArtistAffinity(albums[..|albums|], tracksOf[..|albums|], songRatings) == ArtistAffinity(albums, tracksOf, songRatings)
  {
    assert albums[..|albums|] == albums;
    assert tracksOf[..|albums|] == tracksOf;
  }

  lemma AffinityStep(albums: seq<Album>, tracksOf: seq<seq<Track>>, songRatings: map<string, int>, i: nat)
    requires |tracksOf| == |albums| && i < |albums|
    ensures GenreAffinity(albums[..i + 1], tracksOf[..i + 1], songRatings)
      == ExtendBy(GenreAffinity(albums[..i], tracksOf[..i], songRatings), albums[i].genre, RatedStars(songRatings, tracksOf[i]))
    ensures ArtistAffinity(albums[..i + 1], tracksOf[..i + 1], songRatings)
      == ExtendBy(ArtistAffinity(albums[..i], tracksOf[..i], songRatings), albums[i].artistId, RatedStars(songRatings, tracksOf[i]))
  {
    assert albums[..i + 1][..i] == albums[..i];
    assert tracksOf[..i + 1][..i] == tracksOf[..i];
  }

  /** `m` after appending each of `done` to the list under `k`. */
  function ExtendBy(m: map<string, seq<int>>, k: string, done: seq<int>): (r: map<string, seq<int>>)
    ensures forall g :: Stars(r, g) == Stars(m, g) + (if g == k then done else [])
  {
    if done == [] then m else m[k := Stars(m, k) + done]
  }

  /** Every list in `m` holds at least one rating (a `defaultdict` key appears on the first append). */
  ghost predicate NoEmptyLists(m: map<string, seq<int>>) {
    forall g :: g in m ==> m[g] != []
  }

  lemma ExtendByKeepsNonEmpty(m: map<string, seq<int>>, k: string, done: seq<int>)
    requires NoEmptyLists(m)
    ensures NoEmptyLists(ExtendBy(m, k, done))
  {
  }

  /** One pass of the album loop: the rated tracks of `album` extend its genre and artist lists. */
  method AddAlbum(genreAffinity: map<string, seq<int>>, artistAffinity: map<string, seq<int>>,
                  album: Album, tracks: seq<Track>, songRatings: map<string, int>)
    returns (genreAffinity': map<string, seq<int>>, artistAffinity': map<string, seq<int>>, albumSongRatings: seq<int>)
    ensures albumSongRatings == RatedStars(songRatings, tracks)
    ensures genreAffinity' == ExtendBy(genreAffinity, album.genre, albumSongRatings)
    ensures artistAffinity' == ExtendBy(artistAffinity, album.artistId, albumSongRatings)
  {
    genreAffinity', artistAffinity', albumSongRatings := genreAffinity, artistAffinity, [];
    var j := 0;
    while j < |tracks|
      invariant 0 <= j <= |tracks|
      invariant albumSongRatings == RatedStars(songRatings, tracks[..j])
      invariant genreAffinity' == ExtendBy(genreAffinity, album.genre, albumSongRatings)
      invariant artistAffinity' == ExtendBy(artistAffinity, album.artistId, albumSongRatings)
    {
      var song := tracks[j];
      assert tracks[..j + 1][..j] == tracks[..j];
      if song.contentId.Some? && song.contentId.value in songRatings {
        var rating := songRatings[song.contentId.value];
        genreAffinity' := genreAffinity'[album.genre := Stars(genreAffinity', album.genre) + [rating]];
        artistAffinity' := artistAffinity'[album.artistId := Stars(artistAffinity', album.artistId) + [rating]];
        ExtendOne(genreAffinity, album.genre, albumSongRatings, rating);
        ExtendOne(artistAffinity, album.artistId, albumSongRatings, rating);
        albumSongRatings := albumSongRatings + [rating];
      }
      j := j + 1;
    }
    assert tracks[..j] == tracks;
  }

  lemma ExtendOne(m: map<string, seq<int>>, k: string, done: seq<int>, x: int)
    ensures ExtendBy(m, k, done + [x]) == ExtendBy(m, k, done)[k := Stars(ExtendBy(m, k, done), k) + [x]]
  {
    if done == [] {
      assert done + [x] == [x];
    } else {
      assert Stars(m, k) + (done + [x]) == Stars(m, k) + done + [x];
    }
  }

  /** The averaging loops: one mean per key that collected at least one rating. */
  method Averages(affinity: map<string, seq<int>>) returns (avg: map<string, real>)
    requires forall k :: k in affinity ==> affinity[k] != []
    ensures avg.Keys == affinity.Keys
    ensures forall k :: k in avg ==> avg[k] == Mean(affinity[k])
  {
    avg := map[];
    var todo := affinity.Keys;
    while todo != {}
      invariant todo <= affinity.Keys
      invariant avg.Keys == affinity.Keys - todo
      invariant forall k :: k in avg ==> avg[k] == Mean(affinity[k])
      decreases |todo|
    {
      var k :| k in todo;
      avg := avg[k := Mean(affinity[k])];
      todo := todo - {k};
    }
  }

  // ---------------------------------------------------------------------
  // Listening history
  // ---------------------------------------------------------------------

  /** The five counters of the history loop; `hourly[h][g]` counts plays of genre `g` at hour `h`. */
  datatype Counters = Counters(
    genre: map<string, int>,
    artist: map<string, int>,
    recentGenre: map<string, int>,
    recentArtist: map<string, int>,
    hourly: map<int, map<string, int>>)

  /** `timestamp >= now - timedelta(days=30)`. */
  predicate IsRecent(p: Play, now: int) {
    p.instant >= now - RecentWindow
  }

  /** `counter[k] += step`. */
  function Bump(m: map<string, int>, k: string, step: int): map<string, int>
  {
    m[k := Count(m, k) + step]
  }

  /** `hourly[h][g] += 1` on a `defaultdict(Counter)`. */
  function BumpHour(hourly: map<int, map<string, int>>, h: int, g: string): map<int, map<string, int>>
  {
    hourly[h := Bump(if h in hourly then hourly[h] else map[], g, 1)]
  }

  /** What one history entry adds to the counters. */
  function Record(c: Counters, e: Play, now: int): Counters
  {
    Counters(
      Bump(c.genre, e.genre, 1),
      Bump(c.artist, e.artist, 1),
      if IsRecent(e, now) then Bump(c.recentGenre, e.genre, 2) else c.recentGenre,
      if IsRecent(e, now) then Bump(c.recentArtist, e.artist, 2) else c.recentArtist,
      BumpHour(c.hourly, e.hour, e.genre))
  }

  /** The counters after the history loop has seen every entry of `history`. */
  function Tally(history: seq<Play>, now: int): Counters
  {
    if history == [] then Counters(map[], map[], map[], map[], map[])
    else Record(Tally(history[..|history| - 1], now), history[|history| - 1], now)
  }

  /** The history loop. */
  method BuildPlayCounters(history: seq<Play>, now: int) returns (c: Counters)
    ensures c == Tally(history, now)
  {
    c := Counters(map[], map[], map[], map[], map[]);
    var i := 0;
    while i < |history|
      invariant 0 <= i <= |history|
      invariant c == Tally(history[..i], now)
    {
      c := RecordPlay(c, history[i], now);
      assert history[..i + 1][..i] == history[..i];
      i := i + 1;
    }
    assert history[..i] == history;
  }

  /** The body of the history loop. */
  method RecordPlay(c: Counters, entry: Play, now: int) returns (c': Counters)
    ensures c' == Record(c, entry, now)
  {
    var genreFrequency, artistFrequency := c.genre, c.artist;
    var recentGenreFrequency, recentArtistFrequency := c.recentGenre, c.recentArtist;
    genreFrequency := genreFrequency[entry.genre := Count(genreFrequency, entry.genre) + 1];
    artistFrequency := artistFrequency[entry.artist := Count(artistFrequency, entry.artist) + 1];
    if entry.instant >= now - RecentWindow {
      recentGenreFrequency := recentGenreFrequency[entry.genre := Count(recentGenreFrequency, entry.genre) + 2];
      recentArtistFrequency := recentArtistFrequency[entry.artist := Count(recentArtistFrequency, entry.artist) + 2];
    }
    var atHour := if entry.hour in c.hourly then c.hourly[entry.hour] else map[];
    var hourly := c.hourly[entry.hour := atHour[entry.genre := Count(atHour, entry.genre) + 1]];
    c' := Counters(genreFrequency, artistFrequency, recentGenreFrequency, recentArtistFrequency, hourly);
  }

  /** Number of entries of genre `g`. */
  function Plays(history: seq<Play>, g: string): nat
  {
    if history == [] then 0
    else Plays(history[..|history| - 1], g) + (if history[|history| - 1].genre == g then 1 else 0)
  }

  /** Number of entries of genre `g` within the last 30 days. */
  function RecentPlays(history: seq<Play>, now: int, g: string): nat
  {
    if history == [] then 0
    else
      var e := history[|history| - 1];
      RecentPlays(history[..|history| - 1], now, g) + (if e.genre == g && IsRecent(e, now) then 1 else 0)
  }

  /** Number of entries by artist `a`. */
  function ArtistPlays(history: seq<Play>, a: string): nat
  {
    if history == [] then 0
    else ArtistPlays(history[..|history| - 1], a) + (if history[|history| - 1].artist == a then 1 else 0)
  }

  /** Number of entries by artist `a` within the last 30 days. */
  function RecentArtistPlays(history: seq<Play>, now: int, a: string): nat
  {
    if history == [] then 0
    else
      var e := history[|history| - 1];
      RecentArtistPlays(history[..|history| - 1], now, a) + (if e.artist == a && IsRecent(e, now) then 1 else 0)
  }

  /** Number of entries of genre `g` played at hour `h`. */
  function HourPlays(history: seq<Play>, h: int, g: string): nat
  {
    if history == [] then 0
    else
      var e := history[|history| - 1];
      HourPlays(history[..|history| - 1], h, g) + (if e.hour == h && e.genre == g then 1 else 0)
  }

  /** `hourly.get(h, {})` and then the count of `g` in it, if present. */
  function HourEntry(hourly: map<int, map<string, int>>, h: int, g: string): Option<int>
  {
    if h in hourly && g in hourly[h] then Some(hourly[h][g]) else None
  }

  /** `genre_frequency[g]` is the number of plays of `g`. */
  lemma {:induction false} GenreCounterCounts(history: seq<Play>, now: int, g: string)
    ensures Count(Tally(history, now).genre, g) == Plays(history, g)
    decreases |history|
  {
    if history != [] {
      GenreCounterCounts(history[..|history| - 1], now, g);
    }
  }

  /** `artist_frequency[a]` is the number of plays of artist `a`. */
  lemma {:induction false} ArtistCounterCounts(history: seq<Play>, now: int, a: string)
    ensures Count(Tally(history, now).artist, a) == ArtistPlays(history, a)
    decreases |history|
  {
    if history != [] {
      ArtistCounterCounts(history[..|history| - 1], now, a);
    }
  }

  /** `recent_genre_frequency[g]` is twice the number of recent plays of `g`. */
  lemma {:induction false} RecentGenreCounterCounts(history: seq<Play>, now: int, g: string)
    ensures Count(Tally(history, now).recentGenre, g) == 2 * RecentPlays(history, now, g)
    decreases |history|
  {
    if history != [] {
      RecentGenreCounterCounts(history[..|history| - 1], now, g);
    }
  }

  /** `recent_artist_frequency[a]` is twice the number of recent plays of artist `a`. */
  lemma {:induction false} RecentArtistCounterCounts(history: seq<Play>, now: int, a: string)
    ensures Count(Tally(history, now).recentArtist, a) == 2 * RecentArtistPlays(history, now, a)
    decreases |history|
  {
    if history != [] {
      RecentArtistCounterCounts(history[..|history| - 1], now, a);
    }
  }

  /** `hourly[h]` holds `g` exactly when `g` was played at hour `h`, with the number of such plays. */
  lemma {:induction false} HourlyCounterCounts(history: seq<Play>, now: int, h: int, g: string)
    ensures HourPlays(history, h, g) == 0 ==> HourEntry(Tally(history, now).hourly, h, g) == None
    ensures HourPlays(history, h, g) > 0 ==> HourEntry(Tally(history, now).hourly, h, g) == Some(HourPlays(history, h, g))
    decreases |history|
  {
    if history != [] {
      HourlyCounterCounts(history[..|history| - 1], now, h, g);
    }
  }

  /** Recent plays count double, so the recent counter is at most twice the total. */
  lemma {:induction false} RecentAtMostAll(history: seq<Play>, now: int, g: string)
    ensures RecentPlays(history, now, g) <= Plays(history, g)
    decreases |history|
  {
    if history != [] {
      RecentAtMostAll(history[..|history| - 1], now, g);
    }
  }

  /** Plays of `g` summed over the hours `0 .. n-1`. */
  function HoursTotal(history: seq<Play>, g: string, n: nat): nat
  {
    if n == 0 then 0 else HoursTotal(history, g, n - 1) + HourPlays(history, n - 1, g)
  }

  lemma {:induction false} HoursTotalStep(history: seq<Play>, g: string, n: nat)
    requires history != []
    ensures HoursTotal(history, g, n) == HoursTotal(history[..|history| - 1], g, n)
      + (if history[|history| - 1].genre == g && 0 <= history[|history| - 1].hour < n then 1 else 0)
    decreases n
  {
    if n > 0 {
      HoursTotalStep(history, g, n - 1);
    }
  }

  lemma {:induction false} NoHistoryNoHours(history: seq<Play>, g: string, n: nat)
    requires history == []
    ensures HoursTotal(history, g, n) == 0
    decreases n
  {
    if n > 0 {
      NoHistoryNoHours(history, g, n - 1);
    }
  }

  /** Every play lands in one of the 24 hours, so the hourly counts of a genre add up to its total. */
  lemma {:induction false} HoursAddUp(history: seq<Play>, g: string)
    requires forall i :: 0 <= i < |history| ==> 0 <= history[i].hour < 24
    ensures HoursTotal(history, g, 24) == Plays(history, g)
    decreases |history|
  {
    if history != [] {
      var init := history[..|history| - 1];
      assert 0 <= history[|history| - 1].hour < 24;
      HoursTotalStep(history, g, 24);
      HoursAddUp(init, g);
      assert Plays(history, g) == Plays(init, g) + (if history[|history| - 1].genre == g then 1 else 0);
    } else {
      NoHistoryNoHours(history, g, 24);
    }
  }

  // ---------------------------------------------------------------------
  // Scoring
  // ---------------------------------------------------------------------

  /** The numbers the score of one album reads from the accumulators. */
  datatype AlbumSignals = AlbumSignals(
    boost: int,
    albumRating: Option<real>,
    genreRating: Option<real>,
    artistRating: Option<real>,
    genrePlays: int,
    recentGenrePlays: int,
    artistPlays: int,
    recentArtistPlays: int,
    hourPlays: Option<int>)

  /** The accumulators after the loops: the boost, `album_ratings`, the two averages and the counters. */
  datatype SignalTable = SignalTable(
    boost: map<string, int>,
    albumRatings: map<string, real>,
    genreAverages: map<string, real>,
    artistAverages: map<string, real>,
    counters: Counters)

  /** `d[k] if k in d`. */
  function Find(m: map<string, real>, k: string): Option<real>
  {
    if k in m then Some(m[k]) else None
  }

  /** What the scoring loop reads for `album`. */
  function Lookup(t: SignalTable, currentHour: int, album: Album): AlbumSignals
  {
    AlbumSignals(
      Count(t.boost, album.albumId),
      Find(t.albumRatings, album.albumId),
      Find(t.genreAverages, album.genre),
      Find(t.artistAverages, album.artistId),
      Count(t.counters.genre, album.genre),
      Count(t.counters.recentGenre, album.genre),
      Count(t.counters.artist, album.artistId),
      Count(t.counters.recentArtist, album.artistId),
      HourEntry(t.counters.hourly, currentHour, album.genre))
  }

  /**
   * `album_ratings`: only the album the loop variable names after the loop,
   * the last one, can be rated, with the mean of its rated tracks.
   */
  function AlbumRatingOf(input: FeedInput, tracksOf: seq<seq<Track>>, id: string): Option<real>
    requires |tracksOf| == |input.albums| && input.albums != []
  {
    var n := |input.albums| - 1;
    var stars := RatedStars(SongRatings(input.ratings), tracksOf[n]);
    if input.albums[n].albumId == id && stars != [] then Some(Mean(stars)) else None
  }

  /** The numbers `album` reads, stated from the inputs. */
  function SpecSignals(input: FeedInput, tracksOf: seq<seq<Track>>, album: Album): AlbumSignals
    requires |tracksOf| == |input.albums| && input.albums != []
  {
    var songRatings := SongRatings(input.ratings);
    var counters := Tally(input.history, input.now);
    AlbumSignals(
      TotalBoost(input.subscriptions, input.albums, album.albumId),
      AlbumRatingOf(input, tracksOf, album.albumId),
      Average(Stars(GenreAffinity(input.albums, tracksOf, songRatings), album.genre)),
      Average(Stars(ArtistAffinity(input.albums, tracksOf, songRatings), album.artistId)),
      Count(counters.genre, album.genre),
      Count(counters.recentGenre, album.genre),
      Count(counters.artist, album.artistId),
      Count(counters.recentArtist, album.artistId),
      HourEntry(counters.hourly, input.currentHour, album.genre))
  }

  /**
   * Everything before the scoring loop: the subscription, rating and
   * history loops.  With no albums the handler raises, because
   * `album_song_ratings` is read after a loop that never ran.
   */
  method BuildSignals(input: FeedInput, tracksOf: seq<seq<Track>>) returns (r: Result<SignalTable>)
    requires |tracksOf| == |input.albums|
    ensures r.Err? <==> input.albums == []
    ensures r.Ok? ==> forall a :: Lookup(r.value, input.currentHour, a) == SpecSignals(input, tracksOf, a)
  {
    var albums := input.albums;
    var boost := BuildSubscriptionBoost(input.subscriptions, albums);
    var songRatings := SongRatings(input.ratings);
    var genreAffinity, artistAffinity, lastAlbumStars := BuildAffinity(albums, tracksOf, songRatings);
    if lastAlbumStars.None? {
      return Err("name 'album_song_ratings' is not defined");
    }
    var albumRatings: map<string, real> := map[];
    if lastAlbumStars.value != [] {
      albumRatings := albumRatings[albums[|albums| - 1].albumId := Mean(lastAlbumStars.value)];
    }
    var genreAverages := Averages(genreAffinity);
    var artistAverages := Averages(artistAffinity);
    var counters := BuildPlayCounters(input.history, input.now);
    var t := SignalTable(boost, albumRatings, genreAverages, artistAverages, counters);
    forall a ensures Lookup(t, input.currentHour, a) == SpecSignals(input, tracksOf, a) {
      TableMatches(input, tracksOf, t, genreAffinity, artistAffinity, lastAlbumStars.value, a);
    }
    r := Ok(t);
  }

  /** The accumulators the loops leave give, for `a`, the numbers stated from the inputs. */
  lemma TableMatches(input: FeedInput, tracksOf: seq<seq<Track>>, t: SignalTable,
                     genreAffinity: map<string, seq<int>>, artistAffinity: map<string, seq<int>>, lastStars: seq<int>,
                     a: Album)
    requires |tracksOf| == |input.albums| && input.albums != []
    requires forall id :: Count(t.boost, id) == TotalBoost(input.subscriptions, input.albums, id)
    requires genreAffinity == GenreAffinity(input.albums, tracksOf, SongRatings(input.ratings))
    requires artistAffinity == ArtistAffinity(input.albums, tracksOf, SongRatings(input.ratings))
    requires lastStars == RatedStars(SongRatings(input.ratings), tracksOf[|input.albums| - 1])
    requires lastStars == [] ==> t.albumRatings == map[]
    requires lastStars != [] ==> t.albumRatings == map[input.albums[|input.albums| - 1].albumId := Mean(lastStars)]
    requires t.genreAverages.Keys == genreAffinity.Keys
    requires forall k :: k in t.genreAverages ==> t.genreAverages[k] == Mean(genreAffinity[k])
    requires t.artistAverages.Keys == artistAffinity.Keys
    requires forall k :: k in t.artistAverages ==> t.artistAverages[k] == Mean(artistAffinity[k])
    requires t.counters == Tally(input.history, input.now)
    ensures Lookup(t, input.currentHour, a) == SpecSignals(input, tracksOf, a)
  {
    AverageFound(genreAffinity, t.genreAverages, a.genre);
    AverageFound(artistAffinity, t.artistAverages, a.artistId);
    assert Count(t.boost, a.albumId) == TotalBoost(input.subscriptions, input.albums, a.albumId);
    AlbumRatingFound(input, tracksOf, t.albumRatings, lastStars, a.albumId);
    LookupMatches(input, tracksOf, t, a);
  }

  /** The album-ratings map holds the last album's average, when it has one, and nothing else. */
  lemma AlbumRatingFound(input: FeedInput, tracksOf: seq<seq<Track>>, albumRatings: map<string, real>,
                         lastStars: seq<int>, id: string)
    requires |tracksOf| == |input.albums| && input.albums != []
    requires lastStars == RatedStars(SongRatings(input.ratings), tracksOf[|input.albums| - 1])
    requires lastStars == [] ==> albumRatings == map[]
    requires lastStars != [] ==> albumRatings == map[input.albums[|input.albums| - 1].albumId := Mean(lastStars)]
    ensures Find(albumRatings, id) == AlbumRatingOf(input, tracksOf, id)
  {
  }

  /** Reading the averages map agrees with averaging the affinity list. */
  lemma AverageFound(affinity: map<string, seq<int>>, avg: map<string, real>, k: string)
    requires NoEmptyLists(affinity)
    requires avg.Keys == affinity.Keys
    requires forall j :: j in avg ==> avg[j] == Mean(affinity[j])
    ensures Find(avg, k) == Average(Stars(affinity, k))
  {
  }

  lemma LookupMatches(input: FeedInput, tracksOf: seq<seq<Track>>, t: SignalTable, a: Album)
    requires |tracksOf| == |input.albums| && input.albums != []
    requires Count(t.boost, a.albumId) == TotalBoost(input.subscriptions, input.albums, a.albumId)
    requires Find(t.albumRatings, a.albumId) == AlbumRatingOf(input, tracksOf, a.albumId)
    requires Find(t.genreAverages, a.genre)
      == Average(Stars(GenreAffinity(input.albums, tracksOf, SongRatings(input.ratings)), a.genre))
    requires Find(t.artistAverages, a.artistId)
      == Average(Stars(ArtistAffinity(input.albums, tracksOf, SongRatings(input.ratings)), a.artistId))
    requires t.counters == Tally(input.history, input.now)
    ensures Lookup(t, input.currentHour, a) == SpecSignals(input, tracksOf, a)
  {
  }

  function MinInt(a: int, b: int): int { if a < b then a else b }

  /** Rating of the album itself: 4 and above pushes the score up, 2 and below pushes it down. */
  function AlbumRatingTerm(rating: Option<real>): (r: real)
    ensures r > 0.0 <==> rating.Some? && rating.value >= 4.0
    ensures r < 0.0 <==> rating.Some? && rating.value <= 2.0
  {
    if rating.None? then 0.0
    else if rating.value >= 4.0 then (rating.value - 3.0) * 20.0
    else if rating.value <= 2.0 then -(3.0 - rating.value) * 15.0
    else 0.0
  }

  /** Average rating of the genre: 3.5 and above pushes up, 2.5 and below pushes down. */
  function GenreRatingTerm(rating: Option<real>): (r: real)
    ensures r > 0.0 <==> rating.Some? && rating.value >= 3.5
    ensures r < 0.0 <==> rating.Some? && rating.value <= 2.5
  {
    if rating.None? then 0.0
    else if rating.value >= 3.5 then (rating.value - 3.0) * 15.0
    else if rating.value <= 2.5 then -(3.0 - rating.value) * 10.0
    else 0.0
  }

  /** Average rating of the artist: 3.5 and above pushes up, 2.5 and below pushes down. */
  function ArtistRatingTerm(rating: Option<real>): (r: real)
    ensures r > 0.0 <==> rating.Some? && rating.value >= 3.5
    ensures r < 0.0 <==> rating.Some? && rating.value <= 2.5
  {
    if rating.None? then 0.0
    else if rating.value >= 3.5 then (rating.value - 3.0) * 25.0
    else if rating.value <= 2.5 then -(3.0 - rating.value) * 15.0
    else 0.0
  }

  /** Genre plays (total plus recent) count 2 each, capped at 30. */
  function GenrePlayTerm(plays: int): (r: real)
    ensures plays >= 0 ==> 0.0 <= r <= 30.0
    ensures plays >= 15 ==> r == 30.0
  {
    MinInt(plays * 2, 30) as real
  }

  /** Artist plays (total plus recent) count 3 each, capped at 40. */
  function ArtistPlayTerm(plays: int): (r: real)
    ensures plays >= 0 ==> 0.0 <= r <= 40.0
    ensures plays >= 14 ==> r == 40.0
  {
    MinInt(plays * 3, 40) as real
  }

  /** Plays of the genre at the current hour count 5 each, capped at 25; nothing when there are none. */
  function HourTerm(plays: Option<int>): (r: real)
    ensures plays.None? ==> r == 0.0
    ensures plays.Some? && plays.value >= 1 ==> 5.0 <= r <= 25.0
  {
    if plays.Some? then MinInt(plays.value * 5, 25) as real else 0.0
  }

  /** The trend bonus: 15 when the recent counter exceeds 0.3 times the total. */
  function TrendTerm(recentPlays: int, plays: int): (r: real)
    ensures r == 0.0 || r == 15.0
  {
    if recentPlays as real > plays as real * 0.3 then 15.0 else 0.0
  }

  /** The aversion penalty: 20 off when the genre's average rating is below 2. */
  function AversionTerm(genreRating: Option<real>): (r: real)
    ensures r == 0.0 || r == -20.0
  {
    if genreRating.Some? && genreRating.value < 2.0 then -20.0 else 0.0
  }

  /** The score before any floor: the sum of the nine terms. */
  function Score(s: AlbumSignals): real
  {
    s.boost as real
    + AlbumRatingTerm(s.albumRating)
    + GenreRatingTerm(s.genreRating)
    + ArtistRatingTerm(s.artistRating)
    + GenrePlayTerm(s.genrePlays + s.recentGenrePlays)
    + ArtistPlayTerm(s.artistPlays + s.recentArtistPlays)
    + HourTerm(s.hourPlays)
    + TrendTerm(s.recentGenrePlays, s.genrePlays)
    + AversionTerm(s.genreRating)
  }

  /** The trend bonus is given exactly when more than 15% of a genre's plays are recent. */
  lemma TrendMeansRecentShare(history: seq<Play>, now: int, g: string)
    ensures TrendTerm(Count(Tally(history, now).recentGenre, g), Count(Tally(history, now).genre, g)) == 15.0
        <==> 20 * RecentPlays(history, now, g) > 3 * Plays(history, g)
  {
    GenreCounterCounts(history, now, g);
    RecentGenreCounterCounts(history, now, g);
  }

  /** Only the last album of the catalogue can carry an album-rating term. */
  lemma OnlyLastAlbumRated(input: FeedInput, tracksOf: seq<seq<Track>>, album: Album)
    requires |tracksOf| == |input.albums| && input.albums != []
    requires album.albumId != input.albums[|input.albums| - 1].albumId
    ensures SpecSignals(input, tracksOf, album).albumRating == None
  {
  }

  lemma {:induction false} NoRatingsNoStars(tracks: seq<Track>)
    ensures RatedStars(map[], tracks) == []
    decreases |tracks|
  {
    if tracks != [] {
      NoRatingsNoStars(tracks[..|tracks| - 1]);
    }
  }

  /** When no album has a rated track, both affinity maps stay empty. */
  lemma {:induction false} NoStarsNoAffinity(albums: seq<Album>, tracksOf: seq<seq<Track>>, songRatings: map<string, int>)
    requires |tracksOf| == |albums|
    requires forall i :: 0 <= i < |albums| ==> RatedStars(songRatings, tracksOf[i]) == []
    ensures GenreAffinity(albums, tracksOf, songRatings) == map[]
    ensures ArtistAffinity(albums, tracksOf, songRatings) == map[]
    decreases |albums|
  {
    if albums != [] {
      var n := |albums| - 1;
      NoStarsNoAffinity(albums[..n], tracksOf[..n], songRatings);
    }
  }

  /** With no subscriptions, ratings or history, every album scores 0. */
  lemma NoSignalsZeroScore(input: FeedInput, tracksOf: seq<seq<Track>>, album: Album)
    requires |tracksOf| == |input.albums| && input.albums != []
    requires input.subscriptions == [] && input.ratings == [] && input.history == []
    ensures SpecSignals(input, tracksOf, album) == AlbumSignals(0, None, None, None, 0, 0, 0, 0, None)
    ensures Score(SpecSignals(input, tracksOf, album)) == 0.0
  {
    forall i | 0 <= i < |input.albums| ensures RatedStars(map[], tracksOf[i]) == [] {
      NoRatingsNoStars(tracksOf[i]);
    }
    NoStarsNoAffinity(input.albums, tracksOf, map[]);
  }

  // ---------------------------------------------------------------------
  // The `album_scores` table and the sort key
  // ---------------------------------------------------------------------

  /** `album_scores` after the scoring loop has seen `upto`: the last score written for each id. */
  function ScoreTable(upto: seq<Album>, scoreOf: Album -> real): (r: map<string, real>)
    ensures r.Keys == set a | a in upto :: a.albumId
  {
    if upto == [] then map[]
    else
      var last := upto[|upto| - 1];
      ScoreTable(upto[..|upto| - 1], scoreOf)[last.albumId := scoreOf(last)]
  }

  /** `lambda album: album_scores.get(album['albumId'], 0)`. */
  function SortKey(table: map<string, real>): Album -> real
  {
    (a: Album) => if a.albumId in table then table[a.albumId] else 0.0
  }

  predicate DistinctIds(albums: seq<Album>) {
    forall p, q :: 0 <= p < q < |albums| ==> albums[p].albumId != albums[q].albumId
  }

  /** With distinct ids, the table holds each album's own score. */
  lemma {:induction false} TableHoldsOwnScore(upto: seq<Album>, scoreOf: Album -> real, j: int)
    requires DistinctIds(upto)
    requires 0 <= j < |upto|
    ensures ScoreTable(upto, scoreOf)[upto[j].albumId] == scoreOf(upto[j])
    decreases |upto|
  {
    if j < |upto| - 1 {
      TableHoldsOwnScore(upto[..|upto| - 1], scoreOf, j);
    }
  }

  /** Two scorers that agree on every album give the same table. */
  lemma {:induction false} ScoreTableAgrees(upto: seq<Album>, f: Album -> real, g: Album -> real)
    requires forall a :: f(a) == g(a)
    ensures ScoreTable(upto, f) == ScoreTable(upto, g)
    decreases |upto|
  {
    if upto != [] {
      ScoreTableAgrees(upto[..|upto| - 1], f, g);
    }
  }

  /** When every album scores `v`, so does every entry of the table. */
  lemma {:induction false} ScoreTableTied(upto: seq<Album>, scoreOf: Album -> real, v: real)
    requires forall i :: 0 <= i < |upto| ==> scoreOf(upto[i]) == v
    ensures forall id :: id in ScoreTable(upto, scoreOf) ==> ScoreTable(upto, scoreOf)[id] == v
    decreases |upto|
  {
    if upto != [] {
      ScoreTableTied(upto[..|upto| - 1], scoreOf, v);
    }
  }

  /** `convert_decimals_to_float` applied to one album of the ranked list. */
  function ConvertAlbum(a: Album): (r: Album)
    ensures r.albumId == a.albumId && r.score == a.score && NoDecimal(r.details)
  {
    a.(details := DecimalsToFloat(a.details))
  }
}
