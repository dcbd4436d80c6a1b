/**
 * The album-creation handler's pure parts: the input validator, the genre
 * normaliser and the record builder.  A Python exception raised inside one
 * of them (a `.strip()` on a number, a `len()` of a number, a missing key)
 * becomes `Err`.
 */
module CreateAlbum {
  import opened Wrappers
  import opened Json
  import opened Requests
  import Text

  // ---------------------------------------------------------------------
  // Genre normalisation
  // ---------------------------------------------------------------------

  /** The alias table of `normalize_genre`. */
  const GenreAliases: map<string, string> := map[
    "r&b" := "rnb",
    "rhythm and blues" := "rnb",
    "hip-hop" := "hiphop",
    "hip hop" := "hiphop",
    "drum and bass" := "drumnbass",
    "drum & bass" := "drumnbass",
    "electronic dance music" := "edm",
    "singer-songwriter" := "singersongwriter",
    "alt-rock" := "alternative",
    "alternative rock" := "alternative",
    "heavy metal" := "metal",
    "death metal" := "metal",
    "black metal" := "metal",
    "thrash metal" := "metal"]

  /** `normalize_genre`: `unknown` for a falsy or non-string genre, else the lower-cased, stripped text through the alias table. */
  function NormalizeGenre(genre: Value): string
  {
    if !Truthy(genre) || !genre.Str? then "unknown"
    else
      var normalized := Text.Strip(Text.Lower(genre.s));
      if normalized in GenreAliases then GenreAliases[normalized] else normalized
  }

  /** `None`, a non-string and the empty string are all `unknown`. */
  lemma UnknownGenre(genre: Value)
    requires !genre.Str? || genre.s == ""
    ensures NormalizeGenre(genre) == "unknown"
  {
  }

  /** Spelling variants meet in one name. */
  lemma AliasExamples()
    ensures NormalizeGenre(Str("hip hop")) == NormalizeGenre(Str("hip-hop")) == "hiphop"
    ensures NormalizeGenre(Str("death metal")) == "metal"
  {
    AliasHipHopSpace();
    AliasHipHopHyphen();
    AliasDeathMetal();
  }

  lemma AliasHipHopSpace()
    ensures NormalizeGenre(Str("hip hop")) == "hiphop"
  {
    LowerStripped("hip hop");
    NormalizedThroughAliases("hip hop");
  }

  lemma AliasHipHopHyphen()
    ensures NormalizeGenre(Str("hip-hop")) == "hiphop"
  {
    LowerStripped("hip-hop");
    NormalizedThroughAliases("hip-hop");
  }

  lemma AliasDeathMetal()
    ensures NormalizeGenre(Str("death metal")) == "metal"
  {
    LowerStripped("death metal");
    NormalizedThroughAliases("death metal");
  }

  /** A lower-case text with no surrounding space is its own lower-cased strip. */
  lemma LowerStripped(k: string)
    requires Text.Trimmed(k)
    requires forall i :: 0 <= i < |k| ==> !Text.IsUpper(k[i])
    ensures Text.Strip(Text.Lower(k)) == k
  {
    Text.LowerFixed(k);
    Text.StripFixed(k);
  }

  /** A non-empty genre that is its own lower-cased strip goes straight to the alias table. */
  lemma NormalizedThroughAliases(g: string)
    requires g != "" && Text.Strip(Text.Lower(g)) == g
    ensures NormalizeGenre(Str(g)) == if g in GenreAliases then GenreAliases[g] else g
  {
  }

  /** A whitespace-only genre is truthy, so it normalises to the empty name. */
  lemma BlankGenreIsEmpty(s: string)
    requires s != [] && Text.IsBlank(s)
    ensures NormalizeGenre(Str(s)) == ""
  {
    assert Text.IsBlank(Text.Lower(s));
  }

  predicate Letters(s: string) { forall i :: 0 <= i < |s| ==> 'a' <= s[i] <= 'z' }

  /** Every alias key holds a space, a hyphen or an ampersand. */
  lemma AliasKeyNotLetters(k: string)
    requires k in GenreAliases
    ensures !Letters(k)
  {
    if |k| == 3 {
      assert k[1] == '&';
    } else if |k| == 7 {
      assert k[3] == '-' || k[3] == ' ';
    } else if k == "rhythm and blues" || k == "drum and bass" || k == "drum & bass" || k == "electronic dance music" {
      assert k[4] == ' ' || k[6] == ' ' || k[10] == ' ';
    } else {
      assert k[3] == '-' || k[5] == ' ' || k[6] == ' ' || k[6] == '-' || k[11] == ' ';
    }
  }

  /** A plain lower-case word is its own lower-cased strip. */
  lemma LettersFixed(t: string)
    requires Letters(t)
    ensures Text.Strip(Text.Lower(t)) == t
  {
    Text.LowerFixed(t);
    Text.StripFixed(t);
  }

  /** Every alias target is a plain lower-case word, so it is not a key and normalising keeps it. */
  lemma AliasTargetFixed(k: string)
    requires k in GenreAliases
    ensures GenreAliases[k] != "" && GenreAliases[k] !in GenreAliases
    ensures Text.Strip(Text.Lower(GenreAliases[k])) == GenreAliases[k]
  {
    var t := GenreAliases[k];
    assert t != "" && Letters(t) by {
      assert t in {"rnb", "hiphop", "drumnbass", "edm", "singersongwriter", "alternative", "metal"};
    }
    if t in GenreAliases {
      AliasKeyNotLetters(t);
    }
    LettersFixed(t);
  }

  /** A name that is its own lower-cased strip and no alias is normalised to itself. */
  lemma PlainGenreFixed(n: string)
    requires n != "" && n !in GenreAliases && Text.Strip(Text.Lower(n)) == n
    ensures NormalizeGenre(Str(n)) == n
  {
  }

  /** `unknown` is a plain name, so it is normalised to itself. */
  lemma UnknownFixed()
    ensures NormalizeGenre(Str("unknown")) == "unknown"
  {
    var u := "unknown";
    assert Letters(u);
    if u in GenreAliases {
      AliasKeyNotLetters(u);
    }
    LettersFixed(u);
    PlainGenreFixed(u);
  }

  /**
   * Normalising a normalised genre changes nothing, except that the empty
   * name a whitespace-only genre produces becomes `unknown`.
   */
  lemma NormalizeGenreIdempotent(genre: Value)
    ensures var n := NormalizeGenre(genre); NormalizeGenre(Str(n)) == if n == "" then "unknown" else n
  {
    if !Truthy(genre) || !genre.Str? {
      UnknownFixed();
    } else {
      var normalized := Text.Strip(Text.Lower(genre.s));
      if normalized in GenreAliases {
        AliasTargetFixed(normalized);
        PlainGenreFixed(GenreAliases[normalized]);
      } else if normalized != "" {
        Text.StripLowerIdempotent(genre.s);
        PlainGenreFixed(normalized);
      }
    }
  }

  // ---------------------------------------------------------------------
  // Validation
  // ---------------------------------------------------------------------

  /** The checks `validate_album_input` can fail. */
  datatype AlbumError = TitleRequired | TitleEmpty | ArtistRequired | GenreRequired | GenreNotString | TracksNotPositive

  function Message(e: AlbumError): string
  {
    match e
    case TitleRequired => "Album title is required"
    case TitleEmpty => "Album title must not be empty"
    case ArtistRequired => "Artist ID is required"
    case GenreRequired => "Genre is required"
    case GenreNotString => "Genre must be a string"
    case TracksNotPositive => "Number of tracks must be positive number"
  }

  /**
   * What `validate_album_input` reports: `Err` where it raises (a truthy
   * title that is not a string has no `.strip()`, a truthy `tracksIds`
   * without a length has no `len()`), else the failed checks in order.  The
   * empty-title and track-count checks never fire: a title that strips to
   * nothing is already missing, and a truthy collection is never empty.
   */
  function AlbumErrors(data: map<string, Value>, show: Value -> string): Result<seq<AlbumError>>
  {
    var title := Get(data, "title");
    var genre := Get(data, "genre");
    var tracks := Get(data, "tracksIds");
    if !Missing(title, show) && !title.Str? then Err("object has no attribute 'strip'")
    else if Truthy(tracks) && Len(tracks).None? then Err("object has no len()")
    else
      Ok((if Missing(title, show) then [TitleRequired] else [])
         + (if !Truthy(Get(data, "artistId")) then [ArtistRequired] else [])
         + (if !Truthy(genre) then [GenreRequired] else if !genre.Str? then [GenreNotString] else []))
  }

  /** Each check is reported exactly when its condition holds, and at most three are. */
  lemma AlbumErrorsIff(data: map<string, Value>, show: Value -> string)
    requires AlbumErrors(data, show).Ok?
    ensures var errors := AlbumErrors(data, show).value;
            && (TitleRequired in errors <==> Missing(Get(data, "title"), show))
            && (ArtistRequired in errors <==> !Truthy(Get(data, "artistId")))
            && (GenreRequired in errors <==> !Truthy(Get(data, "genre")))
            && (GenreNotString in errors <==> Truthy(Get(data, "genre")) && !Get(data, "genre").Str?)
            && TitleEmpty !in errors && TracksNotPositive !in errors
            && |errors| <= 3
  {
  }

  /** `validate_album_input`: the checks in the order the handler makes them. */
  method ValidateAlbumInput(data: map<string, Value>, show: Value -> string) returns (r: Result<Validation<AlbumError>>)
    ensures r.Err? <==> AlbumErrors(data, show).Err?
    ensures r.Ok? ==> r.value.errors == AlbumErrors(data, show).value
    ensures r.Ok? ==> (r.value.isValid <==> r.value.errors == [])
  {
    var errors: seq<AlbumError> := [];
    var title := Get(data, "title");
    if Missing(title, show) {
      errors := errors + [TitleRequired];
    } else if !title.Str? {
      return Err("object has no attribute 'strip'");
    } else {
      assert Text.Strip(title.s) != [];
      if |Text.Strip(title.s)| < 1 {
        errors := errors + [TitleEmpty];
      }
    }
    assert errors == if Missing(title, show) then [TitleRequired] else [];
    ghost var titleErrors := errors;
    if !Truthy(Get(data, "artistId")) {
      errors := errors + [ArtistRequired];
    }
    assert errors == titleErrors + if !Truthy(Get(data, "artistId")) then [ArtistRequired] else [];
    ghost var namedErrors := errors;
    var genre := Get(data, "genre");
    if !Truthy(genre) {
      errors := errors + [GenreRequired];
    } else if !genre.Str? {
      errors := errors + [GenreNotString];
    }
    assert errors == namedErrors + if !Truthy(genre) then [GenreRequired] else if !genre.Str? then [GenreNotString] else [];
    var tracks := Get(data, "tracksIds");
    if Truthy(tracks) {
      var n := Len(tracks);
      if n.None? {
        return Err("object has no len()");
      }
      assert n.value > 0;
      if n.value < 1 {
        errors := errors + [TracksNotPositive];
      }
    }
    r := Ok(ValidationOf(errors));
  }

  // ---------------------------------------------------------------------
  // The record
  // ---------------------------------------------------------------------

  /** The item `create_album_record` builds, one field per key. */
  datatype AlbumRecord = AlbumRecord(
    albumId: string,
    title: string,
    artistId: Value,
    genre: string,
    trackCount: nat,
    createdAt: string,
    tracksIds: Value)

  /**
   * `create_album_record`, with the creation time given.  It raises when a
   * key it indexes is absent, when the title is not a string, and when
   * `tracksIds` has no length.
   */
  function CreateAlbumRecord(albumId: string, data: map<string, Value>, createdAt: string): (r: Result<AlbumRecord>)
    ensures r.Ok? <==> "genre" in data && "title" in data && data["title"].Str? && "artistId" in data
                       && "tracksIds" in data && Len(data["tracksIds"]).Some?
    ensures r.Ok? ==> r.value.albumId == albumId && r.value.createdAt == createdAt
    ensures r.Ok? ==> r.value.title == Text.Strip(data["title"].s)
    ensures r.Ok? ==> r.value.genre == NormalizeGenre(data["genre"])
    ensures r.Ok? ==> r.value.trackCount == Len(data["tracksIds"]).value
    ensures r.Ok? ==> r.value.artistId == data["artistId"] && r.value.tracksIds == data["tracksIds"]
  {
    if "genre" !in data then Err("KeyError: 'genre'")
    else if "title" !in data then Err("KeyError: 'title'")
    else if !data["title"].Str? then Err("object has no attribute 'strip'")
    else if "artistId" !in data then Err("KeyError: 'artistId'")
    else if Len(GetOr(data, "tracksIds", List([]))).None? then Err("object has no len()")
    else if "tracksIds" !in data then Err("KeyError: 'tracksIds'")
    else
      Ok(AlbumRecord(
        albumId := albumId,
        title := Text.Strip(data["title"].s),
        artistId := data["artistId"],
        genre := NormalizeGenre(data["genre"]),
        trackCount := Len(data["tracksIds"]).value,
        createdAt := createdAt,
        tracksIds := data["tracksIds"]))
  }

  /**
   * Input that passed validation builds a record with a non-blank title,
   * provided `tracksIds` is present and sized: validation does not require
   * the key, but the record indexes it.
   */
  lemma ValidInputRecord(albumId: string, data: map<string, Value>, show: Value -> string, createdAt: string)
    requires AlbumErrors(data, show) == Ok([])
    requires "tracksIds" in data && Len(data["tracksIds"]).Some?
    ensures CreateAlbumRecord(albumId, data, createdAt).Ok?
    ensures CreateAlbumRecord(albumId, data, createdAt).value.title != ""
  {
    var title := Get(data, "title");
    assert !Missing(title, show);
  }
}
