/**
 * The artist-creation handler's validator and record builder.  As in the
 * album handler, a Python exception inside them becomes `Err`.
 */
module CreateArtist {
  import opened Wrappers
  import opened Json
  import opened Requests
  import Text
  import Admin

  // ---------------------------------------------------------------------
  // Validation
  // ---------------------------------------------------------------------

  /** The checks `validate_artist_input` can fail; `InvalidGenre` carries the offending value. */
  datatype ArtistError =
    | NameRequired
    | NameTooShort
    | BiographyRequired
    | BiographyTooShort
    | GenresRequired
    | GenresNotList
    | InvalidGenre(genre: Value)

  function Message(e: ArtistError, show: Value -> string): string
  {
    match e
    case NameRequired => "Artist name is required"
    case NameTooShort => "Artist name must be at least 2 characters"
    case BiographyRequired => "Artist biography is required"
    case BiographyTooShort => "Artist biography must be at least 10 characters"
    case GenresRequired => "At least one genre is required"
    case GenresNotList => "Genres must be provided as a list"
    case InvalidGenre(g) => "Invalid genre: " + PyStr(g, show) + "."
  }

  /** The position of the first element that is not a string, or the length when every element is one. */
  function FirstNonString(items: seq<Value>): (r: nat)
    ensures r <= |items|
    ensures forall k :: 0 <= k < r ==> items[k].Str?
    ensures r < |items| ==> !items[r].Str?
  {
    if items == [] then 0
    else if !items[0].Str? then 0
    else 1 + FirstNonString(items[1..])
  }

  /**
   * A required text field: `Required` when it is missing or blank, `Err`
   * when it is present but not a string (its `.strip()` raises), `TooShort`
   * when it strips to fewer than `min` characters.
   */
  function TextErrors(v: Value, show: Value -> string, min: nat, required: ArtistError, tooShort: ArtistError): Result<seq<ArtistError>>
  {
    if Missing(v, show) then Ok([required])
    else if !v.Str? then Err("object has no attribute 'strip'")
    else if |Text.Strip(v.s)| < min then Ok([tooShort])
    else Ok([])
  }

  /** The genres check: present, a list, and (reporting only the first offender) all strings. */
  function GenreErrors(genres: Value): seq<ArtistError>
  {
    if !Truthy(genres) then [GenresRequired]
    else if !genres.List? then [GenresNotList]
    else
      var k := FirstNonString(genres.items);
      if k < |genres.items| then [InvalidGenre(genres.items[k])] else []
  }

  /** What `validate_artist_input` reports, in the order of its checks. */
  function ArtistErrors(data: map<string, Value>, show: Value -> string): Result<seq<ArtistError>>
  {
    var name := TextErrors(Get(data, "name"), show, 2, NameRequired, NameTooShort);
    var biography := TextErrors(Get(data, "biography"), show, 10, BiographyRequired, BiographyTooShort);
    if name.Err? then name
    else if biography.Err? then biography
    else Ok(name.value + biography.value + GenreErrors(Get(data, "genres")))
  }

  /**
   * A required text field is reported missing exactly when it is missing or
   * blank, and too short exactly when it is a string that strips to fewer
   * than `min` characters; never both.
   */
  lemma TextErrorsIff(v: Value, show: Value -> string, min: nat, required: ArtistError, tooShort: ArtistError)
    requires required != tooShort
    requires TextErrors(v, show, min, required, tooShort).Ok?
    ensures var errors := TextErrors(v, show, min, required, tooShort).value;
            && (required in errors <==> Missing(v, show))
            && (tooShort in errors <==> v.Str? && !Missing(v, show) && |Text.Strip(v.s)| < min)
            && (forall e :: e in errors ==> e == required || e == tooShort)
            && |errors| <= 1
  {
  }

  /**
   * The genres are accepted exactly when they are a non-empty list of
   * strings; otherwise one error is reported, and an `InvalidGenre` names the
   * first element that is not a string.
   */
  lemma GenreErrorsMeaning(genres: Value)
    ensures GenreErrors(genres) == [] <==> genres.List? && |genres.items| > 0 && forall k :: 0 <= k < |genres.items| ==> genres.items[k].Str?
    ensures |GenreErrors(genres)| <= 1
    ensures GenresRequired in GenreErrors(genres) <==> !Truthy(genres)
    ensures GenresNotList in GenreErrors(genres) <==> Truthy(genres) && !genres.List?
    ensures forall g :: InvalidGenre(g) in GenreErrors(genres) ==>
              exists k :: 0 <= k < |genres.items| && genres.items[k] == g && !g.Str?
                          && forall j :: 0 <= j < k ==> genres.items[j].Str?
  {
    if Truthy(genres) && genres.List? {
      var k := FirstNonString(genres.items);
      if k < |genres.items| {
        assert genres.items[k] in genres.items;
      }
    }
  }

  /** In the concatenated report each code is found in the part that can produce it. */
  lemma InReport(n: seq<ArtistError>, b: seq<ArtistError>, g: seq<ArtistError>)
    requires forall e :: e in n ==> e.NameRequired? || e.NameTooShort?
    requires forall e :: e in b ==> e.BiographyRequired? || e.BiographyTooShort?
    requires forall e :: e in g ==> e.GenresRequired? || e.GenresNotList? || e.InvalidGenre?
    ensures NameRequired in n + b + g <==> NameRequired in n
    ensures NameTooShort in n + b + g <==> NameTooShort in n
    ensures BiographyRequired in n + b + g <==> BiographyRequired in b
    ensures BiographyTooShort in n + b + g <==> BiographyTooShort in b
  {
  }

  /**
   * The name is reported missing exactly when it is missing or blank, and
   * too short exactly when it strips to fewer than 2 characters; the
   * biography likewise with 10 characters; at most three errors in all.
   */
  lemma ArtistErrorsShape(data: map<string, Value>, show: Value -> string)
    requires ArtistErrors(data, show).Ok?
    ensures var errors := ArtistErrors(data, show).value;
            var name := Get(data, "name");
            && (NameRequired in errors <==> Missing(name, show))
            && (NameTooShort in errors <==> name.Str? && !Missing(name, show) && |Text.Strip(name.s)| < 2)
    ensures var errors := ArtistErrors(data, show).value;
            var biography := Get(data, "biography");
            && (BiographyRequired in errors <==> Missing(biography, show))
            && (BiographyTooShort in errors <==> biography.Str? && !Missing(biography, show) && |Text.Strip(biography.s)| < 10)
    ensures |ArtistErrors(data, show).value| <= 3
  {
    var n := TextErrors(Get(data, "name"), show, 2, NameRequired, NameTooShort).value;
    var b := TextErrors(Get(data, "biography"), show, 10, BiographyRequired, BiographyTooShort).value;
    var g := GenreErrors(Get(data, "genres"));
    TextErrorsIff(Get(data, "name"), show, 2, NameRequired, NameTooShort);
    TextErrorsIff(Get(data, "biography"), show, 10, BiographyRequired, BiographyTooShort);
    GenreErrorsMeaning(Get(data, "genres"));
    assert ArtistErrors(data, show).value == n + b + g;
    assert forall e :: e in g ==> e.GenresRequired? || e.GenresNotList? || e.InvalidGenre?;
    InReport(n, b, g);
  }

  /** One required text field's checks, appending to `errors` (the name and biography blocks are alike). */
  method CheckText(errors: seq<ArtistError>, v: Value, show: Value -> string, min: nat, required: ArtistError, tooShort: ArtistError)
    returns (r: Result<seq<ArtistError>>)
    ensures r.Err? <==> TextErrors(v, show, min, required, tooShort).Err?
    ensures r.Ok? ==> r.value == errors + TextErrors(v, show, min, required, tooShort).value
  {
    var missing := Missing(v, show);
    if missing {
      r := Ok(errors + [required]);
    } else if !v.Str? {
      r := Err("object has no attribute 'strip'");
    } else if |Text.Strip(v.s)| < min {
      r := Ok(errors + [tooShort]);
    } else {
      r := Ok(errors);
      assert errors + [] == errors;
    }
  }

  /** The genres block: at most one error, and the loop stops at the first genre that is not a string. */
  method CheckGenres(errors: seq<ArtistError>, genres: Value) returns (r: seq<ArtistError>)
    ensures r == errors + GenreErrors(genres)
  {
    r := errors;
    if !Truthy(genres) {
      r := r + [GenresRequired];
    } else if !genres.List? {
      r := r + [GenresNotList];
    } else if |genres.items| == 0 {
      r := r + [GenresRequired];
    } else {
      var i := 0;
      while i < |genres.items|
        invariant i <= FirstNonString(genres.items)
        invariant r == errors
      {
        if !genres.items[i].Str? {
          r := r + [InvalidGenre(genres.items[i])];
          break;
        }
        i := i + 1;
      }
    }
  }

  /** `validate_artist_input`. */
  method ValidateArtistInput(data: map<string, Value>, show: Value -> string) returns (r: Result<Validation<ArtistError>>)
    ensures r.Err? <==> ArtistErrors(data, show).Err?
    ensures r.Ok? ==> r.value.errors == ArtistErrors(data, show).value
    ensures r.Ok? ==> (r.value.isValid <==> r.value.errors == [])
  {
    ghost var nameErrors := TextErrors(Get(data, "name"), show, 2, NameRequired, NameTooShort);
    ghost var biographyErrors := TextErrors(Get(data, "biography"), show, 10, BiographyRequired, BiographyTooShort);
    ArtistErrorsParts(data, show, nameErrors, biographyErrors);
    var errors: seq<ArtistError> := [];
    var name := CheckText(errors, Get(data, "name"), show, 2, NameRequired, NameTooShort);
    if name.Err? {
      return Err(name.error);
    }
    assert name.value == nameErrors.value;
    var biography := CheckText(name.value, Get(data, "biography"), show, 10, BiographyRequired, BiographyTooShort);
    if biography.Err? {
      return Err(biography.error);
    }
    errors := CheckGenres(biography.value, Get(data, "genres"));
    r := Ok(ValidationOf(errors));
  }

  /** `ArtistErrors` in terms of its two text checks, which keeps their definitions out of the caller's proof. */
  lemma ArtistErrorsParts(data: map<string, Value>, show: Value -> string, name: Result<seq<ArtistError>>, biography: Result<seq<ArtistError>>)
    requires name == TextErrors(Get(data, "name"), show, 2, NameRequired, NameTooShort)
    requires biography == TextErrors(Get(data, "biography"), show, 10, BiographyRequired, BiographyTooShort)
    ensures ArtistErrors(data, show) == if name.Err? then name else if biography.Err? then biography
                                        else Ok(name.value + biography.value + GenreErrors(Get(data, "genres")))
  {
  }

  // ---------------------------------------------------------------------
  // The record
  // ---------------------------------------------------------------------

  /**
   * `[genre.strip().lower() for genre in genres]`: a list gives one entry per
   * element (a non-string element raises), a string one entry per character;
   * anything else, a dictionary included, is refused here.
   */
  function CleanGenres(genres: Value): (r: Result<seq<string>>)
    ensures genres.List? ==> (r.Ok? <==> forall k :: 0 <= k < |genres.items| ==> genres.items[k].Str?)
    ensures r.Ok? && genres.List? ==> |r.value| == |genres.items|
    ensures r.Ok? && genres.List? ==> forall k :: 0 <= k < |r.value| ==> r.value[k] == Text.Lower(Text.Strip(genres.items[k].s))
    ensures genres.Str? ==> r.Ok? && |r.value| == |genres.s|
    ensures !genres.List? && !genres.Str? ==> r.Err?
  {
    match genres
    case List(items) =>
      if FirstNonString(items) < |items| then Err("object has no attribute 'strip'")
      else Ok(seq(|items|, k requires 0 <= k < |items| => Text.Lower(Text.Strip(items[k].s))))
    case Str(s) => Ok(seq(|s|, k requires 0 <= k < |s| => Text.Lower(Text.Strip([s[k]]))))
    case _ => Err("object is not iterable")
  }

  /** Cleaned genres are lower case and carry no surrounding whitespace. */
  lemma CleanGenresNormalised(genres: Value)
    requires CleanGenres(genres).Ok?
    ensures forall k, i :: 0 <= k < |CleanGenres(genres).value| && 0 <= i < |CleanGenres(genres).value[k]|
              ==> !Text.IsUpper(CleanGenres(genres).value[k][i])
  {
  }

  /** The counters of an artist record. */
  datatype ArtistMetadata = ArtistMetadata(totalSongs: int, totalAlbums: int, followers: int, verified: bool)

  /** The item `create_artist_record` builds, one field per key. */
  datatype ArtistRecord = ArtistRecord(
    artistId: string,
    name: string,
    biography: string,
    genres: seq<string>,
    status: string,
    createdAt: string,
    updatedAt: string,
    createdBy: Value,
    metadata: ArtistMetadata,
    socialLinks: Value,
    imageUrl: Value,
    country: Value,
    formedYear: Value,
    members: Value)

  /**
   * `create_artist_record`, with the time stamp given.  It raises when the
   * authorizer context is not a dictionary, when the name or biography is
   * absent or not a string, and when the genres cannot be cleaned.
   */
  function CreateArtistRecord(artistId: string, data: map<string, Value>, event: map<string, Value>, now: string)
    : (r: Result<ArtistRecord>)
    ensures r.Ok? <==> Admin.AuthorizerOf(event).Some?
                       && "name" in data && data["name"].Str? && "biography" in data && data["biography"].Str?
                       && "genres" in data && CleanGenres(data["genres"]).Ok?
    ensures r.Ok? ==> r.value.artistId == artistId
    ensures r.Ok? ==> r.value.name == Text.Strip(data["name"].s) && r.value.biography == Text.Strip(data["biography"].s)
    ensures r.Ok? ==> r.value.genres == CleanGenres(data["genres"]).value
    ensures r.Ok? ==> r.value.status == "active" && r.value.metadata == ArtistMetadata(0, 0, 0, false)
    ensures r.Ok? ==> r.value.createdAt == r.value.updatedAt == now
    ensures r.Ok? ==> r.value.createdBy == GetOr(Admin.AuthorizerOf(event).value, "username", Str("unknown"))
    ensures r.Ok? ==> r.value.socialLinks == GetOr(data, "socialLinks", Object(map[]))
                      && r.value.imageUrl == GetOr(data, "imageUrl", Str(""))
                      && r.value.country == GetOr(data, "country", Str(""))
                      && r.value.formedYear == Get(data, "formedYear")
                      && r.value.members == GetOr(data, "members", List([]))
  {
    var authorizer := Admin.AuthorizerOf(event);
    if authorizer.None? then Err("object has no attribute 'get'")
    else if "name" !in data || !data["name"].Str? then Err("cannot strip the name")
    else if "biography" !in data || !data["biography"].Str? then Err("cannot strip the biography")
    else if "genres" !in data then Err("KeyError: 'genres'")
    else
      var genres := CleanGenres(data["genres"]);
      if genres.Err? then Err(genres.error)
      else
        Ok(ArtistRecord(
          artistId := artistId,
          name := Text.Strip(data["name"].s),
          biography := Text.Strip(data["biography"].s),
          genres := genres.value,
          status := "active",
          createdAt := now,
          updatedAt := now,
          createdBy := GetOr(authorizer.value, "username", Str("unknown")),
          metadata := ArtistMetadata(0, 0, 0, false),
          socialLinks := GetOr(data, "socialLinks", Object(map[])),
          imageUrl := GetOr(data, "imageUrl", Str("")),
          country := GetOr(data, "country", Str("")),
          formedYear := Get(data, "formedYear"),
          members := GetOr(data, "members", List([]))))
  }

  /** A request without an authorizer username is recorded as created by `unknown`. */
  lemma CreatedByDefault(artistId: string, data: map<string, Value>, authorizer: map<string, Value>, now: string)
    requires "username" !in authorizer
    requires CreateArtistRecord(artistId, data, Admin.EventWith(authorizer), now).Ok?
    ensures CreateArtistRecord(artistId, data, Admin.EventWith(authorizer), now).value.createdBy == Str("unknown")
  {
    assert Admin.AuthorizerOf(Admin.EventWith(authorizer)) == Some(authorizer);
  }

  /** Input that passes validation builds a record whenever the authorizer context is a dictionary. */
  lemma ValidInputBuildsRecord(artistId: string, data: map<string, Value>, show: Value -> string, event: map<string, Value>, now: string)
    requires ArtistErrors(data, show) == Ok([])
    requires Admin.AuthorizerOf(event).Some?
    ensures CreateArtistRecord(artistId, data, event, now).Ok?
  {
    var genres := Get(data, "genres");
    assert GenreErrors(genres) == [];
  }
}
