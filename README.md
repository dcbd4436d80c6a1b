# Music app handlers in Dafny

This project models the decision-making core of a serverless music
streaming back end built from AWS Lambda handlers. The model covers:

- **Personalised feed.** Two handlers rank the album catalogue for a
  listener. They combine subscriptions, song ratings and listening history
  into per-album scores and sort the albums by score, most relevant first.
  - `calculate_feed` writes each score into the album.
  - `get_feed` subtracts a diversity penalty and floors the score at 0.
- **Input validation.** The validators and record builders for registration,
  artists and albums, including the genre normaliser and its alias table.
- **Administrator check.** The test every handler makes against the
  authorizer context.
- **Content uploads.** The two music-content handlers: their simplified
  `multipart/form-data` splitter, the checks on uploaded files, and the
  DynamoDB `SET` expressions they build.
- **Authorizer.** The bearer-token authorizer's token extraction and IAM
  policy.
- **Transcription.**
  - Starting a job: the duplicate check, the new record, the job name and
    the audio format.
  - Monitoring: status dispatch, retry limit, transcript location and
    transcript parsing.
  - The status-update expression both handlers send.
- **Discovery.** Routing, parameter normalisation, the choice of index, and
  the genre catalogue ordered by item count.
- **Stage settings.** The per-stage settings of the registration stack.

AWS services, the clock, identifiers and library codecs are parameters of
the model. A service call that changes something appears as a recorded
action in the result, not as an effect. A Python exception is an `Err`, a
`None`, or the handler's own error answer, following what the code does with
it.

Each loop of the source is a method proved equal to a specification
function, and lemmas state the properties of those functions. Examples:

- the feed is a stable, non-increasing permutation of the catalogue;
- the play counters add up;
- an update expression names exactly the fields it sets;
- each address form of a transcript file gives back its bucket and key.

Where the code and the documented intent disagree, the model follows the
code. Two of these are logged under "## Findings", where a corrected
definition is proved beside the code as written; the handlers themselves
use the code as written. The other cases have their own lemmas:

- only the last catalogue album can receive an album-rating term;
- the ARTIST boost compares the album's `artistId` with the subscription's, which the collector never fills, so no album that has an `artistId` ever gets it;
- `get_feed` passes an HTTP envelope as its content index;
- the monitor cannot read the start handler's messages;
- a failed record whose retries are exhausted is started afresh;
- the legacy S3 host branch can never be reached.

## Model

| member | source | states |
|---|---|---|
| Admin.AdminIff | lambda_functions/create_album/index.py:73-86 | With a string `groups` value (or none), the caller is an administrator exactly when one comma-separated entry is `administrators` or the role is `admin` |
| Admin.NonStringGroupsRefused | lambda_functions/create_album/index.py:79-86 | A `groups` value that is not a string makes `split` raise, and the check answers no even for the `admin` role |
| Admin.NoContextNotAdmin | lambda_functions/create_album/index.py:76-82 | An event with no authorizer context is not an administrator's |
| Admin.JoinedGroupsAdmin | lambda_functions/create_album/index.py:79-82 | Group names free of commas, joined with commas and listing `administrators`, are recognised as an administrator's |
| Authorizer.ExtractToken | lambda_functions/authorizer/index.py:39-47 | A string header gives a token: what follows `Bearer ` when it starts with it, else the header unchanged; a non-string header gives none |
| Authorizer.BearerRoundTrip | lambda_functions/authorizer/index.py:42-45 | The token sent as `Bearer <t>` is read back as exactly `t` |
| Authorizer.GeneratePolicy | lambda_functions/authorizer/index.py:80-106 | The principal is the username; the one statement allows `execute-api:Invoke` on the method ARN; the context has exactly username, email, role and the comma-joined groups |
| Authorizer.Authorize | lambda_functions/authorizer/index.py:12-37 | A policy is returned exactly when the token is present and non-empty, the identity provider accepts it and the event has a `methodArn`; every other outcome is `Unauthorized` |
| Authorizer.BareBearerRefused | lambda_functions/authorizer/index.py:20-24 | A bare `Bearer ` header carries an empty token and is refused |
| Authorizer.MissingTokenRefused | lambda_functions/authorizer/index.py:22-24 | A request without an `authorizationToken` is refused |
| Authorizer.ContextAdminIff | lambda_functions/authorizer/index.py:98-103 | The context an authorized call carries is read back by `is_admin_user`: with comma-free group names, admin exactly when a group is `administrators` or the role is `admin` |
| StageConfig.RegistrationConfigFor | music_app_cdk/config.py:14-39 | Only `dev` and `prod` are accepted, with the input as stage and `MusicApp` as name; any other stage fails with `Unknown stage: <stage>` |
| StageConfig.DevSettings | music_app_cdk/config.py:18-27 | `dev` destroys on removal, asks 8-character passwords, 30 s and 256 MB, and allows every origin |
| StageConfig.ProdSettings | music_app_cdk/config.py:28-37 | `prod` retains on removal, asks 12-character passwords, 60 s and 512 MB, and allows one origin |
| StageConfig.ProdStricterThanDev | music_app_cdk/config.py:18-37 | Production asks longer passwords than development, keeps its data, has no wildcard origin and no less time or memory |
| CreateAlbum.UnknownGenre | lambda_functions/create_album/index.py:155-158 | `None`, a non-string and the empty string all normalise to `unknown` |
| CreateAlbum.AliasExamples | lambda_functions/create_album/index.py:160-180 | `hip hop` and `hip-hop` both normalise to `hiphop`, and `death metal` to `metal` |
| CreateAlbum.AliasHipHopSpace | lambda_functions/create_album/index.py:167 | `hip hop` normalises to `hiphop` |
| CreateAlbum.AliasHipHopHyphen | lambda_functions/create_album/index.py:166 | `hip-hop` normalises to `hiphop` |
| CreateAlbum.AliasDeathMetal | lambda_functions/create_album/index.py:175 | `death metal` normalises to `metal` |
| CreateAlbum.NormalizedThroughAliases | lambda_functions/create_album/index.py:160-180 | A non-empty genre already lower-cased and stripped goes straight through the alias table |
| CreateAlbum.BlankGenreIsEmpty | lambda_functions/create_album/index.py:157-160 | A whitespace-only genre is truthy and normalises to the empty name, not to `unknown` |
| CreateAlbum.AliasKeyNotLetters | lambda_functions/create_album/index.py:163-178 | Every alias key holds a space, a hyphen or an ampersand |
| CreateAlbum.AliasTargetFixed | lambda_functions/create_album/index.py:163-178 | Every alias target is a non-empty plain word that is no alias key, so normalising keeps it |
| CreateAlbum.PlainGenreFixed | lambda_functions/create_album/index.py:160-180 | A name that is its own lower-cased strip and no alias key normalises to itself |
| CreateAlbum.UnknownFixed | lambda_functions/create_album/index.py:158-180 | `unknown` normalises to itself |
| CreateAlbum.NormalizeGenreIdempotent | lambda_functions/create_album/index.py:155-180 | Normalising a normalised genre changes nothing, except that the empty name from a whitespace-only genre becomes `unknown` |
| CreateAlbum.AlbumErrorsIff | lambda_functions/create_album/index.py:98-118 | Title, artist and genre errors are reported exactly when their conditions hold; the empty-title and track-count errors never appear; at most three errors |
| CreateAlbum.ValidateAlbumInput | lambda_functions/create_album/index.py:88-123 | The appends in the handler's order give the specified error list, or the exception a non-string title or an unsized `tracksIds` raises; valid exactly when no error |
| CreateAlbum.CreateAlbumRecord | lambda_functions/create_album/index.py:182-198 | The record exists exactly when genre, a string title, artistId and a sized `tracksIds` are present; title stripped, genre normalised, trackCount the number of tracks, other fields copied |
| CreateAlbum.ValidInputRecord | lambda_functions/create_album/index.py:101-102 | Input that passed validation and has a sized `tracksIds` builds a record with a non-blank title |
| CreateArtist.FirstNonString | lambda_functions/create_artist/index.py:110-113 | The position where the genre loop stops: every earlier element is a string and the one there, if any, is not |
| CreateArtist.TextErrorsIff | lambda_functions/create_artist/index.py:90-99 | A required text field is reported missing exactly when it is missing or blank, too short exactly when it is a string stripping below the minimum, never both |
| CreateArtist.GenreErrorsMeaning | lambda_functions/create_artist/index.py:102-113 | Genres pass exactly when they are a non-empty list of strings; otherwise one error, and an invalid-genre error names the first non-string element |
| CreateArtist.ArtistErrorsShape | lambda_functions/create_artist/index.py:87-113 | Name (2 characters) and biography (10 characters) are reported missing or too short exactly when their conditions hold; at most three errors |
| CreateArtist.CheckText | lambda_functions/create_artist/index.py:90-99 | One text-field block appends exactly that field's errors, or raises for a non-string |
| CreateArtist.CheckGenres | lambda_functions/create_artist/index.py:102-113 | The genres block, with its loop and `break`, appends exactly the specified genre errors (at most one) |
| CreateArtist.ValidateArtistInput | lambda_functions/create_artist/index.py:80-118 | The appends in order give the specified error list or the raised exception; valid exactly when no error |
| CreateArtist.ArtistErrorsParts | lambda_functions/create_artist/index.py:87-113 | The report is the name errors, then the biography errors, then the genre errors, unless a text check raises |
| CreateArtist.CleanGenres | lambda_functions/create_artist/index.py:147 | A list of strings gives one entry per element, in order, stripped and lower-cased; a non-string element raises; a string gives one entry per character |
| CreateArtist.CleanGenresNormalised | lambda_functions/create_artist/index.py:147 | Cleaned genres hold no upper-case letter |
| CreateArtist.CreateArtistRecord | lambda_functions/create_artist/index.py:135-163 | The record exists exactly when the context is a dictionary and name, biography and genres can be cleaned; status `active`, zero counters, not verified, fields copied with their defaults |
| CreateArtist.CreatedByDefault | lambda_functions/create_artist/index.py:141 | Without an authorizer username the record is created by `unknown` |
| CreateArtist.ValidInputBuildsRecord | lambda_functions/create_artist/index.py:135-163 | Input that passed validation always builds a record when the authorizer context is a dictionary |
| Requests.ValidationOf | lambda_functions/create_album/index.py:120-123 | The validator result carries the errors and is valid exactly when there are none |
| Requests.PyIndex | lambda_functions/create_album/index.py:103 | Indexing a value succeeds exactly on a dictionary holding the key |
| Registration.IndexOf | lambda_functions/registration/index.py:119 | The position of the first `@`: none before it, and the character there is `@` when it is inside the text |
| Registration.EmailShapeValid | lambda_functions/registration/index.py:116-120 | Every `local@domain` (optionally followed by one newline), with both sides non-empty and free of whitespace and `@` and a dot inside the domain, is accepted |
| Registration.ValidEmailShape | lambda_functions/registration/index.py:116-120 | Every accepted address has that shape, so acceptance is exactly the shape |
| Registration.EmailBodyOf | lambda_functions/registration/index.py:119 | A local part, `@` and a dotted domain match the pattern between its anchors |
| Registration.EmailBodySplit | lambda_functions/registration/index.py:119 | Text matching the pattern between its anchors splits into local part, `@` and dotted domain |
| Registration.MonthField | lambda_functions/registration/index.py:125 | A `%m` field read before the `-` is a month from 1 to 12, one or two characters long |
| Registration.DayField | lambda_functions/registration/index.py:125 | A `%d` field that reaches the end of the text is a day from 1 to 31 |
| Registration.ParseDate | lambda_functions/registration/index.py:125 | A parsed `%Y-%m-%d` text has a four-digit year, a month from 1 to 12 and a day from 1 to 31 |
| Registration.ParseFormatDate | lambda_functions/registration/index.py:122-128 | Reading a zero-padded `YYYY-MM-DD` text gives back the date it was written from |
| Registration.FormattedDateValid | lambda_functions/registration/index.py:122-128 | A written date is accepted exactly when its year is at least 1 and the day exists in that month |
| Registration.LeapDay | lambda_functions/registration/index.py:122-128 | February 29 is accepted exactly in leap years |
| Registration.NoFebruary30 | lambda_functions/registration/index.py:122-128 | February 30 is never accepted |
| Registration.RequiredErrorsIff | lambda_functions/registration/index.py:76-79 | A field is reported required exactly when it is one of the listed fields and missing or blank; every error of that loop is a required error |
| Registration.ShortNameErrors | lambda_functions/registration/index.py:82-87 | The first- and last-name checks report only their own error |
| Registration.UsernameErrors | lambda_functions/registration/index.py:90-95 | The username checks report only too-short and not-alphanumeric errors |
| Registration.StrippedUsernameErrors | lambda_functions/registration/index.py:91-95 | The stripped username's checks report only too-short and not-alphanumeric errors |
| Registration.EmailErrors | lambda_functions/registration/index.py:98-99 | The e-mail check reports only the invalid-email error |
| Registration.PasswordErrors | lambda_functions/registration/index.py:102-105 | The password check reports only the too-short error carrying the minimum |
| Registration.DateErrors | lambda_functions/registration/index.py:108-109 | The date check reports only the invalid-date error |
| Registration.ValidateRegistrationInput | lambda_functions/registration/index.py:68-114 | The checks in order give the specified error list, or the exception a non-string field or an unsized password raises; valid exactly when no error |
| Registration.CheckRequired | lambda_functions/registration/index.py:76-79 | The loop over the six required fields appends exactly the required errors, in field order |
| Registration.CheckShortName | lambda_functions/registration/index.py:82-87 | A name check raises exactly for a truthy non-string and otherwise reports the specified errors |
| Registration.CheckUsername | lambda_functions/registration/index.py:90-95 | The username block raises exactly for a truthy non-string and otherwise reports both checks' errors |
| Registration.CheckEmail | lambda_functions/registration/index.py:98-99 | The e-mail block raises exactly for a truthy non-string and otherwise reports the specified error |
| Registration.CheckPassword | lambda_functions/registration/index.py:102-105 | The password block raises exactly for a truthy value without a length and otherwise compares the unstripped length with the minimum |
| Registration.CheckDate | lambda_functions/registration/index.py:108-109 | The date block raises exactly for a truthy non-string and otherwise reports the specified error |
| Registration.ReportMember | lambda_functions/registration/index.py:73-114 | The report holds an error exactly when the required-field part or the per-field part does |
| Registration.FieldMember | lambda_functions/registration/index.py:81-109 | The per-field part holds an error exactly when one of the six checks reports it |
| Registration.FieldErrorsNotRequired | lambda_functions/registration/index.py:81-109 | No per-field check reports a field as required |
| Registration.RequiredReported | lambda_functions/registration/index.py:76-79 | The report says a field is required exactly when it is a listed field that is missing or blank |
| Registration.FieldReported | lambda_functions/registration/index.py:81-109 | A per-field error is in the report exactly when its check reports it |
| Registration.BlankUsernameThreeErrors | lambda_functions/registration/index.py:77-95 | A truthy whitespace-only username is reported as required, too short and not alphanumeric |
| Registration.BlankUsernameErrors | lambda_functions/registration/index.py:90-95 | A non-empty blank username fails both username checks |
| Registration.PasswordReported | lambda_functions/registration/index.py:102-105 | The password is reported short exactly when it is truthy and its unstripped length is below the minimum |
| Registration.FieldErrorsParts | lambda_functions/registration/index.py:98-109 | The e-mail and date errors of the per-field part come from their own checks |
| Registration.EmailReported | lambda_functions/registration/index.py:98-99 | The report holds the invalid-email error exactly when the e-mail is truthy and rejected by the pattern |
| Registration.DateReported | lambda_functions/registration/index.py:108-109 | The report holds the invalid-date error exactly when the date is truthy and not a real `%Y-%m-%d` date |
| Ranking.WithKey | lambda_functions/calculate_feed/index.py:194-196 | The elements with a given key, in order, are no more than the whole list |
| Ranking.InsertFacts | lambda_functions/calculate_feed/index.py:194-196 | Inserting into a non-increasing list keeps it non-increasing, adds exactly the new element and grows it by one |
| Ranking.ConsSorted | lambda_functions/calculate_feed/index.py:194-196 | A non-increasing list stays so behind an element whose key is at least every key in it |
| Ranking.SortDescPermutes | lambda_functions/calculate_feed/index.py:194-196 | The sort returns a rearrangement of its input, of the same length, in non-increasing key order |
| Ranking.InsertWithKey | lambda_functions/calculate_feed/index.py:194-196 | Inserting keeps the relative order of the elements sharing any one key |
| Ranking.SortDescStableStep | lambda_functions/calculate_feed/index.py:194-196 | The sort keeps the relative order of the elements sharing any one key |
| Ranking.SortedDesc | lambda_functions/calculate_feed/index.py:194-196 | `sorted(.., reverse=True)`: a permutation in non-increasing key order in which equal keys keep their input order |
| Ranking.AllTiedKeepsOrder | lambda_functions/calculate_feed/index.py:194-196 | When every key is the same, the sorted list is the input unchanged |
| Ranking.AllWithKey | lambda_functions/calculate_feed/index.py:194-196 | When every key is the same value, selecting that key keeps the whole list |
| Ranking.Apply | lambda_functions/calculate_feed/index.py:198 | Mapping gives one result per element, in order |
| Ranking.InsertApply | lambda_functions/calculate_feed/index.py:194-198 | Inserting then mapping equals mapping then inserting, when the mapping keeps the key |
| Ranking.SortApply | lambda_functions/calculate_feed/index.py:194-198 | Sorting then converting equals converting then sorting, when the conversion keeps the key |
| FeedSignals.BuildSubscriptionBoost | lambda_functions/calculate_feed/index.py:68-79 | After the subscription loop every id's boost is the summed weight of every (subscription, album) pair on that id |
| FeedSignals.AddSubscription | lambda_functions/calculate_feed/index.py:70-79 | One subscription adds to every id exactly the weight of the albums carrying it; other subscription types add nothing |
| FeedSignals.AddAlbumWeight | lambda_functions/calculate_feed/index.py:72-79 | One pass of the inner loop adds album `j`'s weight to its id and changes no other id |
| FeedSignals.NoWeight | lambda_functions/calculate_feed/index.py:70-79 | A subscription that is neither ARTIST nor GENRE adds nothing to any album |
| FeedSignals.BoostCounts | lambda_functions/calculate_feed/index.py:70-79 | With distinct album ids, a boost is 50 per ARTIST subscription on the album's `artistId` plus 30 per GENRE subscription naming its genre ignoring case, without a cap |
| FeedSignals.AlbumsWeightUnique | lambda_functions/calculate_feed/index.py:72-79 | With distinct ids, the weight a subscription adds to an album's id is its weight for that album alone |
| FeedSignals.AlbumsWeightAbsent | lambda_functions/calculate_feed/index.py:72-79 | An id no album carries gains nothing |
| FeedSignals.CollectedSubscriptionsNeverMatchArtist | lambda_functions/calculate_feed/index.py:397-406 | The collector emits `targetId` and no `artistId`, so with its output no ARTIST subscription matches any album that has a string `artistId` |
| FeedSignals.SongRatings | lambda_functions/calculate_feed/index.py:81 | The song-ratings map has an entry exactly for each rated song id |
| FeedSignals.SongRatingsLastWins | lambda_functions/calculate_feed/index.py:81 | A song's entry holds the stars of its last rating |
| FeedSignals.GenreAffinity | lambda_functions/calculate_feed/index.py:84-95 | Every genre list built by the album loop holds at least one rating |
| FeedSignals.ArtistAffinity | lambda_functions/calculate_feed/index.py:84-95 | Every artist list built by the album loop holds at least one rating |
| FeedSignals.MinBelow | lambda_functions/calculate_feed/index.py:101-107 | Every rating lies between the list's smallest and largest |
| FeedSignals.SumAtLeast | lambda_functions/calculate_feed/index.py:101-107 | A sum is at least its length times a lower bound of its elements |
| FeedSignals.SumAtMost | lambda_functions/calculate_feed/index.py:101-107 | A sum is at most its length times an upper bound of its elements |
| FeedSignals.MeanBetween | lambda_functions/calculate_feed/index.py:101-107 | `sum / len` of a non-empty list lies between its smallest and largest element |
| FeedSignals.WithinBounds | lambda_functions/calculate_feed/index.py:101-107 | Every element lies between the list's smallest and largest |
| FeedSignals.Mean | lambda_functions/calculate_feed/index.py:103 | The average of a genre's or artist's ratings lies between their minimum and maximum |
| FeedSignals.BuildAffinity | lambda_functions/calculate_feed/index.py:84-95 | The album loop leaves exactly the specified genre and artist lists, and the last album's rated stars, which exist only when there was an album |
| FeedSignals.AddAlbumAt | lambda_functions/calculate_feed/index.py:88-95 | The loop body for album `i` extends the affinities of the albums before it to those up to it |
| FeedSignals.AffinityNone | lambda_functions/calculate_feed/index.py:84-86 | Before the loop both affinity maps are empty |
| FeedSignals.AffinityWhole | lambda_functions/calculate_feed/index.py:88-95 | The affinities of all albums are those the loop reaches at its end |
| FeedSignals.AffinityStep | lambda_functions/calculate_feed/index.py:88-95 | One more album extends its genre's and artist's lists by its rated stars |
| FeedSignals.ExtendBy | lambda_functions/calculate_feed/index.py:94-95 | Appending ratings under one key changes only that key's list, by exactly those ratings |
| FeedSignals.ExtendByKeepsNonEmpty | lambda_functions/calculate_feed/index.py:94-95 | Appending keeps every list non-empty, as a `defaultdict` key appears only on its first append |
| FeedSignals.AddAlbum | lambda_functions/calculate_feed/index.py:89-95 | The track loop collects the album's rated stars in track order and appends them to its genre and artist lists |
| FeedSignals.ExtendOne | lambda_functions/calculate_feed/index.py:93-95 | Appending one more rating is one more append to the key's list |
| FeedSignals.Averages | lambda_functions/calculate_feed/index.py:101-107 | The averaging loop gives exactly one mean per key that collected a rating |
| FeedSignals.BuildPlayCounters | lambda_functions/calculate_feed/index.py:114-136 | The history loop leaves exactly the specified counters |
| FeedSignals.RecordPlay | lambda_functions/calculate_feed/index.py:122-136 | One entry adds 1 to its genre and artist, 2 to the recent counters when within 30 days, and 1 to its genre at its hour |
| FeedSignals.GenreCounterCounts | lambda_functions/calculate_feed/index.py:127 | `genre_frequency[g]` is the number of entries of genre `g` |
| FeedSignals.ArtistCounterCounts | lambda_functions/calculate_feed/index.py:128 | `artist_frequency[a]` is the number of entries of artist `a` |
| FeedSignals.RecentGenreCounterCounts | lambda_functions/calculate_feed/index.py:130-131 | `recent_genre_frequency[g]` is twice the number of entries of `g` at or after `now` minus 30 days |
| FeedSignals.RecentArtistCounterCounts | lambda_functions/calculate_feed/index.py:130-132 | `recent_artist_frequency[a]` is twice the number of recent entries of `a` |
| FeedSignals.HourlyCounterCounts | lambda_functions/calculate_feed/index.py:135-136 | The hourly table holds genre `g` at hour `h` exactly when `g` was played then, with the number of such plays |
| FeedSignals.RecentAtMostAll | lambda_functions/calculate_feed/index.py:127-132 | Recent plays are among all plays, so the recent counter is at most twice the total |
| FeedSignals.HoursTotalStep | lambda_functions/calculate_feed/index.py:135-136 | One more entry adds one to the hourly total of its genre when its hour is counted |
| FeedSignals.NoHistoryNoHours | lambda_functions/calculate_feed/index.py:119 | Without history every hourly count is zero |
| FeedSignals.HoursAddUp | lambda_functions/calculate_feed/index.py:127-136 | Every play falls in one of the 24 hours, so a genre's hourly counts add up to its total |
| FeedSignals.BuildSignals | lambda_functions/calculate_feed/index.py:68-136 | The loops before scoring raise exactly when the catalogue is empty; otherwise every album reads from them exactly the numbers stated from the inputs |
| FeedSignals.TableMatches | lambda_functions/calculate_feed/index.py:142-187 | The accumulators the loops leave give an album the numbers stated from the inputs |
| FeedSignals.AlbumRatingFound | lambda_functions/calculate_feed/index.py:97-98 | `album_ratings` holds only the last album's mean, when it has rated tracks |
| FeedSignals.AverageFound | lambda_functions/calculate_feed/index.py:158-159 | Looking up an average agrees with averaging that key's list, and finds none for a key without ratings |
| FeedSignals.LookupMatches | lambda_functions/calculate_feed/index.py:145-183 | What the scoring loop reads for an album is the specified signal set |
| FeedSignals.AlbumRatingTerm | lambda_functions/calculate_feed/index.py:151-156 | The album-rating term is positive exactly for a rating of 4 or more and negative exactly for 2 or less |
| FeedSignals.GenreRatingTerm | lambda_functions/calculate_feed/index.py:158-163 | The genre-rating term is positive exactly at 3.5 or more and negative exactly at 2.5 or less |
| FeedSignals.ArtistRatingTerm | lambda_functions/calculate_feed/index.py:166-171 | The artist-rating term is positive exactly at 3.5 or more and negative exactly at 2.5 or less |
| FeedSignals.GenrePlayTerm | lambda_functions/calculate_feed/index.py:173-174 | The genre-play term on the combined (all-time plus doubled recent) count lies in [0, 30] and reaches 30 from 15 on |
| FeedSignals.ArtistPlayTerm | lambda_functions/calculate_feed/index.py:176-177 | The artist-play term on the combined count lies in [0, 40] and reaches 40 from 14 on |
| FeedSignals.HourTerm | lambda_functions/calculate_feed/index.py:179-181 | The hour term is 0 without plays at the current hour and lies in [5, 25] with them |
| FeedSignals.TrendTerm | lambda_functions/calculate_feed/index.py:183-184 | The trend term is 0 or 15 |
| FeedSignals.AversionTerm | lambda_functions/calculate_feed/index.py:186-187 | The aversion term is 0 or -20 |
| FeedSignals.TrendMeansRecentShare | lambda_functions/calculate_feed/index.py:183-184 | The trend bonus is given exactly when more than 15% of a genre's plays are recent |
| FeedSignals.OnlyLastAlbumRated | lambda_functions/calculate_feed/index.py:97-98 | An album whose id is not the last album's never carries an album rating |
| FeedSignals.NoRatingsNoStars | lambda_functions/calculate_feed/index.py:90-93 | Without ratings no track contributes stars |
| FeedSignals.NoStarsNoAffinity | lambda_functions/calculate_feed/index.py:88-95 | When no album has a rated track both affinity maps stay empty |
| FeedSignals.NoSignalsZeroScore | lambda_functions/calculate_feed/index.py:139-188 | With no subscriptions, ratings or history every album reads no signal and scores 0 |
| FeedSignals.ScoreTable | lambda_functions/calculate_feed/index.py:139-191 | `album_scores` has an entry exactly for each album id scored |
| FeedSignals.TableHoldsOwnScore | lambda_functions/calculate_feed/index.py:191 | With distinct ids, each album's entry holds its own score |
| FeedSignals.ScoreTableAgrees | lambda_functions/calculate_feed/index.py:191 | Two scorers that agree on every album give the same table |
| FeedSignals.ScoreTableTied | lambda_functions/calculate_feed/index.py:191 | When every album scores the same value, so does every entry |
| FeedSignals.ConvertAlbum | lambda_functions/calculate_feed/index.py:198 | Converting an album keeps its id and score and leaves no `Decimal` in it |
| CalculateFeed.TransformAlbumForResponse | lambda_functions/calculate_feed/index.py:311-339 | The response record holds exactly the copied keys and `stats`, with `stats.score` 0, no top-level `Decimal`, stored values kept and absent keys given their defaults |
| CalculateFeed.Copied | lambda_functions/calculate_feed/index.py:313-335 | A copied key is never a `Decimal`; it is the stored value when present and not a `Decimal`, and the key's default when absent |
| CalculateFeed.StatsNotCopied | lambda_functions/calculate_feed/index.py:318-339 | `stats` is added by the transform and never copied from the item |
| CalculateFeed.AlbumOf | lambda_functions/calculate_feed/index.py:139-148 | The scorer sees an album exactly when its id, artist and genre are strings, and keeps the whole record |
| CalculateFeed.TransformedAlbumStartsAtZero | lambda_functions/calculate_feed/index.py:336-338 | A freshly transformed album keeps its id and has score 0 |
| CalculateFeed.AlbumTracks | lambda_functions/calculate_feed/index.py:90 | The filter keeps exactly the content items whose `albumId` is the album's, and never more than there are |
| CalculateFeed.Rescored | lambda_functions/calculate_feed/index.py:189 | Rescoring keeps every album's id and position and sets its score |
| CalculateFeed.Feed | lambda_functions/calculate_feed/index.py:54-200 | `get_feed_albums` raises exactly when the catalogue is empty (`album_song_ratings` is then unbound) and otherwise returns one album per catalogue album |
| CalculateFeed.GetFeedAlbums | lambda_functions/calculate_feed/index.py:54-200 | The method returns the specified feed; on success the caller's albums now carry their scores, and on the error they are untouched |
| CalculateFeed.ScoreAlbums | lambda_functions/calculate_feed/index.py:139-191 | The scoring loop writes every album's score into it in place and records the same score under its id |
| CalculateFeed.RescoreStep | lambda_functions/calculate_feed/index.py:189-191 | One pass of the loop rescores album `i` and adds its entry to `album_scores` |
| CalculateFeed.FeedRanksByScore | lambda_functions/calculate_feed/index.py:194-198 | The feed is a permutation of the scored, converted catalogue, non-increasing in `album_scores`, with ties in catalogue order |
| CalculateFeed.RescoredKeys | lambda_functions/calculate_feed/index.py:189-196 | With distinct ids, the key an album is sorted by is the score written into it |
| CalculateFeed.WrittenScoreIsSortKey | lambda_functions/calculate_feed/index.py:189-196 | With distinct ids, every feed album carries in `stats.score` the number it was ranked by |
| CalculateFeed.KeysCarried | lambda_functions/calculate_feed/index.py:194-196 | Rearranging albums keeps the agreement between sort key and score |
| CalculateFeed.TiedRanking | lambda_functions/calculate_feed/index.py:194-196 | When every album scores 0 the stable sort keeps catalogue order |
| CalculateFeed.NoSignalsKeepsCatalogue | lambda_functions/calculate_feed/index.py:139-198 | With no subscriptions, ratings or history the feed is the catalogue in its own order, each album scored 0 |
| CalculateFeed.LowRatedGenreScoresNegative | lambda_functions/calculate_feed/index.py:158-187 | Scores are not floored: an album of a genre averaging 1 star scores -40 |
| GetFeed.TracksFor | lambda_functions/get_feed/index.py:98-99 | With a track dictionary, an album gets its list or none; with the HTTP-shaped dictionary, the lookup raises exactly for id `statusCode`, or `body` with a non-empty body, and otherwise yields no track |
| GetFeed.ResolveTracks | lambda_functions/get_feed/index.py:95-99 | The tracks of every album resolve exactly when each album's lookup does, one list per album in order |
| GetFeed.DiversityPenalty | lambda_functions/get_feed/index.py:213 | The diversity penalty is at most 10, and at least 0 for a non-negative play count |
| GetFeed.FlooredScore | lambda_functions/get_feed/index.py:213-216 | The stored score is never negative, and it is either 0 or the score less the penalty |
| GetFeed.Feed | lambda_functions/get_feed/index.py:57-226 | `get_feed_albums` raises exactly when the catalogue is empty or a track lookup raises, and otherwise returns one album per catalogue album |
| GetFeed.GetFeedAlbums | lambda_functions/get_feed/index.py:57-226 | The method returns the specified feed |
| GetFeed.ScoreAll | lambda_functions/get_feed/index.py:154-216 | The scoring loop leaves `album_scores` holding each album's score under its id |
| GetFeed.Handler | lambda_functions/get_feed/index.py:17-55 | The handler answers 200 with the feed and its count, one entry per album, or 500 |
| GetFeed.ScoresNonNegative | lambda_functions/get_feed/index.py:214-216 | Every score in `album_scores` is at least 0 |
| GetFeed.FeedRanksByScore | lambda_functions/get_feed/index.py:220-224 | The feed is a permutation of the converted catalogue, non-increasing in `album_scores`, ties in catalogue order, every key at least 0 |
| GetFeed.RankedConverted | lambda_functions/get_feed/index.py:220-224 | Converting after the sort is sorting the converted catalogue, and a table without negative entries gives no negative key |
| GetFeed.NoSignalsKeepsCatalogue | lambda_functions/get_feed/index.py:154-224 | With no subscriptions, ratings or history the feed is the converted catalogue in its own order |
| GetFeed.NoSignalsZeroFloored | lambda_functions/get_feed/index.py:154-216 | With no signals every album's floored score is 0 |
| GetFeed.TiedRanking | lambda_functions/get_feed/index.py:220-222 | When every album scores 0 the stable sort keeps catalogue order |
| GetFeed.EnvelopeStatusCodeRaises | lambda_functions/get_feed/index.py:34-36 | As called with the HTTP-shaped content, an album whose id is `statusCode` makes the handler answer 500 |
| GetFeed.NoTracksSameSignals | lambda_functions/get_feed/index.py:95-103 | When no album finds a track, ratings do not change any album's signals |
| GetFeed.EnvelopeIgnoresRatings | lambda_functions/get_feed/index.py:34-36 | As called with the HTTP-shaped content no album finds a track, so the user's ratings never change the response |
| Json.Get | lambda_functions/create_album/index.py:28 | `d.get(key)` is `None` for an absent key |
| Json.GetOr | lambda_functions/create_album/index.py:76-80 | `d.get(key, default)` is the stored value when present and the default otherwise |
| Json.Len | lambda_functions/create_artist/index.py:106 | `len` is defined exactly on strings, lists and dicts, and is positive exactly when the value is truthy |
| Json.DecimalsToFloat | lambda_functions/calculate_feed/index.py:242-251 | The result has the argument's shape, every `Decimal` leaf turned into a float of the same value and every other leaf kept, and holds no `Decimal` |
| Json.FloatsToDecimal | lambda_functions/calculate_feed/index.py:253-262 | The result holds no float |
| Json.DecimalsToFloatIdempotent | lambda_functions/calculate_feed/index.py:242-251 | Converting twice is converting once |
| Json.IdempotentItems | lambda_functions/calculate_feed/index.py:249-250 | The list case of idempotence |
| Json.IdempotentFields | lambda_functions/calculate_feed/index.py:247-248 | The dict case of idempotence |
| Json.DecimalsToFloatFixes | lambda_functions/calculate_feed/index.py:242-251 | A value without `Decimal` is left unchanged |
| Json.DecimalRoundTrip | lambda_functions/calculate_feed/index.py:203-262 | Data read from the store, which holds no float, is stored back unchanged after the feed's conversion to floats and back |
| Json.RoundTripItems | lambda_functions/calculate_feed/index.py:249-262 | The list case of the round trip |
| Json.RoundTripFields | lambda_functions/calculate_feed/index.py:247-258 | The dict case of the round trip |
| Json.FieldsBack | lambda_functions/calculate_feed/index.py:247-258 | A dict whose every value survives the round trip survives it whole |
| Text.LowerChar | lambda_functions/create_album/index.py:160 | A lower-cased character is never upper-case, and only upper-case letters change |
| Text.UpperChar | lambda_functions/discover/index.py:119 | An upper-cased character is never lower-case, and only lower-case letters change |
| Text.Lower | lambda_functions/create_album/index.py:160 | `lower()` keeps the length and lower-cases each character in place |
| Text.LowerIdempotent | lambda_functions/create_album/index.py:160 | Lower-casing twice is lower-casing once |
| Text.LStrip | lambda_functions/create_album/index.py:160 | `lstrip()` drops exactly the leading whitespace and keeps a suffix |
| Text.RStrip | lambda_functions/create_album/index.py:160 | `rstrip()` drops exactly the trailing whitespace and keeps a prefix |
| Text.Strip | lambda_functions/create_album/index.py:160 | `strip()` is empty exactly for blank text and neither starts nor ends with whitespace |
| Text.StripEmpty | lambda_functions/create_artist/index.py:92 | Stripping leaves nothing exactly when the text is blank |
| Text.StripFixed | lambda_functions/create_artist/index.py:147 | Text without surrounding whitespace is its own strip |
| Text.StripSlice | lambda_functions/create_album/index.py:160 | The stripped text is a contiguous slice of the original |
| Text.LowerFixed | lambda_functions/create_album/index.py:160 | Text without upper-case letters is its own lower-case form |
| Text.StripLowerIdempotent | lambda_functions/discover/index.py:75 | `lower().strip()` applied again changes nothing |
| Text.StripLowerHasNoUpper | lambda_functions/discover/index.py:75 | `lower().strip()` leaves no upper-case letter |
| Text.LStripChar | lambda_functions/monitor_transcription/index.py:138 | `lstrip('/')` drops exactly the leading slashes and keeps a suffix |
| Text.FindFrom | lambda_functions/create_music_content/index.py:203 | Searching from a position finds the first occurrence at or after it, or -1 when there is none |
| Text.Find | lambda_functions/create_music_content/index.py:203 | `find` gives the first index where the pattern occurs, and -1 exactly when it occurs nowhere |
| Text.ContainsAt | lambda_functions/create_music_content/index.py:265 | An occurrence at an index means the text contains the pattern |
| Text.Split | lambda_functions/monitor_transcription/index.py:362 | `split` always gives at least one piece |
| Text.SplitOnce | lambda_functions/monitor_transcription/index.py:142 | `split(sep, 1)` gives one or two pieces, and one, the whole text, exactly when the separator is absent |
| Text.Before | lambda_functions/create_music_content/index.py:221 | The first piece starts the text, holds no separator, and is followed by the separator when there is one |
| Text.SplitHeadIsBefore | lambda_functions/create_music_content/index.py:221 | `split(sep)[0]` is the text before the first separator |
| Text.SplitSecond | lambda_functions/create_music_content/index.py:36 | With a separator, `split(sep)[1]` exists, holds no separator and follows the first one |
| Text.SecondPieceStarts | lambda_functions/create_music_content/index.py:36 | The first piece, the separator and the start of the rest start the text |
| Text.RemoveAllWithout | lambda_functions/monitor_transcription/index.py:157 | `replace(pat, '')` leaves text without the pattern unchanged |
| Text.SplitJoin | lambda_functions/authorizer/index.py:102 | Splitting a comma-joined list gives the parts back when no part holds a comma |
| Text.NoCharNoFind | lambda_functions/create_album/index.py:79 | Splitting text without the separator gives it back whole |
| Text.NotAtBefore | lambda_functions/create_music_content/index.py:203 | No occurrence starts where one of its characters is missing |
| Text.NotContained | lambda_functions/create_music_content/index.py:203 | Text missing one of the pattern's characters does not contain it and splits to itself |
| Text.SplitFirst | lambda_functions/create_music_content/index.py:203 | Splitting cuts at the first occurrence, which is what `find` reports |
| Text.SplitOnly | lambda_functions/monitor_transcription/index.py:142 | Splitting at the only occurrence gives its two sides |
| Text.EndsWithSuffix | lambda_functions/monitor_transcription/index.py:362 | What ends a suffix ends the text |
| Text.LastPieceNoSep | lambda_functions/monitor_transcription/index.py:362 | `split(sep)[-1]` holds no separator |
| Text.LastPieceOfRest | lambda_functions/monitor_transcription/index.py:362 | Past the first separator the last piece is that of the rest |
| Text.LastPieceEnds | lambda_functions/monitor_transcription/index.py:362 | The last piece ends the text |
| Text.LastPieceAfterSep | lambda_functions/monitor_transcription/index.py:362 | With a separator, the last piece follows a separator at the end of the text |
| Text.JoinContainsPart | lambda_functions/authorizer/index.py:102 | A joined string contains each part |
| Text.TitleFrom | lambda_functions/discover/index.py:119 | Title-casing keeps the length |
| Text.Title | lambda_functions/discover/index.py:119 | `title()` keeps the length |
| Text.TitleKeepsLetters | lambda_functions/discover/index.py:119 | Title-casing changes only letter case: lower-cased, it is the lower-cased original |
| Text.DigitChar | lambda_functions/registration/index.py:105 | A digit value is written as a digit character |
| Text.NatToString | lambda_functions/registration/index.py:105 | `str(n)` is a non-empty run of digits without a leading zero |
| Text.NatToStringRoundTrip | lambda_functions/registration/index.py:105 | Reading back what `str(n)` wrote gives `n` |
| Text.FirstAt | lambda_functions/create_music_content/index.py:265 | The first separator is found where it is, and the last piece is that of what follows it |
| Text.LastPieceAfterLast | lambda_functions/create_music_content/index.py:265 | What follows the last separator is `split(sep)[-1]` |
| Text.WordCount | lambda_functions/monitor_transcription/index.py:210 | `len(text.split())` is at most the length, and 0 exactly for blank text |
| Text.WordCountAppend | lambda_functions/monitor_transcription/index.py:210 | A word appended after a space counts one more |
| Text.WordCountJoin | lambda_functions/monitor_transcription/index.py:210 | Words without whitespace joined by spaces count as their number |
| Text.WordCountOne | lambda_functions/monitor_transcription/index.py:210 | A non-empty run without whitespace is one word |
| Text.JoinSnoc | lambda_functions/update_music_content/index.py:94 | Joining one more part appends the separator and the part |
| Multipart.NonEmpty | lambda_functions/update_music_content/index.py:434-437 | An optional header is kept exactly when it is present and not empty |
| Multipart.Body | lambda_functions/update_music_content/index.py:411-415 | A part's data is what follows the blank line, less one final CRLF when there is one |
| Multipart.Delimiter | lambda_functions/update_music_content/index.py:401 | The delimiter `--boundary` is never empty, so splitting at it is defined |
| Multipart.InnerSections | lambda_functions/update_music_content/index.py:403-404 | The sections read are exactly those strictly between the first and the last delimiter, and none when there are fewer than two pieces |
| Multipart.Boundary | lambda_functions/update_music_content/index.py:144-150 | A boundary is found exactly when the header contains `boundary=`; it is what follows the first one, up to any next one |
| Multipart.ReadFields | lambda_functions/update_music_content/index.py:405-426 | The header loop gives the specified headers and data, and none for a blank section or one without a blank line |
| Multipart.ReadSection | lambda_functions/update_music_content/index.py:405-437 | One section yields the specified part |
| Multipart.ParseMultipart | lambda_functions/update_music_content/index.py:399-439 | `_parse_multipart` returns the parts of the inner sections, in order |
| Multipart.PartsNamed | lambda_functions/update_music_content/index.py:428-437 | Every part has a non-empty name, a kept file name or content type is never empty, and no section yields two parts |
| Multipart.PartData | lambda_functions/update_music_content/index.py:405-415 | A part comes from a non-blank section with a blank line, and its data is what follows that line less at most one CRLF |
| Multipart.SkippedSections | lambda_functions/update_music_content/index.py:405-410 | A blank section, or one without a blank line, yields nothing |
| Multipart.FewDelimitersNoParts | lambda_functions/update_music_content/index.py:403-404 | A body cut into two pieces or fewer yields no part |
| Multipart.DispositionPrefixChars | lambda_functions/update_music_content/index.py:419-422 | Where `Content-Disposition:` and `name="` sit in a field's disposition line |
| Multipart.PrefixNoReturn | lambda_functions/update_music_content/index.py:418 | The disposition prefix holds no carriage return, so it stays one header line |
| Multipart.PrefixQuoteLast | lambda_functions/update_music_content/index.py:421 | The prefix's only quote closes `name="` |
| Multipart.PrefixEqualsAt36 | lambda_functions/update_music_content/index.py:421 | The prefix's first `=` belongs to `name="` |
| Multipart.DispositionLineChars | lambda_functions/update_music_content/index.py:418 | A field's disposition line holds no carriage return |
| Multipart.DispositionLineKey | lambda_functions/update_music_content/index.py:421 | `name="` first occurs in a disposition line where the prefix ends with it |
| Multipart.DispositionLineSplit | lambda_functions/update_music_content/index.py:421 | Splitting a disposition line at `name="` gives the prefix and the quoted name |
| Multipart.BeforeQuote | lambda_functions/update_music_content/index.py:421 | A plain name is read up to its closing quote |
| Multipart.DispositionLineName | lambda_functions/update_music_content/index.py:420-421 | The name read from a field's disposition line is the field's name |
| Multipart.DispositionLineNoFilename | lambda_functions/update_music_content/index.py:422 | A plain field's disposition line gives no file name |
| Multipart.ReadDispositionLine | lambda_functions/update_music_content/index.py:419-423 | Reading a field's disposition line sets exactly its name |
| Multipart.EncodedHeaderLines | lambda_functions/update_music_content/index.py:418 | The header of an encoded section is an empty line and the disposition line |
| Multipart.EncodedBlankLine | lambda_functions/update_music_content/index.py:407 | The first blank line of an encoded section follows its header |
| Multipart.SectionRoundTrip | lambda_functions/update_music_content/index.py:405-437 | A section a client writes for a plain field is read back as that field's name and data, with no file name or type |
| Multipart.EncodedLayout | lambda_functions/update_music_content/index.py:405-415 | An encoded section is not blank, its blank line follows the header, and its data is read back whole |
| Multipart.EncodedHeaders | lambda_functions/update_music_content/index.py:418-426 | The header lines of an encoded section give the field's name alone |
| Multipart.BodyRoundTrip | lambda_functions/update_music_content/index.py:399-439 | A body whose inner sections encode plain fields is parsed into exactly those fields, in order |
| Multipart.EncodeSections | lambda_functions/update_music_content/index.py:403 | One encoded section per field, in order |
| Multipart.FieldParts | lambda_functions/update_music_content/index.py:428-437 | One part per field, with its name and data |
| Multipart.SectionPartsSnoc | lambda_functions/update_music_content/index.py:404-437 | One more section appends its part, if any |
| Multipart.EncodeSectionsSnoc | lambda_functions/update_music_content/index.py:403 | Encoding one more field appends its section |
| Multipart.FieldPartsSnoc | lambda_functions/update_music_content/index.py:428-437 | One more field appends its part |
| Multipart.SectionPartsOfFields | lambda_functions/update_music_content/index.py:404-437 | Sections encoding plain fields are read as those fields |
| Multipart.FilenamePrefixChars | lambda_functions/update_music_content/index.py:419-422 | Where the keys sit in a disposition line that gives `filename` before `name` |
| Multipart.NameAfterFilenameChars | lambda_functions/update_music_content/index.py:421 | Where `name="` sits after the file name |
| Multipart.FilenameFirstKey | lambda_functions/update_music_content/index.py:421 | With `filename` first, the first `name="` is the tail of `filename="` |
| Multipart.RealNameKey | lambda_functions/update_music_content/index.py:421 | The real `name="` follows the file name |
| Multipart.BeforeQuoteThen | lambda_functions/update_music_content/index.py:421 | A plain name followed by a quote is read up to it |
| Multipart.FilenameFirstSplit | lambda_functions/update_music_content/index.py:421 | With `filename` first, the second piece of the split ends before the real `name="` |
| Multipart.RealNameSplit | lambda_functions/update_music_content/index.py:421 | What precedes the real `name="` is the quoted file name and `; ` |
| Multipart.FilenameFirstQuoted | lambda_functions/update_music_content/index.py:421 | With `filename` first, the name read is the file name |
| Multipart.FilenameFirstIsDisposition | lambda_functions/update_music_content/index.py:419 | Such a line is a disposition line |
| Multipart.FilenameTakenAsName | lambda_functions/update_music_content/index.py:420-421 | A disposition line listing `filename` before `name` makes the part's name the file name |
| Multipart.ContentTypeLine | lambda_functions/update_music_content/index.py:425-426 | A `Content-Type:` line sets the type to the stripped rest of the line |
| Multipart.SelectParts | lambda_functions/update_music_content/index.py:153-163 | The part loop gives the specified selection, or fails on unreadable metadata |
| Multipart.SelectFailsFrom | lambda_functions/update_music_content/index.py:157-159 | Once metadata has failed to decode, the loop fails |
| Multipart.SelectFails | lambda_functions/update_music_content/index.py:157-159 | The loop fails exactly when some `metadata` part does not decode |
| Multipart.SelectLastFile | lambda_functions/update_music_content/index.py:160-163 | An audio file or a cover image is selected exactly when a part of that name exists, and it is the last one |
| Multipart.SelectLastMetadata | lambda_functions/update_music_content/index.py:153-159 | Without a `metadata` part the metadata is `None`; otherwise it is the last one's decoded value |
| Multipart.FileExtensionShape | lambda_functions/update_music_content/index.py:389-397 | The extension starts with a dot; apart from the three image types it is the file name's text after its last dot, and `.jpg` without a dot |
| CreateMusicContent.Resolve | lambda_functions/create_music_content/index.py:237 | The returned list reads each appended reference through to its dictionary, one entry per append |
| CreateMusicContent.AsWrittenStep | lambda_functions/create_music_content/index.py:199-237 | One section appends exactly once when it is read, raises exactly when it has no name and no dictionary exists yet, and keeps every reference valid |
| CreateMusicContent.AsWrittenSections | lambda_functions/create_music_content/index.py:199-237 | The loop over the sections keeps every reference valid |
| CreateMusicContent.ReadSectionAsWritten | lambda_functions/create_music_content/index.py:200-237 | The loop body for one section does the specified step |
| CreateMusicContent.ParseMultipartAsWritten | lambda_functions/create_music_content/index.py:194-239 | The creation handler's `_parse_multipart` returns the specified list, or raises where that says |
| CreateMusicContent.AsWrittenFailsFrom | lambda_functions/create_music_content/index.py:227-237 | Once the parser has raised, it has raised for the whole body |
| CreateMusicContent.Indices | lambda_functions/create_music_content/index.py:237 | The references `0..n-1`, one per dictionary |
| CreateMusicContent.AsWrittenWithoutNameless | lambda_functions/create_music_content/index.py:227-237 | Without nameless sections the parser keeps one dictionary per part, each appended once, and they are the update handler's parts |
| CreateMusicContent.StepNamed | lambda_functions/create_music_content/index.py:227-237 | A named or skipped section adds at most one new dictionary and reference |
| CreateMusicContent.AsWrittenAgrees | lambda_functions/create_music_content/index.py:194-239 | When every inner section is named or skipped both handlers' parsers return the same parts |
| CreateMusicContent.SkippedPrefix | lambda_functions/create_music_content/index.py:200-205 | Sections the parser skips leave it with nothing |
| CreateMusicContent.NamelessAfterSkipped | lambda_functions/create_music_content/index.py:227-237 | A nameless section with nothing appended before it raises |
| CreateMusicContent.NamelessFirstRaises | lambda_functions/create_music_content/index.py:227-237 | A nameless section before any named one makes the parser raise, `part` being unbound |
| CreateMusicContent.OneNamedSection | lambda_functions/create_music_content/index.py:227-237 | A single named section gives one dictionary, appended once |
| CreateMusicContent.NamelessAfterOne | lambda_functions/create_music_content/index.py:233-237 | A nameless section after a named one assigns its headers into that dictionary and appends it again |
| CreateMusicContent.NamedThenNamelessParts | lambda_functions/create_music_content/index.py:227-237 | The update handler's parser keeps only the named part of the same two sections |
| CreateMusicContent.StepNameless | lambda_functions/create_music_content/index.py:233-237 | The nameless step overrides the previous dictionary and appends a second reference to it |
| CreateMusicContent.NamelessRepeatsPart | lambda_functions/create_music_content/index.py:227-237 | A field followed by a nameless section comes back twice, as one shared dictionary, where the intended parser returns it once |
| CreateMusicContent.NamelessExample | lambda_functions/create_music_content/index.py:200-227 | A section holding `x` and a blank line is read and has no name |
| CreateMusicContent.MissingField | lambda_functions/create_music_content/index.py:62-68 | The first required field the metadata lacks, none exactly when it holds them all, and an error where `in` raises on the metadata |
| CreateMusicContent.CheckRequiredFields | lambda_functions/create_music_content/index.py:62-68 | The loop over the required fields gives the specified answer |
| CreateMusicContent.Optional | lambda_functions/create_music_content/index.py:158-161 | Exactly the optional fields the metadata holds truthy are copied, with their values |
| CreateMusicContent.CopyOptionalFields | lambda_functions/create_music_content/index.py:158-161 | The loop copies the specified fields |
| CreateMusicContent.Handle | lambda_functions/create_music_content/index.py:12-192 | The answer is 403 exactly for a non-administrator; a 201 stores an item after two uploads; any other status stores nothing |
| CreateMusicContent.Received | lambda_functions/create_music_content/index.py:56-192 | From the chosen parts, the answer is 201, 400 or 500; a 201 stores an item after two uploads and nothing else stores one |
| CreateMusicContent.StoreAudio | lambda_functions/create_music_content/index.py:70-101 | After the audio checks the audio upload comes first; only a 201 stores an item |
| CreateMusicContent.StoreCover | lambda_functions/create_music_content/index.py:103-163 | The cover checks, upload and item: a 201 stores an item after one upload; without a cover the handler fails with 500 |
| CreateMusicContent.Record | lambda_functions/create_music_content/index.py:139-161 | The item is built exactly when the metadata is a dictionary holding a title and an artist |
| CreateMusicContent.HandleRequest | lambda_functions/create_music_content/index.py:12-192 | The handler, step by step, gives the specified response and uploads |
| CreateMusicContent.ReceiveParts | lambda_functions/create_music_content/index.py:56-101 | From the chosen parts on, step by step, as specified |
| CreateMusicContent.StoreCoverAndItem | lambda_functions/create_music_content/index.py:103-181 | The cover and the item, step by step, as specified |
| CreateMusicContent.AudioUploadedIff | lambda_functions/create_music_content/index.py:56-101 | The audio is uploaded exactly when its checks pass, and is then the first upload |
| CreateMusicContent.CreatedIff | lambda_functions/create_music_content/index.py:56-181 | Content is created exactly when the metadata holds a title and an artist and both the audio and a cover image pass their checks |
| CreateMusicContent.NoCoverFailsAfterUpload | lambda_functions/create_music_content/index.py:104-153 | Without a cover nothing is created; once the audio passed it is uploaded and the handler answers 500 |
| CreateMusicContent.CoverRefusedAfterUpload | lambda_functions/create_music_content/index.py:104-110 | A cover of a type not allowed is refused with 400 after the audio has been uploaded |
| CreateMusicContent.CreatedItem | lambda_functions/create_music_content/index.py:88-161 | A created item holds the two uploads' keys, the metadata's title and artist, the audio's size and type, one timestamp for both dates, and genre and album exactly when given truthy |
| CreateMusicContent.UnboundPartFails | lambda_functions/create_music_content/index.py:43-192 | A request whose first section read has no name answers 500 |
| UpdateMusicContent.Clauses | lambda_functions/update_music_content/index.py:79 | One `#field = :field` clause per assignment, in order |
| UpdateMusicContent.AssignAllClauses | lambda_functions/update_music_content/index.py:77-81 | After a run of assignments the clauses are the earlier ones followed by one per assignment, in order |
| UpdateMusicContent.AssignAllNames | lambda_functions/update_music_content/index.py:81 | Exactly the assigned fields gain a `#field` name placeholder, each naming its field |
| UpdateMusicContent.AssignAllValueKeys | lambda_functions/update_music_content/index.py:80 | Exactly the assigned fields gain a `:field` value placeholder |
| UpdateMusicContent.AssignAllLastValue | lambda_functions/update_music_content/index.py:80 | A field's value placeholder holds the value of its last assignment |
| UpdateMusicContent.AssignAllKeepsValue | lambda_functions/update_music_content/index.py:218-223 | A placeholder no later assignment sets keeps its value |
| UpdateMusicContent.AssignAllAppend | lambda_functions/update_music_content/index.py:205-259 | Two runs of assignments are the first followed by the second |
| UpdateMusicContent.Present | lambda_functions/update_music_content/index.py:77-78 | The fields present and not `None` are never more than the fields, and on a dictionary they never raise |
| UpdateMusicContent.PresentMembers | lambda_functions/update_music_content/index.py:78 | On a dictionary the pairs are exactly the listed fields present with a value other than `None`, with that value |
| UpdateMusicContent.PresentDistinctFields | lambda_functions/update_music_content/index.py:75-81 | Distinct listed fields are each assigned at most once |
| UpdateMusicContent.AddFields | lambda_functions/update_music_content/index.py:77-81 | The field loop adds exactly the present fields, and raises exactly where a lookup on the body raises |
| UpdateMusicContent.AddField | lambda_functions/update_music_content/index.py:78-81 | One pass adds field `i` when it is present and not `None` |
| UpdateMusicContent.PresentFailsFrom | lambda_functions/update_music_content/index.py:77-78 | Once a lookup has raised the whole loop raises |
| UpdateMusicContent.WithLastModified | lambda_functions/update_music_content/index.py:83-92 | `lastModified` is appended with the current time exactly when there is a clause, keeping every other value; none when there is no clause |
| UpdateMusicContent.BuildJsonExpr | lambda_functions/update_music_content/index.py:71-92 | The JSON update builds the specified expression, or none |
| UpdateMusicContent.LastModifiedNotJsonField | lambda_functions/update_music_content/index.py:75-86 | `lastModified` is not one of the updatable fields |
| UpdateMusicContent.PresentEmptyIff | lambda_functions/update_music_content/index.py:77-78 | No field is present exactly when every field is absent or `None` |
| UpdateMusicContent.PresentValue | lambda_functions/update_music_content/index.py:78-80 | A present field has its value in the expression |
| UpdateMusicContent.JsonExprRefused | lambda_functions/update_music_content/index.py:83-92 | A JSON update is refused exactly when none of title, album, genre and cover image is present and not `None` |
| UpdateMusicContent.JsonExprClauses | lambda_functions/update_music_content/index.py:77-86 | An accepted JSON update's clauses are the present fields', in order, then `lastModified` |
| UpdateMusicContent.JsonExprValues | lambda_functions/update_music_content/index.py:78-85 | In an accepted JSON update each present field's placeholder holds its value |
| UpdateMusicContent.MultipartAssignments | lambda_functions/update_music_content/index.py:200-259 | The metadata fields, then the audio fields, then the cover fields, and always `lastModified` last; they raise exactly where the metadata lookups raise |
| UpdateMusicContent.BuildMultipartExpr | lambda_functions/update_music_content/index.py:200-259 | The multipart update builds the specified expression |
| UpdateMusicContent.MultipartExprNeverEmpty | lambda_functions/update_music_content/index.py:257-265 | A multipart update always has a clause, the last being `lastModified`, so its "no valid fields or files" answer is unreachable |
| UpdateMusicContent.ClauseInjective | lambda_functions/update_music_content/index.py:207 | Distinct fields have distinct clauses |
| UpdateMusicContent.ClausesMention | lambda_functions/update_music_content/index.py:207-216 | A field's clause appears exactly when the field is assigned |
| UpdateMusicContent.MultipartSetsKeyIffAudio | lambda_functions/update_music_content/index.py:211-229 | A multipart update sets the audio key exactly when it carries an audio file |
| UpdateMusicContent.FreshExprMentions | lambda_functions/update_music_content/index.py:200-259 | An expression built from nothing has a field's clause exactly when some assignment is to it |
| UpdateMusicContent.AssignsS3KeyIffAudio | lambda_functions/update_music_content/index.py:204-259 | Among the multipart assignments, one is to `s3Key` exactly when there is an audio file |
| UpdateMusicContent.NoS3KeyWithoutAudio | lambda_functions/update_music_content/index.py:204-259 | Without the audio fields no assignment is to `s3Key` |
| UpdateMusicContent.AudioFieldValues | lambda_functions/update_music_content/index.py:218-223 | The audio assignments set the file's size and its key |
| UpdateMusicContent.AfterAudioKeeps | lambda_functions/update_music_content/index.py:231-259 | The cover fields and `lastModified` leave the audio placeholders alone |
| UpdateMusicContent.MultipartAudioValues | lambda_functions/update_music_content/index.py:211-223 | A multipart update with an audio file stores its size and its key under the content id |
| UpdateMusicContent.MultipartStampsTime | lambda_functions/update_music_content/index.py:257-259 | Every multipart update sets `lastModified` to the time of the update |
| UpdateMusicContent.ReplaceFile | lambda_functions/update_music_content/index.py:300-387 | A replacement fails with no bucket call exactly when a check fails; otherwise it uploads under the new key last, after deleting the old key exactly when the item holds a truthy string there |
| UpdateMusicContent.TooLargeRefused | lambda_functions/update_music_content/index.py:309-312 | A file over the limit is refused with the limit in the message, and nothing is deleted or uploaded |
| UpdateMusicContent.DefaultTypeChecked | lambda_functions/update_music_content/index.py:304-307 | A part without a content type is checked as `audio/mpeg` or `image/jpeg` |
| UpdateMusicContent.TypeRefusedDiffers | lambda_functions/update_music_content/index.py:307-342 | The type, size and upload error messages differ |
| UpdateMusicContent.PrefixAt | lambda_functions/update_music_content/index.py:312 | Extending a string keeps its characters |
| UpdateMusicContent.DiffersAt | lambda_functions/update_music_content/index.py:307-312 | Strings differing at a position stay different once extended |
| UpdateMusicContent.Sanitized | lambda_functions/update_music_content/index.py:466-473 | The returned item has exactly the item's keys less `bucketName`, `s3Key` and `coverImageS3Key`, with their values |
| UpdateMusicContent.SanitizeItem | lambda_functions/update_music_content/index.py:466-473 | The pop loop removes exactly the storage attributes |
| UpdateMusicContent.SanitizedIdempotent | lambda_functions/update_music_content/index.py:466-473 | Sanitizing twice removes nothing more |
| UpdateMusicContent.Returned | lambda_functions/update_music_content/index.py:277-284 | The item returned has the stored keys less the storage ones, with Decimals written as floats |
| UpdateMusicContent.ContentIdOf | lambda_functions/update_music_content/index.py:44-48 | The query string's `contentId` when it is truthy; otherwise the body's when it has one; otherwise a falsy id |
| UpdateMusicContent.Handle | lambda_functions/update_music_content/index.py:13-38 | 403 exactly for a non-administrator; a 200 exactly when an update was sent and content returned, never with a storage attribute |
| UpdateMusicContent.HandleJson | lambda_functions/update_music_content/index.py:40-130 | The JSON path answers 200 exactly when it sends an update, returns sanitized content, and touches no file |
| UpdateMusicContent.HandleMultipart | lambda_functions/update_music_content/index.py:132-298 | The multipart path answers 200 exactly when it sends an update, and returns sanitized content |
| UpdateMusicContent.ReplaceFiles | lambda_functions/update_music_content/index.py:179-287 | After the stored item is found: audio, then cover, then the update; 200 exactly when the update is sent |
| UpdateMusicContent.JsonUpdateAccepted | lambda_functions/update_music_content/index.py:40-113 | An administrator's JSON update of stored content succeeds exactly when one updatable field is present and not `None`, and sends the JSON expression |
| UpdateMusicContent.MultipartRefusalsAreFileErrors | lambda_functions/update_music_content/index.py:182-265 | A multipart 400 after the parts are read carries the audio or cover replacement's error |
| UpdateMusicContent.CoverRefusedAfterAudio | lambda_functions/update_music_content/index.py:182-197 | A refused cover answers 400 with no update, after the new audio file has already been uploaded |
| UpdateMusicContent.FilesUpdatedIff | lambda_functions/update_music_content/index.py:180-285 | A successful multipart update lists audio, and sets the audio key, exactly when it carried an audio file; likewise the cover |
| Discover.PrecedesIrreflexive | lambda_functions/discover/index.py:108 | No genre name sorts strictly before itself under Python's string order |
| Discover.PrecedesTransitive | lambda_functions/discover/index.py:108 | The string order `sorted` uses is transitive |
| Discover.PrecedesTotal | lambda_functions/discover/index.py:108 | Any two distinct genre names are ordered one way or the other |
| Discover.PrecedesAsymmetric | lambda_functions/discover/index.py:108 | Two names are never each before the other |
| Discover.ElementsCons | lambda_functions/discover/index.py:108 | The names of a list with one more in front are that name plus the rest |
| Discover.ElementsNonEmpty | lambda_functions/discover/index.py:108 | The first name of a non-empty list is among its names |
| Discover.InsertSorted | lambda_functions/discover/index.py:75 | Adding a genre to the sorted set adds exactly that name and keeps it sorted with no repeats |
| Discover.PrecedesIncreasingFront | lambda_functions/discover/index.py:108 | A name before the head of a sorted list can be put in front of it |
| Discover.PrecedesIncreasingInsert | lambda_functions/discover/index.py:108 | Keeping the head and inserting into the sorted tail stays sorted |
| Discover.InsertAll | lambda_functions/discover/index.py:86-92 | Adding an item's genres adds exactly those names and keeps the set sorted |
| Discover.IncreasingUnique | lambda_functions/discover/index.py:108 | A strictly sorted list is determined by its names, whatever order they were gathered in |
| Discover.Normalize | lambda_functions/discover/index.py:147 | A lower-cased, stripped genre has no upper-case letter and no surrounding blanks, and is empty exactly when the lower-cased text is blank |
| Discover.TitleInjective | lambda_functions/discover/index.py:119 | Title casing sends distinct lower-case genres to distinct displayed names |
| Discover.GenreParam | lambda_functions/discover/index.py:147 | The genre is the normalised `genre` parameter (empty when missing), and reading it fails exactly when the value is not a string |
| Discover.LimitParam | lambda_functions/discover/index.py:151 | The limit is the parsed `limit` capped at 100, 20 when absent, and fails exactly when the value does not parse |
| Discover.Forward | lambda_functions/discover/index.py:150 | Results come newest first unless `sortBy` is given and differs from `newest`; `oldest` gives ascending order |
| Discover.DecodeLastKey | lambda_functions/discover/index.py:456-463 | An empty or malformed pagination key decodes to `None`; otherwise to the decoded value |
| Discover.EncodeLastKey | lambda_functions/discover/index.py:445-454 | A non-`None` encoded key comes from a non-empty key that encodes |
| Discover.Route | lambda_functions/discover/index.py:37-46 | The request is invalid exactly when the path ends with none of `/genres`, `/content`, `/artists`, `/albums` |
| Discover.SuffixSlice | lambda_functions/discover/index.py:37-44 | The ending of a path is the ending of its last piece |
| Discover.RouteGenres | lambda_functions/discover/index.py:37-38 | A path ending in `/genres` lists the genres |
| Discover.RouteContent | lambda_functions/discover/index.py:39-40 | A path ending in `/content` lists content |
| Discover.RouteArtists | lambda_functions/discover/index.py:41-42 | A path ending in `/artists` lists artists |
| Discover.RouteAlbums | lambda_functions/discover/index.py:43-44 | A path ending in `/albums` lists albums |
| Discover.ListingQuery | lambda_functions/discover/index.py:157-168 | A listing query carries the limit and at least one key; apart from the album index its first key is the genre; it starts after a key exactly when `lastKey` is given |
| Discover.Listing | lambda_functions/discover/index.py:232-311 | A listing never asks for more than 100 items, and its only refusal is the missing-genre 400 |
| Discover.FieldGenre | lambda_functions/discover/index.py:74-75 | A scanned item's genre adds nothing when empty, otherwise its lower-case normalised form |
| Discover.SecondaryGenre | lambda_functions/discover/index.py:91-92 | A secondary genre adds at most one lower-case name, none when blank |
| Discover.SecondaryEach | lambda_functions/discover/index.py:90-92 | An artist's secondary genres add only lower-case names |
| Discover.Secondary | lambda_functions/discover/index.py:90 | Iterating `genres` (a list, or a string character by character) adds only lower-case names |
| Discover.Contribution | lambda_functions/discover/index.py:73-105 | Every genre a scanned item adds is lower-case |
| Discover.GatheredElements | lambda_functions/discover/index.py:73-105 | The scan loop fails exactly when reading some item fails; otherwise it adds exactly the items' genres and keeps the set sorted |
| Discover.ContributedLowerCase | lambda_functions/discover/index.py:73-105 | Every gathered genre is lower-case |
| Discover.GatherGenres | lambda_functions/discover/index.py:73-105 | The scan loop computes the gathered genre set |
| Discover.GatheredRaises | lambda_functions/discover/index.py:73-105 | Once one item's genre cannot be read, the whole scan fails |
| Discover.Rows | lambda_functions/discover/index.py:112-124 | One catalogue row per genre name, in the names' order |
| Discover.GenreRows | lambda_functions/discover/index.py:111-124 | The row loop builds one row per genre name, in order |
| Discover.AvailableGenres | lambda_functions/discover/index.py:52-135 | The three scans, the row loop and the sort compute the genre catalogue |
| Discover.GenreNamesAreSortedUnion | lambda_functions/discover/index.py:59-108 | The catalogue's names exist exactly when all three scans read, and are the sorted union of content, artist and album genres |
| Discover.RowsByName | lambda_functions/discover/index.py:112-124 | Each row's total is the sum of its three counts, and distinct genres give distinct displayed names |
| Discover.PermutedSummed | lambda_functions/discover/index.py:127 | Reordering the rows keeps every total the sum of its counts |
| Discover.NamesLowerCase | lambda_functions/discover/index.py:108 | Every catalogue name is lower-case before title casing |
| Discover.GenresOrdered | lambda_functions/discover/index.py:108-127 | The catalogue is a reordering of the per-name rows, most items first, with ties kept in alphabetical order; totals are summed and displayed names are distinct |
| Discover.Handle | lambda_functions/discover/index.py:16-50 | The handler only answers 400 or the 500 internal error on failure, and never lists more than 100 items |
| Discover.BlankGenreRejected | lambda_functions/discover/index.py:147-155 | A blank genre is refused with 400 before any query, unless reading the limit failed first |
| Discover.EmptyGenreRejected | lambda_functions/discover/index.py:154-155 | A genre that normalises to nothing is refused with 400 once the limit is read |
| Discover.BlankGenreParam | lambda_functions/discover/index.py:147 | A genre that is blank once lower-cased reads as the empty genre |
| Discover.ListingQueries | lambda_functions/discover/index.py:147-168 | Every listed query comes from a non-empty normalised genre and a readable limit, asks at most 100 items and, except by album, is keyed by that genre |
| Discover.ContentIndexChoice | lambda_functions/discover/index.py:160-168 | Content lists by album in track order when an album id is given, else by genre and artist, else by genre by date; newest first unless `sortBy` says otherwise |
| Discover.PaginationResumes | lambda_functions/discover/index.py:249-264 | Sending back the returned `lastKey` resumes the query at the last evaluated key when the codecs invert each other |
| Discover.MalformedKeyIsNone | lambda_functions/discover/index.py:249-250 | A non-empty `lastKey` that does not decode is passed on as a `None` start key |
| Transcription.Show | lambda_functions/monitor_transcription/index.py:340 | Formatting a string gives the string itself, and an integer its decimal digits |
| Transcription.Below | lambda_functions/monitor_transcription/index.py:315 | The retry comparison has an answer exactly for numeric counts, and for an integer it is the plain comparison |
| Transcription.AudioFormat | lambda_functions/start_transcription/index.py:202-212 | The media format is always one of the five, `mp4` for `m4a`, the extension itself for the other four, `mp3` for anything else |
| Transcription.ExtensionAfterLastDot | lambda_functions/start_transcription/index.py:204 | The extension is the lower-cased text after the key's last dot |
| Transcription.M4aIsMp4 | lambda_functions/start_transcription/index.py:204-212 | A `.m4a` file, in any case, is transcribed as `mp4` |
| Transcription.ExtraClauses | lambda_functions/start_transcription/index.py:182-191 | One clause per extra attribute, in order |
| Transcription.BuildStatusUpdate | lambda_functions/start_transcription/index.py:171-191 | The update loop builds the status update for the given status, time and extra attributes |
| Transcription.StatusExpression | lambda_functions/start_transcription/index.py:175-191 | The expression is the base clause setting status and time, followed by one clause per extra attribute |
| Transcription.StatusExpressionStep | lambda_functions/start_transcription/index.py:185-190 | Each extra attribute appends its own clause to the expression |
| Transcription.ExtraClausesSnoc | lambda_functions/start_transcription/index.py:183-190 | The clauses of the attributes with one more are the earlier clauses and that attribute's clause |
| Transcription.ConcatSnoc | lambda_functions/start_transcription/index.py:188-190 | Appending one more clause extends the joined expression by that clause |
| Transcription.StatusValueKeys | lambda_functions/start_transcription/index.py:176-191 | The value placeholders are `:status`, `:updated_at` and one per extra attribute, and nothing else |
| Transcription.StatusExtraValues | lambda_functions/start_transcription/index.py:191 | With distinct attribute names, each extra attribute's placeholder holds its value |
| Transcription.StatusBaseValues | lambda_functions/start_transcription/index.py:176-179 | The status and time placeholders hold the given status and time unless an extra attribute reuses their names |
| Transcription.AddExtraKeepsBase | lambda_functions/start_transcription/index.py:183-191 | An extra attribute other than `status` or `updated_at` leaves the status and time placeholders alone |
| Transcription.StatusNamesSelf | lambda_functions/start_transcription/index.py:180-187 | Every name placeholder `#k` names the attribute `k` |
| Transcription.ReservedNamesIff | lambda_functions/start_transcription/index.py:185-187 | A name is among the reserved-attribute placeholders exactly when some reserved extra attribute has it |
| Transcription.StatusNames | lambda_functions/start_transcription/index.py:180-187 | The name placeholders are `#status` and one `#k` per reserved extra attribute |
| Transcription.AddExtraNames | lambda_functions/start_transcription/index.py:185-187 | Adding an attribute keeps every name placeholder naming its own attribute |
| Text.PrefixInjective | lambda_functions/start_transcription/index.py:191 | Placeholders built with the same prefix (`:key`, `#key`) are equal exactly when the attribute names are, so distinct attributes get distinct placeholders |
| Transcription.FailedUpdateShape | lambda_functions/start_transcription/index.py:120-123 | A failure update sets status `FAILED`, the time, the error and the failure time, with only `#status` aliased |
| StartTranscription.Decide | lambda_functions/start_transcription/index.py:34-61 | No record (or an empty one) proceeds; a record without a status, or a failed one with a non-numeric retry count, raises; `PROCESSING` and `COMPLETED` records answer at once, exactly those |
| StartTranscription.NewRecordFields | lambda_functions/start_transcription/index.py:148-163 | The new record holds the event's id, key and bucket, status `PROCESSING`, no retries and the time twice, and nothing else at top level |
| StartTranscription.MonitoringMessageFields | lambda_functions/start_transcription/index.py:214-222 | The monitor message names the content and the job, asks for monitoring, and has no other key |
| StartTranscription.Fail | lambda_functions/start_transcription/index.py:114-130 | The exception path keeps the calls made so far, then tries to mark the record `FAILED`, and answers 500 with the fixed error |
| StartTranscription.Start | lambda_functions/start_transcription/index.py:14-130 | The handler answers 200 or 500; a 500 carries only the fixed error; a 200 names the event's content id |
| StartTranscription.Launch | lambda_functions/start_transcription/index.py:63-112 | After the checks, the record is written first; the answer is 200 naming the content or the fixed 500 |
| StartTranscription.LaunchMarksFailed | lambda_functions/start_transcription/index.py:63-130 | Once the record is written, the answer is 500 exactly when the last call marks the record `FAILED` |
| StartTranscription.FailureMarksFailed | lambda_functions/start_transcription/index.py:14-130 | The handler answers 500 exactly when its last call marks the record `FAILED` |
| StartTranscription.FailEndsFailed | lambda_functions/start_transcription/index.py:114-130 | The exception path answers 500 and ends by marking the record `FAILED` |
| StartTranscription.FailedShape | lambda_functions/start_transcription/index.py:120-123 | The failure update sets the status to `FAILED` |
| StartTranscription.ProcessingShape | lambda_functions/start_transcription/index.py:94-97 | The job-start update sets status `PROCESSING` and records the job's name and start time |
| StartTranscription.MissingParametersFail | lambda_functions/start_transcription/index.py:30-31 | An event without a truthy id, key and bucket makes no call but the `FAILED` update, and answers 500 |
| StartTranscription.NoDuplicateJob | lambda_functions/start_transcription/index.py:42-61 | A record already `PROCESSING` or `COMPLETED` makes no call and answers 200 with that status and the content id |
| StartTranscription.StartedIff | lambda_functions/start_transcription/index.py:30-112 | A job is started exactly when the event is complete, the record allows it, the key is a string and the record is written; the answer names the job exactly when the other three calls succeed too |
| StartTranscription.LaunchStartedIff | lambda_functions/start_transcription/index.py:63-112 | After the checks, the job starts exactly when the key is a string and the record is written, and the start is reported exactly when all four calls succeed |
| StartTranscription.FailHasNoJob | lambda_functions/start_transcription/index.py:127-130 | The exception path names no job and keeps the calls made before it |
| StartTranscription.AlreadyHasNoJob | lambda_functions/start_transcription/index.py:44-61 | The answer about an existing job names no job |
| StartTranscription.StartedCalls | lambda_functions/start_transcription/index.py:64-112 | A successful start writes the record, starts the job on the event's bucket and key, records the job and queues the monitor message, all under one job name built from the content id |
| StartTranscription.ExhaustedRetriesRestart | lambda_functions/start_transcription/index.py:39-64 | A failed record that has used its 3 retries is not refused: it is started again and its new record resets the count to 0 |
| MonitorTranscription.MarkFailed | lambda_functions/monitor_transcription/index.py:262-296 | Marking a record failed makes exactly the `FAILED` update, and raises exactly when the write fails |
| MonitorTranscription.ProcessCompleted | lambda_functions/monitor_transcription/index.py:93-118 | Handling a completed job always makes a call, and raises only when the write marking the record `FAILED` fails too; what it stores is `parse_transcript`'s result as written on the downloaded document, whose confidence is always 0 |
| MonitorTranscription.Incremented | lambda_functions/monitor_transcription/index.py:340 | An integer retry count goes up by one |
| MonitorTranscription.MonitorMessage | lambda_functions/monitor_transcription/index.py:375-380 | The monitor message carries the transcription id and the job name under exactly four keys |
| MonitorTranscription.Retry | lambda_functions/monitor_transcription/index.py:327-358 | A retry never raises; it counts the retry first, then starts the retry job on the record's audio in its format, then queues it with a 60-second delay, each step only when the one before succeeded |
| MonitorTranscription.HandleFailed | lambda_functions/monitor_transcription/index.py:299-325 | Handling a failed job never raises |
| MonitorTranscription.Step | lambda_functions/monitor_transcription/index.py:36-62 | Only `COMPLETED` and `NOT_FOUND` can raise, and only when a write fails; `IN_PROGRESS` re-queues with a 120-second delay; `NOT_FOUND` marks the record failed; an unknown status does nothing |
| MonitorTranscription.ProcessRecord | lambda_functions/monitor_transcription/index.py:23-67 | A record counts as processed exactly when its body decodes, names a transcription and a job, its step raises nothing and it has a receipt handle; the handle is the record's |
| MonitorTranscription.Processed | lambda_functions/monitor_transcription/index.py:21-67 | No more records are processed than were received |
| MonitorTranscription.Handle | lambda_functions/monitor_transcription/index.py:16-74 | The handler answers 200 with the number of processed records, and makes every record's calls in order |
| MonitorTranscription.HandleRecord | lambda_functions/monitor_transcription/index.py:23-67 | One pass of the loop adds the record's calls and, when it counts, its receipt handle |
| MonitorTranscription.ProcessedCount | lambda_functions/monitor_transcription/index.py:69-74 | The processed count is the number of records whose handling raised nothing |
| MonitorTranscription.StartMessageIgnored | lambda_functions/monitor_transcription/index.py:26 | A message from the start handler has `contentId`, not `transcriptionId`, so reading it raises: no call and not counted |
| MonitorTranscription.StartBatchIgnored | lambda_functions/monitor_transcription/index.py:23-74 | A batch of start-handler messages processes nothing and calls nothing |
| MonitorTranscription.RequeuedMessageReadable | lambda_functions/monitor_transcription/index.py:26-27 | The monitor's own re-queued message is read back with its id and job name |
| MonitorTranscription.FailedJobRetriedIff | lambda_functions/monitor_transcription/index.py:310-321 | A failed job is retried exactly when its count is below 3, under the name `transcription-retry-<id>-<count + 1>`; otherwise the record is marked `Max retries exceeded` |
| MonitorTranscription.CompletedUsesLocation | lambda_functions/monitor_transcription/index.py:101-118 | A transcript address that cannot be located marks the record failed with that message; otherwise the downloaded transcript is stored as `parse_transcript` as written reads it |
| MonitorTranscription.CompletedSampleStoresEmpty | lambda_functions/monitor_transcription/index.py:104-109 | A completed job whose transcript is the sample document (`hello world`, one item at confidence 0.99) stores the empty parse: no text, no words, no items |
| TranscriptLocation.FirstOf | lambda_functions/monitor_transcription/index.py:130 | The cut is the first position holding a stop character, or the end when there is none |
| TranscriptLocation.Checked | lambda_functions/monitor_transcription/index.py:165-166 | A location is accepted exactly when both bucket and key are non-empty |
| TranscriptLocation.SplitBucketKey | lambda_functions/monitor_transcription/index.py:142-144 | The bucket holds no slash; with a slash the text is bucket, slash, key; without one the key is empty |
| TranscriptLocation.NoSlash | lambda_functions/monitor_transcription/index.py:142 | A text that does not contain `/` as a substring has no slash character |
| TranscriptLocation.Https | lambda_functions/monitor_transcription/index.py:133-153 | An accepted `https://` address always gives a non-empty bucket and key |
| TranscriptLocation.Locate | lambda_functions/monitor_transcription/index.py:120-166 | An accepted address has a non-empty bucket and key; one starting with neither `https://` nor `s3://` is refused |
| TranscriptLocation.LegacyUnreachable | lambda_functions/monitor_transcription/index.py:141-150 | The host `s3.amazonaws.com` already passes the path-style test, so the legacy branch is never reached |
| TranscriptLocation.FirstOfAppend | lambda_functions/monitor_transcription/index.py:130 | The cut in a text made of a stop-free part and a part starting with a stop is at their junction |
| TranscriptLocation.FirstOfNone | lambda_functions/monitor_transcription/index.py:130 | A text without stop characters is not cut |
| TranscriptLocation.HostAndPath | lambda_functions/monitor_transcription/index.py:130 | A URL's host is the text before its first slash, and its path starts at that slash |
| TranscriptLocation.StripOneSlash | lambda_functions/monitor_transcription/index.py:138 | Stripping leading slashes from `/key` gives back the key when it does not itself start with one |
| TranscriptLocation.LocateHttps | lambda_functions/monitor_transcription/index.py:128-131 | An `https://` address is read by its host and path |
| TranscriptLocation.VirtualHostChars | lambda_functions/monitor_transcription/index.py:133-134 | A virtual-hosted host `bucket.s3.region.amazonaws.com` holds no `/`, `?` or `#` |
| TranscriptLocation.VirtualHostParts | lambda_functions/monitor_transcription/index.py:134-136 | Such a host passes the virtual-hosted test and names the bucket before `.s3.` |
| TranscriptLocation.VirtualHostedRoundTrip | lambda_functions/monitor_transcription/index.py:133-138 | The virtual-hosted address of a bucket and key is located at that bucket and key |
| TranscriptLocation.BeforeMarker | lambda_functions/monitor_transcription/index.py:136 | The text before `.s3.` in `bucket.s3.rest` is the bucket, when the bucket has no dot |
| TranscriptLocation.S3RoundTrip | lambda_functions/monitor_transcription/index.py:155-159 | `s3://bucket/key` is located at that bucket and key, unless `s3://` reappears after the scheme |
| TranscriptLocation.PieceAtSlash | lambda_functions/monitor_transcription/index.py:142-144 | Cutting `bucket/key` at its first slash gives back the bucket and the key |
| TranscriptLocation.PathStyleRoundTrip | lambda_functions/monitor_transcription/index.py:140-144 | The path-style address of a bucket and key is located at that bucket and key |
| TranscriptText.ReadFront | lambda_functions/monitor_transcription/index.py:183-195 | Reading the document needs a dictionary; it reports no transcripts exactly when `results.transcripts` is empty or missing |
| TranscriptText.Iterate | lambda_functions/monitor_transcription/index.py:198 | A list of items is iterated as itself; iteration fails for anything but a list, a string or an empty dictionary |
| TranscriptText.ItemConfidence | lambda_functions/monitor_transcription/index.py:199-203 | An item yields at most one confidence, never `None`, and a non-dictionary item raises |
| TranscriptText.Confidences | lambda_functions/monitor_transcription/index.py:198-203 | When the item loop succeeds every item was readable, and there are at most as many confidences as items |
| TranscriptText.CollectConfidences | lambda_functions/monitor_transcription/index.py:196-203 | The item loop collects the confidences in order, or stops at the first item that raises |
| TranscriptText.ErrorPersists | lambda_functions/monitor_transcription/index.py:198-203 | Once an item raises, the whole loop raises with that error |
| TranscriptText.Finish | lambda_functions/monitor_transcription/index.py:207-214 | The result exists exactly when the text is a string or an empty value with a length; it keeps the text, items and confidence, and counts a string's words |
| TranscriptText.ParseTranscript | lambda_functions/monitor_transcription/index.py:180-224 | As written the confidence is always 0, and a document without transcripts gives the empty result |
| TranscriptText.Numbers | lambda_functions/monitor_transcription/index.py:205 | The confidences convert exactly when each one does, element by element |
| TranscriptText.ParseTranscriptIntended | lambda_functions/monitor_transcription/index.py:180-224 | With numeric confidences, a document without transcripts still gives the empty result |
| TranscriptText.SumBounds | lambda_functions/monitor_transcription/index.py:205 | The sum of values within a range lies between count times its ends |
| TranscriptText.OneMore | lambda_functions/monitor_transcription/index.py:205 | One more summand adds one more copy of the value |
| TranscriptText.MeanBounds | lambda_functions/monitor_transcription/index.py:205 | The average of values within a range lies in that range |
| TranscriptText.DivBounds | lambda_functions/monitor_transcription/index.py:205 | Dividing by the count keeps a bounded sum within the range |
| TranscriptText.IntendedReadsTranscript | lambda_functions/monitor_transcription/index.py:193-212 | With numeric confidences, the parse keeps the text and items, counts the words, and the average lies within the items' range (0 with none) |
| TranscriptText.AgreeWithoutConfidences | lambda_functions/monitor_transcription/index.py:196-205 | Where no item carries a confidence, the code as written and the numeric parse agree |
| TranscriptText.AnyConfidenceEmpties | lambda_functions/monitor_transcription/index.py:203-205 | As written, any item with a confidence makes `sum` of strings raise, so the text, word count and items are all lost |
| TranscriptText.OneItem | lambda_functions/monitor_transcription/index.py:198-203 | One item with a confidence yields exactly that confidence |
| TranscriptText.OneConfidence | lambda_functions/monitor_transcription/index.py:193-212 | One item with a convertible confidence under a string transcript: lost as written, read by the numeric parse |
| TranscriptText.SampleParts | lambda_functions/monitor_transcription/index.py:183-203 | The sample document has the text `hello world` and one item with confidence `0.99` |
| TranscriptText.HelloWorldWords | lambda_functions/monitor_transcription/index.py:210 | `hello world` has two words |
| TranscriptText.SampleShowsLoss | lambda_functions/monitor_transcription/index.py:198-212 | On the sample document the code as written returns the empty result, while the numeric parse gives its two words and confidence 0.99 |
| CreateAlbum.LettersFixed | lambda_functions/create_album/index.py:160 | A plain lower-case word is its own lower-cased strip |
| CreateAlbum.LowerStripped | lambda_functions/create_album/index.py:160 | A lower-case text with no surrounding blanks is its own lower-cased strip |
| CreateArtist.InReport | lambda_functions/create_artist/index.py:87-113 | In the joined report each error is found exactly when the check that can produce it produced it |
| FeedSignals.DivBetween | lambda_functions/calculate_feed/index.py:101-107 | Dividing a sum bounded by count times two bounds by the count lands between those bounds |
| Registration.Pad | lambda_functions/registration/index.py:122-128 | A zero-padded number has exactly the requested number of characters, all digits |
| Registration.PadValue | lambda_functions/registration/index.py:122-128 | The digits of a zero-padded number read back as that number when it fits |
| Registration.DigitsBound | lambda_functions/registration/index.py:122-128 | A number written with k digits is below 10 to the k |
| Registration.MonthFieldOfPad | lambda_functions/registration/index.py:125 | A zero-padded month from 1 to 12 followed by `-` reads back as that month, two characters long |
| Registration.DayFieldOfPad | lambda_functions/registration/index.py:125 | A zero-padded day from 1 to 31 reads back as that day |

## Left out

- AWS services are parameters of the model: DynamoDB scans, queries, gets, puts and updates; S3 uploads, deletions and presigned URLs; Transcribe; SQS; Cognito. Their behaviour is not modelled. What enters the model is the items they return. The transcription handlers also receive success flags for their calls. The music-content handlers assume that every store call succeeds, as the lines below say.
- CreateMusicContent.Handle: every `put_object` and the final `put_item` are assumed to succeed. In the source, a raising call reaches the outer `except` and answers 500 (`lambda_functions/create_music_content/index.py:187-192`). This also covers an item the store refuses, for example a float `genre` in the metadata, which boto3 rejects after both uploads. The model answers 201 there.
- CreateMusicContent.StoreAudio: the audio `put_object` (`lambda_functions/create_music_content/index.py:91`) is assumed to succeed, so its failure path to 500 is not modelled.
- CreateMusicContent.StoreCover: the cover `put_object` and the `put_item` (`lambda_functions/create_music_content/index.py:123`, `:163`) are assumed to succeed. A raising call, such as `put_item` of an item holding a float, would answer 500 after the uploads. The model answers 201.
- UpdateMusicContent.HandleJson: `get_item` and `update_item` are assumed to succeed. The source answers 500 "Error fetching existing content" or "Error updating content" when they raise (`lambda_functions/update_music_content/index.py:64-69`, `:114-119`). For example, `{"contentId":"c1","title":1.5}` gets 500 from the source, because boto3 refuses the float, and 200 from the model.
- UpdateMusicContent.HandleMultipart: `get_item` and `update_item` (`lambda_functions/update_music_content/index.py:172`, `:269`) are assumed to succeed. A raising call reaches the outer `except` and answers 500 (`:293-298`), which the model does not produce.
- UpdateMusicContent.ReplaceFile: the `put_object` of the new file is assumed to succeed. Its failure, caught at `lambda_functions/update_music_content/index.py:340` and `:385`, would report the upload error, which the model gives only for the failed checks it names. The model records the deletion of the old key as a call. The source catches a failed deletion and carries on, so its outcome changes nothing.
- The signal collectors of the feed handlers are not modelled: `get_subscriptions`, `get_ratings`, `get_user_history`, `get_all_albums` and `store_feed`. The scorers take their results as in-memory sequences. `_get_all_content` is modelled only by the envelope it returns.
- The thin CRUD handlers are not part of this model: get/create/delete of albums, artists, subscriptions, ratings, notifications, music content and transcriptions, plus history, login and refresh. Each is one or two store calls with response shaping.
- `notify_subscribers` is not part of this model: it is a thread-pool e-mail fan-out over SES.
- The CDK stacks and constructs are not part of this model. They are declarative resource wiring. Only `get_registration_config` is modelled.
- Library codecs are parameters: `json.loads`/`json.dumps`, base64, UTF-8 decoding, `int()` of a string, and `str()` of values other than strings and integers. For pagination keys, the model states only what the handler does with a codec's success or failure.
- `urllib.parse.urlparse` is modelled only for the host and path split the monitor uses; `;` parameters and user-info are not.
- The `re` engine is replaced by the one e-mail pattern, written out by hand. `strptime` is replaced by the `%Y-%m-%d` reading and a calendar check. Both read ASCII digits only (`Registration.AllDigits`, `Text.IsDigit`): `strptime`'s `\d` and `int()` also accept other Unicode decimal digits, which the model rejects.
- Floating point and `Decimal` are modelled by their exact values as `real`. `float(Decimal)` rounding, `Decimal(float)` exactness and the formatting of numbers are not modelled.
- Time handling:
  - Each clock reading is a parameter, and one request reads one time.
  - History timestamps are integer microseconds paired with their hour of day, so `fromisoformat` and the 30-day window are arithmetic on those integers.
  - `uuid4` identifiers are parameters.
- Case mapping (`lower`, `title`, `isalnum`) covers ASCII letters only. Unicode case mapping is not modelled. `isspace` follows Python's full whitespace list.
- Bytes are modelled as characters, one per byte, so the UTF-8 decoding of multipart headers is the identity.
- Exception texts produced by Python itself (a `KeyError`, a `TypeError`) are an unspecified `error` string. Messages the handlers compose themselves are modelled exactly.
- A missing environment variable (a `KeyError` on `os.environ`) is not modelled: the tables and queue always exist.
- Discover's `transform_*` functions only copy item fields into the response. The listings return the queried items without that reshaping.
- Discover.Secondary: a dictionary-valued `genres` attribute is treated as raising. Python would iterate its keys.
- CreateArtist.CleanGenres: a dictionary `genres` value gives `Err`, where Python's comprehension would iterate its keys. `CreateArtist.CreateArtistRecord` inherits this and refuses such input. The handler's validation already rejects a dictionary (`lambda_functions/create_artist/index.py:102-106`), so only a direct call of `create_artist_record` could reach the difference. Dictionary keys have no order in the model's `map`, so the key order Python would use cannot be stated.
- CalculateFeed.AlbumOf: the scorer sees only albums whose `albumId`, `artistId` and `genre` are strings. `get_all_albums` keeps an album stored without `artistId` or `genre` and gives it `None` there (`lambda_functions/calculate_feed/index.py:319-322`). With a `None` `artistId`, `None == sub.get('artistId')` holds for every collected ARTIST subscription, so in Python such an album gains 50 per ARTIST subscription. A `None` `genre` makes `album['genre'].lower()` raise for the whole feed, but only when there is at least one GENRE subscription: that call sits in the GENRE branch of the subscription loop (`lambda_functions/calculate_feed/index.py:78`, `lambda_functions/get_feed/index.py:84`). With no GENRE subscription, such an album is scored. Neither case is modelled.
- FeedSignals.CollectedSubscriptionsNeverMatchArtist: this holds only for albums with a string `artistId`. An album without one gains the ARTIST boost, as the `CalculateFeed.AlbumOf` line says.
- Discover.LimitParam: a float, boolean or `Decimal` `limit` is treated as raising. Python's `int()` would truncate a float and accept a boolean. API Gateway passes query parameters only as strings, so these values cannot arrive.
- MonitorTranscription.MarkFailed: the monitor addresses records by `transcriptionId`, while the start handler keys them by `contentId`. Whether such a write succeeds is the single `writesOk` parameter, so the mismatch is not modelled as a separate failure.
- `update_transcription_status` in `lambda_functions/monitor_transcription/index.py:262-296` is the same builder as the start handler's. One definition, `Transcription.StatusUpdateOf`, models both, and the rows above cite the start handler's copy.
- The loggers and the CORS and response-builder helpers are constant output and are not modelled.
- The unit test of the CDK stack imports a module the repository lacks and asserts nothing, so it has no counterpart here.

## Findings

| source | as written | input that shows it | evidently intended | confidence | as-written member | corrected member |
|---|---|---|---|---|---|---|
| lambda_functions/create_music_content/index.py:227-237 | `parts.append(part)` runs for every section, including one without a `name="`; such a section sets its file name and content type on the previous part and appends that part a second time, or raises when no named section came before it | a body with a named field section followed by a section whose headers carry no `name="` | a section without a name is skipped, as the update handler does | not executed | CreateMusicContent.NamelessRepeatsPart | Multipart.ParseMultipart |
| lambda_functions/monitor_transcription/index.py:198-205 | confidences are collected with `str(...)` and then passed to `sum`, which raises on strings; the handler catches the error and returns the empty result, so the transcript text and word count are lost | a result document with transcript `hello world` and one item whose first alternative has confidence `0.99` | the confidences are summed as numbers and averaged, keeping the text and its word count | not executed | TranscriptText.SampleShowsLoss | TranscriptText.IntendedReadsTranscript |
