# spotify-track-color, modelled in Dafny

The system is one HTTP Cloud Function, `getSpotifyTrackColor`. It answers
with a colour for the track the owner is playing on Spotify. The colour is
either the DarkVibrant swatch of the album art, or a colour a text-completion
model associates with the track's lyrics. When the caller sends a palette,
the answer is the palette entry nearest to that colour.

The model covers four parts of the function:

- `common.dfy` (module `Common`): the shared pieces.
  - Optional values and results.
  - The errors the function can throw.
  - JavaScript truthiness of an optional string.
  - The hex-colour notation `#RGB` / `#RRGGBB`, case-insensitive.
  - The trace of remote calls that each resolution carries.
- `utils.dfy` (module `Utils`): `hexToRgb` and `closestColor`.
  - `parseInt(_, 16)` follows the ECMAScript algorithm: white space, sign, `0x` prefix, the longest hex-digit run, `NaN` when the run is empty.
  - `substring` clamps both ends.
  - A `#RGB` colour therefore has a `NaN` blue channel, so its distance to anything is `NaN`.
  - The running-minimum scan is a method with a loop.
  - It is proved equal to an independent recursive specification: the lowest index at the minimal defined distance, or index 0 when no distance is defined.
  - Distances are squared integers; a lemma shows the square root does not change which candidate wins.
- `openai.dfy` (module `OpenAi`): `getColorFromLyrics`.
  - The API-key guard.
  - The single completion request.
  - The trailing-colour extraction `/#([0-9A-F]{3}){1,2}$/gi`, proved equal to a leftmost-match reading of the regular expression.
- `spotify.dfy` (module `Spotify`): the rest of the colour resolution.
  - The `spotify_auth` token store: a class whose `Auth` and `RefreshToken` methods update its record sequence, specified by the function `AuthSpec`.
  - The playback fetch.
  - The album and lyrics strategies.
  - The dispatch in `getColorFromTrack`, with its lyrics-to-album fallback.
- `endpoint.dfy` (module `Endpoint`): the request handler.
  - The `secret_key` header check.
  - The body schema.
  - The 401 → 400 → 500 ordering.
  - The rule that applies the palette only to a truthy colour and a non-empty palette.

Remote services and foreign libraries become function-typed parameters. These are the player endpoint, node-vibrant, genius-lyrics-api and the completion API. Each returns a payload or a failure. Every colour resolution carries the list of these calls, in order, so properties such as "no strategy is invoked" or "no completion is requested" are statements about that list. The token endpoint is different: its answer to a refresh is a plain input value `refresh` (a grant or a failure). The exchange does not appear in the call list; the token store counts it in its ghost field `refreshes`. The clock is an integer parameter `now`, in milliseconds.

Behaviours of the code that the model keeps as written:

- **Only a trailing colour is read from the completion.** The regular expression at `functions/src/openai.ts:32` is anchored with `$`. A colour anywhere but at the very end of the text is not found (`OpenAi.ColourNotAtEndIsMissed`).
- **An unconfigured lyrics provider is an error, not an absent result.** `getTrackLyrics` throws when the Genius token is missing (`functions/src/genius.ts:12-13`). The error propagates through `getColorFromTrack` without the album fallback, so the endpoint answers 500 (`Spotify.LyricsErrorPropagates`).
- **Nothing playing beats an unsupported mode.** `is_playing` is checked before the mode, so an unsupported mode answers `null` when nothing plays (`Spotify.NotPlayingIsNull`). The playback fetch is made in every case (`Spotify.GetColorFromTrack`).
- **The first valid token wins.** `docs.find` returns the first valid record in store order (`Spotify.FirstValid`).
- **Expiry is in milliseconds.** `expires_in` is multiplied by 1000 before it is added to the clock (`Spotify.AuthSpec`).
- **An empty palette yields `undefined`.** `closestColor` on an empty array answers `colorsArray[0]`, modelled as `None` (`Utils.ClosestColorOf`). The endpoint never calls it with an empty palette.

## Model

| member | source | states |
|---|---|---|
| Utils.ParseInt16 | functions/src/utils.ts:2-4 | `parseInt` of the empty string is `NaN`, which is what the empty `substring(5, 7)` of a `#RGB` colour reads |
| Utils.NoDigitsFrom | functions/src/utils.ts:2-4 | from any phase with no digit read yet, a string without hex digits reads as `NaN` |
| Utils.NoDigitsNoNumber | functions/src/utils.ts:2-4 | `parseInt(s, 16)` of a string without any hex digit is `NaN` |
| Utils.ParseOneDigit | functions/src/utils.ts:3 | one hex digit parses to its value |
| Utils.ParseTwoDigits | functions/src/utils.ts:2-4 | two hex digits parse to `16 * high + low` |
| Utils.Substring | functions/src/utils.ts:2-4 | `substring` never yields more than `end - start` characters, and inside the string it is the plain slice |
| Utils.ChannelAt | functions/src/utils.ts:2-4 | a channel read at two hex digits is their byte value |
| Utils.HexToRgb | functions/src/utils.ts:1-6 | a channel whose slice lies past the end of the string is `NaN`: blue for five characters or fewer, green too for three or fewer, all three for one or none |
| Utils.HexToRgbLong | functions/src/utils.ts:1-6 | for `#RRGGBB` in either case, the three channels are the bytes of characters 1–2, 3–4 and 5–6, each in 0..255 |
| Utils.HexToRgbShort | functions/src/utils.ts:1-6 | for `#RGB`, red is the byte of `RG`, green is the value of `B`, and blue is `NaN` |
| Utils.SquaredDistanceOrdersLikeDistance | functions/src/utils.ts:15-17 | for non-negative roots, `sqrt a < sqrt b` exactly when `a < b`, so comparing squared distances picks the same candidate |
| Utils.SqDistZeroIffSameChannels | functions/src/utils.ts:15-17 | with all channels defined, the distance is zero exactly when the channels agree |
| Utils.LongDistanceDefined | functions/src/utils.ts:13-17 | two `#RRGGBB` colours always have a defined distance |
| Utils.ShortDistanceUndefined | functions/src/utils.ts:13-17 | a `#RGB` target or candidate makes the distance `NaN` |
| Utils.SameChannelsIffSameColour | functions/src/utils.ts:1-6 | two `#RRGGBB` colours have the same channels exactly when they are equal ignoring case |
| Utils.DistanceZeroIffSameColour | functions/src/utils.ts:13-17 | the distance between two `#RRGGBB` colours is zero exactly when they are equal ignoring case |
| Utils.DistancesAt | functions/src/utils.ts:12-17 | the i-th distance of the palette is the distance from the target to the i-th candidate |
| Utils.NearestDefined | functions/src/utils.ts:12-23 | reference specification of the scan: `None` exactly when no candidate has a defined distance, otherwise the lowest index at the minimal defined distance |
| Utils.NearestIsUnique | functions/src/utils.ts:19-22 | the lowest index at minimal distance is unique |
| Utils.ClosestColorOf | functions/src/utils.ts:8-26 | for a non-empty palette the result is defined and an element of the palette; for an empty one it is `undefined` |
| Utils.ScanStep | functions/src/utils.ts:19-22 | one iteration with strict `<` keeps the running minimum and the first candidate at that minimum |
| Utils.ClosestColor | functions/src/utils.ts:8-26 | the running-minimum scan returns exactly the candidate `ClosestColorOf` specifies |
| Utils.ClosestIsNearest | functions/src/utils.ts:12-23 | with a `#RRGGBB` target, the result is at least as near as every `#RRGGBB` candidate |
| Utils.TieGoesToFirst | functions/src/utils.ts:19-22 | a candidate that an earlier candidate matches in distance is never chosen |
| Utils.ShortTargetKeepsFirst | functions/src/utils.ts:10-23 | a `#RGB` target never passes `<`, so the result is `colorsArray[0]` |
| Utils.ShortCandidateNeverWins | functions/src/utils.ts:19-22 | a `#RGB` candidate is chosen only as the default first entry, when no candidate has a defined distance |
| Utils.ExactMatchWins | functions/src/utils.ts:15-21 | with valid colours, the first candidate equal to a `#RRGGBB` target ignoring case is chosen |
| Utils.TargetFirstIsChosen | functions/src/utils.ts:8-26 | a colour placed first in its own palette is always the answer |
| Utils.NearestRedExample | functions/src/utils.ts:8-26 | `#FF0000` against `#00FF00`, `#FE0101` selects `#FE0101` |
| OpenAi.TrailingHex | functions/src/openai.ts:32 | a found colour is `#` and three or six hex digits, and is a suffix of the text |
| OpenAi.LeftmostMatchIsTrailing | functions/src/openai.ts:32 | the leftmost match of the anchored pattern from any position is the 7- or 4-character suffix |
| OpenAi.TrailingHexIsLeftmostMatch | functions/src/openai.ts:32 | the suffix test finds exactly the first match of `/#([0-9A-F]{3}){1,2}$/gi` |
| OpenAi.LongAndShortExclusive | functions/src/openai.ts:32 | the six-digit and three-digit suffixes never both match |
| OpenAi.ColourAtEndIsFound | functions/src/openai.ts:32 | a text ending in a hex colour yields that colour, whatever precedes it |
| OpenAi.ColourNotAtEndIsMissed | functions/src/openai.ts:32 | a colour followed by any non-hex character yields `undefined` |
| OpenAi.GetColorFromLyrics | functions/src/openai.ts:6-33 | a missing or empty key throws before any request; otherwise one completion request; a failed request propagates; no choices gives `undefined`; otherwise the result is exactly the trailing colour of the first choice's text (`TrailingHex`), a hex colour that ends that text |
| Spotify.FirstValid | functions/src/spotify.ts:41-43 | the first record with `expires_at > now`, all earlier ones expired; `None` exactly when none is valid |
| Spotify.AuthSpec | functions/src/spotify.ts:39-54 | a refresh happens exactly when no record is valid; without one, a valid record's token is served and the store is unchanged; with one, the store is exactly the new record (`now + expires_in * 1000`) and its token is served, or empty with the accounts failure |
| Spotify.TokenStore.RefreshToken | functions/src/spotify.ts:56-81 | one refresh exchange; on success the new token is returned and exactly one record with `expires_at = now + expires_in * 1000` is appended; on failure the error propagates and nothing is added |
| Spotify.TokenStore.Auth | functions/src/spotify.ts:39-54 | the returned token, the new record sequence and the refresh count are those of `AuthSpec` on the old records |
| Spotify.ValidRecordIsReused | functions/src/spotify.ts:40-45 | with a valid record the first valid token is returned; nothing is deleted and no refresh is made |
| Spotify.ExpiredStoreIsReplaced | functions/src/spotify.ts:44-52 | with no valid record every record read is deleted and one refresh is made; the store then holds exactly the new record and its token is returned |
| Spotify.ExpiringNowIsExpired | functions/src/spotify.ts:42 | a record expiring exactly now counts as expired |
| Spotify.TokenProvenance | functions/src/spotify.ts:39-54 | the token handed out is a stored valid record's or the refresh response's |
| Spotify.RefreshedTokenIsReused | functions/src/spotify.ts:75-79 | after a refresh with `expires_in > 0`, any later call before the expiry serves the new token without a refresh |
| Spotify.AtMostOneRecordIsKept | functions/src/spotify.ts:44-52 | with no other writer, a store of at most one record stays at most one record |
| Spotify.ExpiredOneSecondAgo | functions/src/spotify.ts:39-81 | a record that expired a second ago leads to one refresh, leaving one record with a future expiry |
| Spotify.ValidForAnHour | functions/src/spotify.ts:40-45 | a record valid for an hour is served, with no refresh and the store unchanged |
| Spotify.PlaybackFor | functions/src/spotify.ts:84-88 | with no token the error propagates and no request is made; with one, exactly one player request with that bearer token, answering its payload or a player failure |
| Spotify.GetPlaybackState | functions/src/spotify.ts:83-89 | the store and refresh count change as `auth` does, and the answer is `PlaybackFor` the token `auth` produced |
| Spotify.GetColorFromTrackAlbum | functions/src/spotify.ts:91-94 | one palette extraction of the first album image (or of no url); the result is its DarkVibrant hex or `null`; a failure propagates |
| Spotify.GetColorFromTrackLyrics | functions/src/spotify.ts:96-110 | a missing Genius token throws before any call; otherwise the lyrics lookup comes first; a failed lookup is a Genius failure with no further call; truthy lyrics give exactly the result of `getColorFromLyrics` on those lyrics, and the trace is the lookup followed by exactly the calls that `getColorFromLyrics` makes; absent or empty lyrics give `null` after the lookup alone |
| Spotify.ColorFromPlayback | functions/src/spotify.ts:116-136 | a failed fetch propagates with no calls; nothing playing is `null`; an unsupported mode throws; a missing item throws in both modes; album mode with a track makes exactly one extraction of `images[0]` and answers its DarkVibrant hex, or propagates its failure; a colour is found only for a playing item |
| Spotify.GetColorFromTrack | functions/src/spotify.ts:112-137 | the playback fetch through the token cache comes first, then the resolution from what it returned; the calls are both, in order, and the store changes as `auth` does |
| Spotify.UnsupportedModeFetchesFirst | functions/src/spotify.ts:116-134 | with a playing item, an unsupported mode throws after exactly the player request |
| Spotify.NotPlayingIsNull | functions/src/spotify.ts:116-119 | nothing playing gives `null` with no strategy invoked, for every mode |
| Spotify.AlbumModeUsesFirstImage | functions/src/spotify.ts:122-124 | album mode answers the DarkVibrant hex of `images[0]` with a single extraction |
| Spotify.AlbumErrorPropagates | functions/src/spotify.ts:91-94 | a failed palette extraction in album mode is the answer, after that one extraction, and is not read as `null` |
| Spotify.LyricsColourIsPreferred | functions/src/spotify.ts:125-131 | a truthy lyrics colour is the answer, with exactly the lyrics strategy's calls, so the album is not consulted |
| Spotify.LyricsFallBackToAlbum | functions/src/spotify.ts:125-131 | a `null` lyrics colour falls back to the album colour, extracted after the lyrics calls |
| Spotify.LyricsErrorPropagates | functions/src/spotify.ts:100-104 | an error in the lyrics path is the answer, with no album fallback |
| Spotify.NoLyricsNoCompletion | functions/src/spotify.ts:105-109 | without lyrics there is no completion request and the lyrics colour is `null` |
| Spotify.UnsupportedModeThrows | functions/src/spotify.ts:133-134 | a mode other than `album` or `lyrics` throws, once something plays |
| Spotify.ResolvedColourProvenance | functions/src/spotify.ts:112-137 | a resolved colour is the DarkVibrant hex of the playing track's first image, or, in lyrics mode, a hex colour that ends the first completion of the lyrics found for that track |
| Spotify.NoLyricsFallsBackToAlbumColour | functions/src/spotify.ts:125-131 | no lyrics and an album colour `#112233` answers `#112233` without a completion request |
| Endpoint.ValidateFrom | functions/src/index.ts:16-19 | `from` is accepted only as `album` or `lyrics`, defaulting to `album` when absent |
| Endpoint.ValidatePalette | functions/src/index.ts:20-23 | palette items are accepted exactly when every one is a string `#` + three or six hex digits, kept in order |
| Endpoint.ValidateColors | functions/src/index.ts:20-23 | `colors` is valid exactly when absent or an array of hex-colour strings; an absent key is no palette, and an array is kept item by item |
| Endpoint.ValidateBody | functions/src/index.ts:15-24 | the body is valid exactly when both keys are, and then carries the validated mode and palette |
| Endpoint.ResponseColor | functions/src/index.ts:56-58 | the palette applies only to a truthy colour and a non-empty palette, and then the answer is a palette member; otherwise the colour passes unchanged |
| Endpoint.GetSpotifyTrackColor | functions/src/index.ts:31-64 | only 401, 400 or 500 are bare statuses: 401 exactly when the configured secret is empty or the `secret_key` header is missing or differs from it, 400 exactly for a good header and a bad body, 500 exactly when the resolution of a valid request fails; otherwise a 200 with the resolved colour mapped onto the palette |
| Endpoint.PaletteEntryAccepted | functions/src/index.ts:22 | a palette entry is accepted exactly when it is `#` and three or six hex digits, in either case |
| Endpoint.BadSecretIs401 | functions/src/index.ts:36-41 | a bad or missing secret is 401 whatever the body and the resolution |
| Endpoint.BadBodyIs400 | functions/src/index.ts:43-49 | with the right secret, a body the schema rejects is 400 whatever the resolution |
| Endpoint.StatusFollowsResolution | functions/src/index.ts:51-63 | with a valid request, a resolution error is 500 and only that; otherwise a 200 carries the resolved colour mapped onto the palette |
| Endpoint.AlbumIsTheDefault | functions/src/index.ts:16-19 | a body without `from` is resolved in album mode |
| Endpoint.AnswerIsFromPalette | functions/src/index.ts:56-57 | with a non-empty palette, a non-empty answered colour is one of the palette's entries |
| Endpoint.NothingPlayingAnswersNull | functions/src/index.ts:51-60 | with nothing playing the answer is `{color: null}`, even with a palette |
| Endpoint.GreenAndRedPaletteIsValid | functions/src/index.ts:20-23 | the palette `#00FF00`, `#FE0101` passes the schema unchanged |
| Endpoint.RedTrackOnGreenAndRedPalette | functions/src/index.ts:51-60 | end to end: album art extracting to `#FF0000` with the palette `#00FF00`, `#FE0101` answers `#FE0101` |

## Left out

- Firestore and the batch commit are modelled as a sequence of records held by `Spotify.TokenStore`. The new record is appended; where Firestore lists it is immaterial, because the store is empty when a record is added.
- HTTP calls through axios become inputs that return a payload or a failure; non-2xx statuses are failures. The player request and the completion request are function-typed inputs. The token exchange is the input value `refresh`, counted by `TokenStore.refreshes` and not listed in the call trace.
- node-vibrant and genius-lyrics-api are foreign libraries. They are inputs from an image url, or from a title and an artist, to an optional string.
- Base64 encoding of the client credentials and the form encoding of the refresh request are Node library calls with no policy in them.
- Timestamps are integers of milliseconds rather than ISO strings compared as text. The two orders agree for dates in the ISO range, and `Date` range errors are not modelled.
- The clock is read once per `auth` call (`now`). The source reads it for each record and again in `refreshToken`; the difference is the time between those reads.
- Races between concurrent invocations on the token store are not modelled: there is no locking in the source, and an interleaving model would add nothing to the policy.
- The exact floating-point values of `Math.sqrt`, `Math.pow` and `Number.MAX_VALUE`. Distances are squared integers and the initial minimum is "unset"; `Utils.SquaredDistanceOrdersLikeDistance` justifies the choice. A negative zero from `parseInt("-0", 16)` is the integer 0, which gives the same distances.
- Configuration loading with dotenv, read-env and yup (`functions/src/config.ts`) is not part of this model. The secret key is a plain parameter. The handler `Endpoint.GetSpotifyTrackColor` answers 401 when it is empty, and only the lemmas about valid requests assume it non-empty; the Genius token and the OpenAI key are optional strings.
- Endpoint.ValidateBody: yup's casting of a non-array `colors` (for example a JSON string it would parse) is not modelled; any value other than an array or an absent key is rejected.
- The completion response's first choice is assumed to carry a `text` field; a choice without one would throw a TypeError in the source.
- The wording of the completion prompt is not modelled: the request records the lyrics, the model name, `max_tokens` and `temperature`, and the prompt is the fixed question around those lyrics.
- Strings are Dafny sequences of Unicode scalar values, while JavaScript's `substring` and regular expressions index UTF-16 code units. Positions differ in text with characters outside the Basic Multilingual Plane. Every colour and colour suffix the model reads is ASCII, and there the two agree.
- Endpoint.ValidateBody: a request body that is not a JSON object, which yup's object check rejects with 400, cannot be represented by `Body`.
- `functions/src/genius-lyrics-api.d.ts` is a type declaration only and is not part of this model. Of `functions/src/genius.ts`, only the missing-token throw is modelled, inside `Spotify.GetColorFromTrackLyrics`.
- The Firebase `onRequest` plumbing and the `send`/`sendStatus` side effects are left out; `Endpoint.GetSpotifyTrackColor` returns the decision as a `Response` value.
