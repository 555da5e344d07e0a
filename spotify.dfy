/** The Spotify side: a persisted bearer-token cache with expiry-driven
    refresh, the playback-state fetch, the two colour strategies (album art
    and lyrics) and the dispatch with its lyrics-to-album fallback. */
module Spotify {
  import opened Common
  import OpenAi

  // ---------------------------------------------------------------------
  // The token store
  // ---------------------------------------------------------------------

  /** A document of the `spotify_auth` collection; times are milliseconds. */
  datatype TokenRecord = TokenRecord(accessToken: string, expiresAt: int)

  /** The fields of a successful refresh response that the code reads;
      `expiresIn` is in seconds. */
  datatype TokenGrant = TokenGrant(accessToken: string, expiresIn: int)

  /** A record is usable only while its expiry is strictly later than now. */
  predicate IsValid(record: TokenRecord, now: int) {
    record.expiresAt > now
  }

  /** `snapshot.docs.find(doc => doc.expires_at > now)`: the first valid record. */
  function FirstValid(records: seq<TokenRecord>, now: int): (r: Option<nat>)
    ensures r.None? <==> forall i :: 0 <= i < |records| ==> !IsValid(records[i], now)
    ensures r.Some? ==> r.value < |records| && IsValid(records[r.value], now) &&
                        forall i :: 0 <= i < r.value ==> !IsValid(records[i], now)
  {
    if |records| == 0 then None
    else if IsValid(records[0], now) then Some(0)
    else
      match FirstValid(records[1..], now)
      case None => None
      case Some(i) => Some(i + 1)
  }

  /** `new Date(now + expiresIn * 1000)`. */
  function ExpiryOf(grant: TokenGrant, now: int): int {
    now + grant.expiresIn * 1000
  }

  /** The observable effect of one `auth` call: the token (or the refresh
      failure), the store afterwards, and whether a refresh was made. */
  datatype AuthOutcome = AuthOutcome(token: Result<string>, store: seq<TokenRecord>, refreshed: bool)

  /** `auth` as a function of the records it reads, the clock and the answer
      the token endpoint would give. */
  function AuthSpec(records: seq<TokenRecord>, now: int, refresh: Fetched<TokenGrant>): (r: AuthOutcome)
    ensures r.refreshed <==> forall i :: 0 <= i < |records| ==> !IsValid(records[i], now)
    ensures !r.refreshed ==> r.store == records &&
                             exists i :: 0 <= i < |records| && IsValid(records[i], now) &&
                                         r.token == Ok(records[i].accessToken)
    ensures r.refreshed && refresh.Failed? ==> r == AuthOutcome(Err(RemoteFailure(SpotifyAccounts)), [], true)
    ensures r.refreshed && refresh.Got? ==>
              r.token == Ok(refresh.payload.accessToken) &&
              r.store == [TokenRecord(refresh.payload.accessToken, ExpiryOf(refresh.payload, now))]
  {
    match FirstValid(records, now)
    case Some(i) => AuthOutcome(Ok(records[i].accessToken), records, false)
    case None =>
      match refresh
      case Failed => AuthOutcome(Err(RemoteFailure(SpotifyAccounts)), [], true)
      case Got(grant) =>
        AuthOutcome(Ok(grant.accessToken), [TokenRecord(grant.accessToken, ExpiryOf(grant, now))], true)
  }

  /** The `spotify_auth` collection, as the records a `get()` lists. */
  class TokenStore {
    var records: seq<TokenRecord>
    /** How many refresh exchanges this store has triggered. */
    ghost var refreshes: nat

    constructor (initial: seq<TokenRecord>)
      ensures records == initial && refreshes == 0
    {
      records := initial;
      refreshes := 0;
    }

    /** `refreshToken`: one exchange with the token endpoint; on success one
        new record is added and its token returned, on failure the error
        propagates and nothing is added. */
    method RefreshToken(now: int, refresh: Fetched<TokenGrant>) returns (token: Result<string>)
      modifies this
      ensures refreshes == old(refreshes) + 1
      ensures refresh.Failed? ==> token == Err(RemoteFailure(SpotifyAccounts)) && records == old(records)
      ensures refresh.Got? ==>
                token == Ok(refresh.payload.accessToken) &&
                records == old(records) + [TokenRecord(refresh.payload.accessToken, ExpiryOf(refresh.payload, now))]
    {
      refreshes := refreshes + 1;
      match refresh
      case Failed =>
        token := Err(RemoteFailure(SpotifyAccounts));
      case Got(grant) =>
        records := records + [TokenRecord(grant.accessToken, ExpiryOf(grant, now))];
        token := Ok(grant.accessToken);
    }

    /** `auth`: the first valid record's token, or delete every record read
        and refresh. */
    method Auth(now: int, refresh: Fetched<TokenGrant>) returns (token: Result<string>)
      modifies this
      ensures var outcome := AuthSpec(old(records), now, refresh);
              token == outcome.token && records == outcome.store &&
              refreshes == old(refreshes) + (if outcome.refreshed then 1 else 0)
    {
      var valid := FirstValid(records, now);
      if valid.Some? {
        token := Ok(records[valid.value].accessToken);
      } else {
        records := [];
        token := RefreshToken(now, refresh);
      }
    }
  }

  // ---------------------------------------------------------------------
  // Properties of the token cache
  // ---------------------------------------------------------------------

  /** A valid record is served: the first valid one in store order, with the
      store untouched and no refresh, whatever the token endpoint would say. */
  lemma ValidRecordIsReused(records: seq<TokenRecord>, now: int, refresh: Fetched<TokenGrant>, i: nat)
    requires i < |records| && IsValid(records[i], now)
    ensures var outcome := AuthSpec(records, now, refresh);
            !outcome.refreshed && outcome.store == records &&
            exists k :: 0 <= k <= i && IsValid(records[k], now) && outcome.token == Ok(records[k].accessToken) &&
                        forall j :: 0 <= j < k ==> !IsValid(records[j], now)
  {
    var k := FirstValid(records, now).value;
    assert 0 <= k <= i && IsValid(records[k], now);
  }

  /** When nothing is valid every record is dropped, one refresh is made, and
      the store afterwards is exactly the new record (or empty if the refresh failed). */
  lemma ExpiredStoreIsReplaced(records: seq<TokenRecord>, now: int, refresh: Fetched<TokenGrant>)
    requires forall i :: 0 <= i < |records| ==> !IsValid(records[i], now)
    ensures var outcome := AuthSpec(records, now, refresh);
            outcome.refreshed &&
            (refresh.Failed? ==> outcome.token == Err(RemoteFailure(SpotifyAccounts)) && outcome.store == []) &&
            (refresh.Got? ==>
               outcome.token == Ok(refresh.payload.accessToken) &&
               outcome.store == [TokenRecord(refresh.payload.accessToken, ExpiryOf(refresh.payload, now))])
  {
  }

  /** Expiry is strict: a record that expires exactly now is not served. */
  lemma ExpiringNowIsExpired(token: string, now: int, refresh: Fetched<TokenGrant>)
    ensures AuthSpec([TokenRecord(token, now)], now, refresh).refreshed
  {
  }

  /** The token handed out is either a stored valid record's or the one the
      refresh just returned. */
  lemma TokenProvenance(records: seq<TokenRecord>, now: int, refresh: Fetched<TokenGrant>)
    requires AuthSpec(records, now, refresh).token.Ok?
    ensures var t := AuthSpec(records, now, refresh).token.value;
            (exists i :: 0 <= i < |records| && IsValid(records[i], now) && records[i].accessToken == t) ||
            (refresh.Got? && refresh.payload.accessToken == t)
  {
    match FirstValid(records, now)
    case Some(i) =>
    case None =>
  }

  /** After a successful refresh with a positive lifetime, every later call
      made before the new expiry serves the new token without refreshing. */
  lemma {:induction false} RefreshedTokenIsReused(records: seq<TokenRecord>, now: int, grant: TokenGrant,
                                                  later: int, refresh: Fetched<TokenGrant>)
    requires forall i :: 0 <= i < |records| ==> !IsValid(records[i], now)
    requires grant.expiresIn > 0 && now <= later < ExpiryOf(grant, now)
    ensures var first := AuthSpec(records, now, Got(grant));
            var second := AuthSpec(first.store, later, refresh);
            second == AuthOutcome(Ok(grant.accessToken), first.store, false)
  {
    var first := AuthSpec(records, now, Got(grant));
    assert first.store == [TokenRecord(grant.accessToken, ExpiryOf(grant, now))];
    assert FirstValid(first.store, later) == Some(0);
  }

  /** The store never holds more than one record once it holds at most one:
      with no other writer, `auth` keeps it at a single record. */
  lemma AtMostOneRecordIsKept(records: seq<TokenRecord>, now: int, refresh: Fetched<TokenGrant>)
    requires |records| <= 1
    ensures |AuthSpec(records, now, refresh).store| <= 1
  {
  }

  // ---------------------------------------------------------------------
  // Playback state
  // ---------------------------------------------------------------------

  /** The fields of the playing item that the colour strategies read:
      the track name, the artists' names and the album images' urls. */
  datatype Track = Track(name: string, artists: seq<string>, imageUrls: seq<string>)

  /** The player state; `item` is absent when nothing is loaded. An empty
      answer (nothing playing) reads as `isPlaying == false`. */
  datatype Playback = Playback(isPlaying: bool, item: Option<Track>)

  /** The player request made with the token `auth` produced: none when
      `auth` failed, otherwise one GET with that bearer token. */
  function PlaybackFor(token: Result<string>, player: string -> Fetched<Playback>): (r: Traced<Result<Playback>>)
    ensures token.Err? ==> r == Traced(Err(token.error), [])
    ensures token.Ok? ==> r.calls == [PlaybackCall(token.value)] &&
                          (r.value.Ok? <==> player(token.value).Got?) &&
                          (r.value.Ok? ==> r.value.value == player(token.value).payload) &&
                          (r.value.Err? ==> r.value.error == RemoteFailure(SpotifyPlayer))
  {
    match token
    case Err(e) => Traced(Err(e), [])
    case Ok(t) =>
      var answer := match player(t)
        case Failed => Err(RemoteFailure(SpotifyPlayer))
        case Got(p) => Ok(p);
      Traced(answer, [PlaybackCall(t)])
  }

  /** `getPlaybackState`: a bearer token from the cache, then one GET of the player state. */
  method GetPlaybackState(store: TokenStore, now: int, refresh: Fetched<TokenGrant>,
                          player: string -> Fetched<Playback>) returns (r: Traced<Result<Playback>>)
    modifies store
    ensures var outcome := AuthSpec(old(store.records), now, refresh);
            store.records == outcome.store &&
            store.refreshes == old(store.refreshes) + (if outcome.refreshed then 1 else 0) &&
            r == PlaybackFor(outcome.token, player)
  {
    var token := store.Auth(now, refresh);
    r := PlaybackFor(token, player);
  }

  // ---------------------------------------------------------------------
  // Colour strategies
  // ---------------------------------------------------------------------

  /** The credentials the lyrics strategy needs; absent or empty means unconfigured. */
  datatype Config = Config(geniusToken: Option<string>, openAiKey: Option<string>)

  /** Palette extraction of an image (absent url included): its DarkVibrant hex, if any. */
  type VibrantOracle = Option<string> -> Fetched<Option<string>>
  /** Lyrics lookup by title and artist. */
  type LyricsOracle = (string, Option<string>) -> Fetched<Option<string>>
  /** Text completion: the texts of the choices. */
  type CompletionOracle = CompletionRequest -> Fetched<seq<string>>

  /** `track.album.images[0]?.url`. */
  function ImageUrl(track: Track): Option<string> {
    if |track.imageUrls| > 0 then Some(track.imageUrls[0]) else None
  }

  /** `track.artists[0]?.name`. */
  function Artist(track: Track): Option<string> {
    if |track.artists| > 0 then Some(track.artists[0]) else None
  }

  /** `getColorFromTrackAlbum`: the DarkVibrant hex of the first album image, or `null`. */
  function GetColorFromTrackAlbum(track: Track, vibrant: VibrantOracle): (r: Traced<Result<Option<string>>>)
    ensures r.calls == [VibrantCall(ImageUrl(track))]
    ensures r.value.Ok? <==> vibrant(ImageUrl(track)).Got?
    ensures r.value.Ok? ==> r.value.value == vibrant(ImageUrl(track)).payload
    ensures r.value.Err? ==> r.value.error == RemoteFailure(Vibrant)
  {
    var url := ImageUrl(track);
    var answer := match vibrant(url)
      case Failed => Err(RemoteFailure(Vibrant))
      case Got(hex) => Ok(hex);
    Traced(answer, [VibrantCall(url)])
  }

  /** `getColorFromTrackLyrics`: the lyrics lookup (which throws when the
      Genius token is missing), and a completion only when the lyrics are
      non-empty; no lyrics yields `null`. */
  function GetColorFromTrackLyrics(config: Config, track: Track, genius: LyricsOracle,
                                   completion: CompletionOracle): (r: Traced<Result<Option<string>>>)
    ensures !Truthy(config.geniusToken) ==> r == Traced(Err(MissingGeniusToken), [])
    ensures Truthy(config.geniusToken) ==> |r.calls| > 0 && r.calls[0] == GeniusCall(track.name, Artist(track))
    ensures r.value.Ok? && r.value.value.Some? ==> IsHexColor(r.value.value.value)
    ensures Truthy(config.geniusToken) && genius(track.name, Artist(track)).Failed? ==>
              r == Traced(Err(RemoteFailure(Genius)), [GeniusCall(track.name, Artist(track))])
    ensures Truthy(config.geniusToken) && genius(track.name, Artist(track)).Got? ==>
              var lyrics := genius(track.name, Artist(track)).payload;
              (Truthy(lyrics) ==>
                 r.value == OpenAi.GetColorFromLyrics(config.openAiKey, lyrics.value, completion).value &&
                 r.calls == [GeniusCall(track.name, Artist(track))] +
                            OpenAi.GetColorFromLyrics(config.openAiKey, lyrics.value, completion).calls) &&
              (!Truthy(lyrics) ==> r == Traced(Ok(None), [GeniusCall(track.name, Artist(track))]))
  {
    if !Truthy(config.geniusToken) then Traced(Err(MissingGeniusToken), [])
    else
      var lookup := GeniusCall(track.name, Artist(track));
      match genius(track.name, Artist(track))
      case Failed => Traced(Err(RemoteFailure(Genius)), [lookup])
      case Got(lyrics) =>
        if Truthy(lyrics) then
          var color := OpenAi.GetColorFromLyrics(config.openAiKey, lyrics.value, completion);
          Traced(color.value, [lookup] + color.calls)
        else Traced(Ok(None), [lookup])
  }

  /** The body of `getColorFromTrack(config, from)` after the playback
      fetch: `null` when nothing plays, then the album strategy, or the
      lyrics strategy with a fallback to the album when its colour is falsy;
      any other mode throws. Errors of the fetch and of the strategies propagate. */
  function ColorFromPlayback(config: Config, from: string, playback: Result<Playback>,
                             vibrant: VibrantOracle, genius: LyricsOracle,
                             completion: CompletionOracle): (r: Traced<Result<Option<string>>>)
    ensures playback.Err? ==> r == Traced(Err(playback.error), [])
    ensures playback.Ok? && !playback.value.isPlaying ==> r == Traced(Ok(None), [])
    ensures playback.Ok? && playback.value.isPlaying && from != "album" && from != "lyrics" ==>
              r == Traced(Err(UnsupportedOption(from)), [])
    ensures playback.Ok? && playback.value.isPlaying && (from == "album" || from == "lyrics") &&
              playback.value.item.None? ==>
              r == Traced(Err(MissingTrack), [])
    ensures playback.Ok? && playback.value.isPlaying && from == "album" && playback.value.item.Some? ==>
              var url := ImageUrl(playback.value.item.value);
              r.calls == [VibrantCall(url)] &&
              (r.value.Ok? <==> vibrant(url).Got?) &&
              (r.value.Ok? ==> r.value.value == vibrant(url).payload) &&
              (r.value.Err? ==> r.value.error == RemoteFailure(Vibrant))
    ensures r.value.Ok? && r.value.value.Some? ==> playback.Ok? && playback.value.item.Some?
  {
    match playback
    case Err(e) => Traced(Err(e), [])
    case Ok(state) =>
      if !state.isPlaying then Traced(Ok(None), [])
      else if from == "album" then
        match state.item
        case None => Traced(Err(MissingTrack), [])
        case Some(track) => GetColorFromTrackAlbum(track, vibrant)
      else if from == "lyrics" then
        match state.item
        case None => Traced(Err(MissingTrack), [])
        case Some(track) =>
          var lyrics := GetColorFromTrackLyrics(config, track, genius, completion);
          if lyrics.value.Err? || Truthy(lyrics.value.value) then lyrics
          else
            var album := GetColorFromTrackAlbum(track, vibrant);
            Traced(album.value, lyrics.calls + album.calls)
      else Traced(Err(UnsupportedOption(from)), [])
  }

  /** `getColorFromTrack(config, from)`: the playback fetch (through the
      token cache) comes first, whatever the mode, and the colour is then
      resolved from what it returned; the calls are those of both, in order. */
  method GetColorFromTrack(store: TokenStore, config: Config, from: string, now: int,
                           refresh: Fetched<TokenGrant>, player: string -> Fetched<Playback>,
                           vibrant: VibrantOracle, genius: LyricsOracle, completion: CompletionOracle)
    returns (r: Traced<Result<Option<string>>>)
    modifies store
    ensures var outcome := AuthSpec(old(store.records), now, refresh);
            var fetched := PlaybackFor(outcome.token, player);
            var color := ColorFromPlayback(config, from, fetched.value, vibrant, genius, completion);
            store.records == outcome.store &&
            store.refreshes == old(store.refreshes) + (if outcome.refreshed then 1 else 0) &&
            r == Traced(color.value, fetched.calls + color.calls)
  {
    var fetched := GetPlaybackState(store, now, refresh, player);
    var color := ColorFromPlayback(config, from, fetched.value, vibrant, genius, completion);
    r := Traced(color.value, fetched.calls + color.calls);
  }

  /** Once something plays, an unsupported mode still costs the playback
      fetch before it throws. */
  lemma UnsupportedModeFetchesFirst(config: Config, from: string, token: string, player: string -> Fetched<Playback>,
                                    vibrant: VibrantOracle, genius: LyricsOracle, completion: CompletionOracle)
    requires from != "album" && from != "lyrics"
    requires player(token).Got? && player(token).payload.isPlaying
    ensures var fetched := PlaybackFor(Ok(token), player);
            var color := ColorFromPlayback(config, from, fetched.value, vibrant, genius, completion);
            color.value == Err(UnsupportedOption(from)) && fetched.calls + color.calls == [PlaybackCall(token)]
  {
  }

  // ---------------------------------------------------------------------
  // Properties of the resolver
  // ---------------------------------------------------------------------

  predicate NoAlbumCall(calls: seq<Call>) {
    forall i :: 0 <= i < |calls| ==> !calls[i].VibrantCall?
  }

  predicate NoCompletionCall(calls: seq<Call>) {
    forall i :: 0 <= i < |calls| ==> !calls[i].CompletionCall?
  }

  /** Nothing playing: `null`, for every mode (even an unsupported one), and
      no strategy is invoked. */
  lemma NotPlayingIsNull(config: Config, from: string, state: Playback,
                         vibrant: VibrantOracle, genius: LyricsOracle, completion: CompletionOracle)
    requires !state.isPlaying
    ensures ColorFromPlayback(config, from, Ok(state), vibrant, genius, completion) == Traced(Ok(None), [])
  {
  }

  /** Album mode makes exactly one palette extraction, of the first image,
      and returns its DarkVibrant hex or `null`. */
  lemma AlbumModeUsesFirstImage(config: Config, track: Track,
                                vibrant: VibrantOracle, genius: LyricsOracle, completion: CompletionOracle)
    requires vibrant(ImageUrl(track)).Got?
    ensures var r := ColorFromPlayback(config, "album", Ok(Playback(true, Some(track))), vibrant, genius, completion);
            r.value == Ok(vibrant(ImageUrl(track)).payload) && r.calls == [VibrantCall(ImageUrl(track))]
  {
  }

  /** A failed palette extraction in album mode is the answer: it propagates
      (and the endpoint answers 500) instead of reading as `null`. */
  lemma AlbumErrorPropagates(config: Config, track: Track,
                             vibrant: VibrantOracle, genius: LyricsOracle, completion: CompletionOracle)
    requires vibrant(ImageUrl(track)).Failed?
    ensures ColorFromPlayback(config, "album", Ok(Playback(true, Some(track))), vibrant, genius, completion)
            == Traced(Err(RemoteFailure(Vibrant)), [VibrantCall(ImageUrl(track))])
  {
  }

  /** Lyrics mode keeps a truthy lyrics colour and then never looks at the album. */
  lemma LyricsColourIsPreferred(config: Config, track: Track,
                                vibrant: VibrantOracle, genius: LyricsOracle, completion: CompletionOracle)
    requires var l := GetColorFromTrackLyrics(config, track, genius, completion).value;
             l.Ok? && Truthy(l.value)
    ensures var r := ColorFromPlayback(config, "lyrics", Ok(Playback(true, Some(track))), vibrant, genius, completion);
            r == GetColorFromTrackLyrics(config, track, genius, completion) &&
            IsHexColor(r.value.value.value) && NoAlbumCall(r.calls)
  {
    var l := GetColorFromTrackLyrics(config, track, genius, completion);
    assert l.calls[0].GeniusCall?;
    assert forall i :: 1 <= i < |l.calls| ==> l.calls[i].CompletionCall?;
  }

  /** Lyrics mode falls back to the album when the lyrics colour is `null`,
      and the album extraction then comes after the lyrics calls. */
  lemma LyricsFallBackToAlbum(config: Config, track: Track,
                              vibrant: VibrantOracle, genius: LyricsOracle, completion: CompletionOracle)
    requires GetColorFromTrackLyrics(config, track, genius, completion).value == Ok(None)
    ensures var r := ColorFromPlayback(config, "lyrics", Ok(Playback(true, Some(track))), vibrant, genius, completion);
            r.value == GetColorFromTrackAlbum(track, vibrant).value &&
            r.calls == GetColorFromTrackLyrics(config, track, genius, completion).calls + [VibrantCall(ImageUrl(track))]
  {
  }

  /** An error in the lyrics path (a missing Genius token or OpenAI key, a
      failed lookup or completion) propagates instead of falling back. */
  lemma LyricsErrorPropagates(config: Config, track: Track,
                              vibrant: VibrantOracle, genius: LyricsOracle, completion: CompletionOracle)
    requires GetColorFromTrackLyrics(config, track, genius, completion).value.Err?
    ensures var r := ColorFromPlayback(config, "lyrics", Ok(Playback(true, Some(track))), vibrant, genius, completion);
            r.value == GetColorFromTrackLyrics(config, track, genius, completion).value && NoAlbumCall(r.calls)
  {
    var l := GetColorFromTrackLyrics(config, track, genius, completion);
    if Truthy(config.geniusToken) {
      assert l.calls[0].GeniusCall?;
      assert forall i :: 1 <= i < |l.calls| ==> l.calls[i].CompletionCall?;
    }
  }

  /** Without lyrics (none found, or an empty text) no completion is
      requested and the lyrics colour is `null`. */
  lemma NoLyricsNoCompletion(config: Config, track: Track, genius: LyricsOracle, completion: CompletionOracle)
    requires Truthy(config.geniusToken)
    requires genius(track.name, Artist(track)).Got? && !Truthy(genius(track.name, Artist(track)).payload)
    ensures var l := GetColorFromTrackLyrics(config, track, genius, completion);
            l.value == Ok(None) && NoCompletionCall(l.calls)
  {
  }

  /** A mode other than `album` or `lyrics` throws once something is playing. */
  lemma UnsupportedModeThrows(config: Config, from: string, state: Playback,
                              vibrant: VibrantOracle, genius: LyricsOracle, completion: CompletionOracle)
    requires state.isPlaying && from != "album" && from != "lyrics"
    ensures ColorFromPlayback(config, from, Ok(state), vibrant, genius, completion) ==
            Traced(Err(UnsupportedOption(from)), [])
  {
  }

  /** A resolved colour is either the album image's DarkVibrant hex, or, in
      lyrics mode, a hex colour that ends the first completion of the
      playing track's lyrics. */
  lemma ResolvedColourProvenance(config: Config, from: string, playback: Result<Playback>,
                                 vibrant: VibrantOracle, genius: LyricsOracle, completion: CompletionOracle)
    requires var r := ColorFromPlayback(config, from, playback, vibrant, genius, completion).value;
             r.Ok? && r.value.Some?
    ensures var c := ColorFromPlayback(config, from, playback, vibrant, genius, completion).value.value.value;
            playback.Ok? && playback.value.item.Some? &&
            var track := playback.value.item.value;
            vibrant(ImageUrl(track)) == Got(Some(c)) ||
            (from == "lyrics" &&
             var lyrics := genius(track.name, Artist(track));
             lyrics.Got? && Truthy(lyrics.payload) &&
             var answer := completion(OpenAi.Request(lyrics.payload.value));
             answer.Got? && |answer.payload| > 0 &&
             IsHexColor(c) && OpenAi.IsSuffix(c, answer.payload[0]))
  {
  }

  // ---------------------------------------------------------------------
  // Worked scenarios
  // ---------------------------------------------------------------------

  /** A single record that expired a second ago: one refresh, after which the
      store holds exactly one record, and that record is not yet expired. */
  lemma ExpiredOneSecondAgo(stale: string, now: int, grant: TokenGrant)
    requires grant.expiresIn > 0
    ensures var outcome := AuthSpec([TokenRecord(stale, now - 1000)], now, Got(grant));
            outcome.refreshed && |outcome.store| == 1 && outcome.store[0].expiresAt > now &&
            outcome.token == Ok(grant.accessToken)
  {
  }

  /** A single record valid for another hour: its token, and no refresh. */
  lemma ValidForAnHour(token: string, now: int, refresh: Fetched<TokenGrant>)
    ensures AuthSpec([TokenRecord(token, now + 3600000)], now, refresh) ==
            AuthOutcome(Ok(token), [TokenRecord(token, now + 3600000)], false)
  {
  }

  /** Lyrics mode where the lookup finds no lyrics and the album gives
      `#112233`: the answer is `#112233`, and no completion was requested. */
  lemma NoLyricsFallsBackToAlbumColour(config: Config, track: Track, vibrant: VibrantOracle,
                                       genius: LyricsOracle, completion: CompletionOracle)
    requires Truthy(config.geniusToken)
    requires genius(track.name, Artist(track)) == Got(None)
    requires vibrant(ImageUrl(track)) == Got(Some("#112233"))
    ensures var r := ColorFromPlayback(config, "lyrics", Ok(Playback(true, Some(track))), vibrant, genius, completion);
            r.value == Ok(Some("#112233")) && NoCompletionCall(r.calls)
  {
    var r := ColorFromPlayback(config, "lyrics", Ok(Playback(true, Some(track))), vibrant, genius, completion);
    assert r.calls == [GeniusCall(track.name, Artist(track)), VibrantCall(ImageUrl(track))];
  }
}
