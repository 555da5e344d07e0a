/** The HTTP endpoint `getSpotifyTrackColor`: the secret-key header check,
    the body schema, the status-code ordering and the rule that maps the
    resolved colour onto the caller's palette. */
module Endpoint {
  import opened Common
  import Utils
  import Spotify

  /** A JSON value as the body schema sees it; `Missing` is an absent key. */
  datatype Json = Missing | Str(s: string) | Arr(items: seq<Json>) | OtherJson

  /** The two keys of the request body the schema looks at. */
  datatype Body = Body(from: Json, colors: Json)

  /** A body that passed the schema: the mode (defaulted) and the optional palette. */
  datatype ValidBody = ValidBody(from: string, colors: Option<seq<string>>)

  /** The outcome of a schema check. */
  datatype Checked<T> = Valid(value: T) | Invalid

  /** What the function answers: a bare status, or a 200 with `{color}`. */
  datatype Response = Status(code: nat) | Send(color: Option<string>)

  /** The `secret_key` header is a non-empty string equal to the configured secret. */
  predicate HeaderValid(secretKeyHeader: Option<string>, secretKey: string) {
    secretKeyHeader.Some? && secretKeyHeader.value != "" && secretKeyHeader.value == secretKey
  }

  /** `from`: one of `album` and `lyrics`, `album` when absent. */
  function ValidateFrom(v: Json): (r: Option<string>)
    ensures r.Some? ==> r.value == "album" || r.value == "lyrics"
    ensures v.Missing? ==> r == Some("album")
    ensures v.Str? ==> (r.Some? <==> v.s == "album" || v.s == "lyrics") && (r.Some? ==> r.value == v.s)
    ensures !v.Missing? && !v.Str? ==> r.None?
  {
    match v
    case Missing => Some("album")
    case Str(s) => if s == "album" || s == "lyrics" then Some(s) else None
    case _ => None
  }

  /** The array items of `colors`: every one a hex-colour string, kept in order. */
  function ValidatePalette(items: seq<Json>): (r: Option<seq<string>>)
    ensures r.Some? <==> forall i :: 0 <= i < |items| ==> items[i].Str? && IsHexColor(items[i].s)
    ensures r.Some? ==> |r.value| == |items| && forall i :: 0 <= i < |items| ==> r.value[i] == items[i].s
  {
    if |items| == 0 then Some([])
    else if !(items[0].Str? && IsHexColor(items[0].s)) then None
    else
      match ValidatePalette(items[1..])
      case None => None
      case Some(rest) => Some([items[0].s] + rest)
  }

  /** `colors`: optional, and otherwise an array of hex colours. */
  function ValidateColors(v: Json): (r: Checked<Option<seq<string>>>)
    ensures v.Missing? ==> r == Valid(None)
    ensures r.Valid? <==> v.Missing? || (v.Arr? && forall i :: 0 <= i < |v.items| ==> v.items[i].Str? && IsHexColor(v.items[i].s))
    ensures r.Valid? && r.value.Some? ==>
              v.Arr? && |r.value.value| == |v.items| && forall i :: 0 <= i < |v.items| ==> r.value.value[i] == v.items[i].s
  {
    match v
    case Missing => Valid(None)
    case Arr(items) =>
      (match ValidatePalette(items)
       case None => Invalid
       case Some(palette) => Valid(Some(palette)))
    case _ => Invalid
  }

  /** The body schema. */
  function ValidateBody(body: Body): (r: Checked<ValidBody>)
    ensures r.Valid? <==> ValidateFrom(body.from).Some? && ValidateColors(body.colors).Valid?
    ensures r.Valid? ==> r.value.from == ValidateFrom(body.from).value &&
                         r.value.colors == ValidateColors(body.colors).value
  {
    match (ValidateFrom(body.from), ValidateColors(body.colors))
    case (Some(from), Valid(colors)) => Valid(ValidBody(from, colors))
    case _ => Invalid
  }

  /** The palette is applied only to a truthy colour and a non-empty palette. */
  predicate PaletteApplies(color: Option<string>, colors: Option<seq<string>>) {
    Truthy(color) && colors.Some? && |colors.value| > 0
  }

  /** `color && body.colors?.length ? closestColor(color, body.colors) : color`. */
  function ResponseColor(color: Option<string>, colors: Option<seq<string>>): (r: Option<string>)
    ensures PaletteApplies(color, colors) ==> r.Some? && r.value in colors.value
    ensures !PaletteApplies(color, colors) ==> r == color
  {
    if PaletteApplies(color, colors) then Utils.ClosestColorOf(color.value, colors.value) else color
  }

  /** The request handler, with the resolution of a colour for a mode as an input. */
  function GetSpotifyTrackColor(secretKeyHeader: Option<string>, secretKey: string, body: Body,
                                resolve: string -> Result<Option<string>>): (r: Response)
    ensures r.Status? ==> r.code == 401 || r.code == 400 || r.code == 500
    ensures r == Status(401) <==> !HeaderValid(secretKeyHeader, secretKey)
    ensures r == Status(401) <==> secretKey == "" || secretKeyHeader != Some(secretKey)
    ensures r == Status(400) <==> HeaderValid(secretKeyHeader, secretKey) && ValidateBody(body).Invalid?
    ensures r == Status(500) <==> HeaderValid(secretKeyHeader, secretKey) && ValidateBody(body).Valid? &&
                                  resolve(ValidateBody(body).value.from).Err?
    ensures r.Send? ==> HeaderValid(secretKeyHeader, secretKey) && ValidateBody(body).Valid? &&
                        resolve(ValidateBody(body).value.from).Ok? &&
                        r.color == ResponseColor(resolve(ValidateBody(body).value.from).value, ValidateBody(body).value.colors)
  {
    if !HeaderValid(secretKeyHeader, secretKey) then Status(401)
    else
      match ValidateBody(body)
      case Invalid => Status(400)
      case Valid(valid) =>
        match resolve(valid.from)
        case Err(_) => Status(500)
        case Ok(color) => Send(ResponseColor(color, valid.colors))
  }

  // ---------------------------------------------------------------------
  // Properties of the handler
  // ---------------------------------------------------------------------

  /** A palette entry is accepted exactly when it is `#` and three or six hex digits. */
  lemma PaletteEntryAccepted(entry: string)
    ensures ValidateColors(Arr([Str(entry)])).Valid? <==> IsHexColor(entry)
  {
    assert [Str(entry)][0] == Str(entry);
  }

  /** The header is checked first: a bad secret is a 401 whatever the body
      and without any resolution. */
  lemma BadSecretIs401(secretKeyHeader: Option<string>, secretKey: string, body: Body,
                       resolve: string -> Result<Option<string>>)
    requires !HeaderValid(secretKeyHeader, secretKey)
    ensures GetSpotifyTrackColor(secretKeyHeader, secretKey, body, resolve) == Status(401)
  {
  }

  /** With a good secret, a body the schema rejects is a 400 whatever the resolver. */
  lemma BadBodyIs400(secretKey: string, body: Body, resolve: string -> Result<Option<string>>)
    requires secretKey != "" && ValidateBody(body).Invalid?
    ensures GetSpotifyTrackColor(Some(secretKey), secretKey, body, resolve) == Status(400)
  {
  }

  /** An error while resolving is a 500 and nothing else; otherwise the answer
      is a 200 carrying the resolved colour, mapped onto the palette. */
  lemma StatusFollowsResolution(secretKey: string, body: Body, resolve: string -> Result<Option<string>>)
    requires secretKey != "" && ValidateBody(body).Valid?
    ensures var valid := ValidateBody(body).value;
            var r := GetSpotifyTrackColor(Some(secretKey), secretKey, body, resolve);
            (r == Status(500) <==> resolve(valid.from).Err?) &&
            (r.Send? <==> resolve(valid.from).Ok?) &&
            (r.Send? ==> r.color == ResponseColor(resolve(valid.from).value, valid.colors))
  {
  }

  /** A body without `from` resolves in album mode. */
  lemma AlbumIsTheDefault(secretKey: string, colors: Json, resolve: string -> Result<Option<string>>)
    requires secretKey != "" && ValidateColors(colors).Valid? && resolve("album").Ok?
    ensures GetSpotifyTrackColor(Some(secretKey), secretKey, Body(Missing, colors), resolve) ==
            Send(ResponseColor(resolve("album").value, ValidateColors(colors).value))
  {
  }

  /** Whenever a palette is sent and a non-empty colour is answered, the
      answer is a member of the palette (an empty colour is falsy and is
      passed through). */
  lemma AnswerIsFromPalette(secretKey: string, body: Body, resolve: string -> Result<Option<string>>)
    requires var r := GetSpotifyTrackColor(Some(secretKey), secretKey, body, resolve);
             r.Send? && r.color.Some? && r.color.value != ""
    requires body.colors.Arr? && |body.colors.items| > 0
    ensures var r := GetSpotifyTrackColor(Some(secretKey), secretKey, body, resolve);
            exists i :: 0 <= i < |body.colors.items| && body.colors.items[i] == Str(r.color.value)
  {
    var valid := ValidateBody(body).value;
    var r := GetSpotifyTrackColor(Some(secretKey), secretKey, body, resolve);
    var palette := valid.colors.value;
    assert PaletteApplies(resolve(valid.from).value, valid.colors);
    var i :| 0 <= i < |palette| && palette[i] == r.color.value;
    assert body.colors.items[i] == Str(r.color.value);
  }

  /** With nothing playing the endpoint answers `{color: null}`, even when a
      palette is given. */
  lemma NothingPlayingAnswersNull(secretKey: string, body: Body, config: Spotify.Config,
                                  state: Spotify.Playback, vibrant: Spotify.VibrantOracle,
                                  genius: Spotify.LyricsOracle, completion: Spotify.CompletionOracle)
    requires secretKey != "" && ValidateBody(body).Valid? && !state.isPlaying
    ensures GetSpotifyTrackColor(Some(secretKey), secretKey, body,
              from => Spotify.ColorFromPlayback(config, from, Ok(state), vibrant, genius, completion).value)
            == Send(None)
  {
  }

  lemma GreenAndRedPaletteIsValid()
    ensures ValidateColors(Arr([Str("#00FF00"), Str("#FE0101")])) == Valid(Some(["#00FF00", "#FE0101"]))
  {
    var items := [Str("#00FF00"), Str("#FE0101")];
    assert IsLongHexColor("#00FF00") && IsLongHexColor("#FE0101");
    assert IsHexColor(items[0].s) && IsHexColor(items[1].s);
    var palette := ValidatePalette(items).value;
    assert palette == ["#00FF00", "#FE0101"];
  }

  /** End to end: album mode, a track whose first image extracts to
      `#FF0000`, and the palette `#00FF00`, `#FE0101`: the answer is the
      palette's red. */
  lemma RedTrackOnGreenAndRedPalette(secretKey: string, config: Spotify.Config, track: Spotify.Track,
                                     vibrant: Spotify.VibrantOracle, genius: Spotify.LyricsOracle,
                                     completion: Spotify.CompletionOracle)
    requires secretKey != ""
    requires vibrant(Spotify.ImageUrl(track)) == Got(Some("#FF0000"))
    ensures GetSpotifyTrackColor(Some(secretKey), secretKey,
              Body(Str("album"), Arr([Str("#00FF00"), Str("#FE0101")])),
              from => Spotify.ColorFromPlayback(config, from, Ok(Spotify.Playback(true, Some(track))),
                                                vibrant, genius, completion).value)
            == Send(Some("#FE0101"))
  {
    GreenAndRedPaletteIsValid();
    Utils.NearestRedExample();
  }
}
