/** Values shared by every part of the model: optional values, results with
    the errors the function can throw, JavaScript truthiness of an optional
    string, and the hexadecimal colour notation. */
module Common {

  /** `undefined`/`null` versus a present value. */
  datatype Option<T> = None | Some(value: T)

  /** A value or the error a promise rejects with. */
  datatype Result<T> = Ok(value: T) | Err(error: Error)

  /** The remote services whose calls the model receives as inputs. */
  datatype Service = SpotifyAccounts | SpotifyPlayer | Vibrant | Genius | OpenAi

  /** Everything that can be thrown while a colour is resolved. */
  datatype Error =
    | MissingGeniusToken            // 'Genius Access Token is required for this operation'
    | MissingOpenAiKey              // 'OpenAI API Key is required for this operation'
    | UnsupportedOption(from: string) // 'option not yet support'
    | MissingTrack                  // a TypeError: the playback payload has no `item`
    | RemoteFailure(service: Service) // a rejected HTTP call or library call

  /** The answer of a remote service: a payload, or a failure (a rejected promise). */
  datatype Fetched<T> = Got(payload: T) | Failed

  /** The body of a text-completion request; the prompt is a fixed question
      around `lyrics`, represented here by the lyrics alone. */
  datatype CompletionRequest = CompletionRequest(model: string, lyrics: string, maxTokens: nat, temperature: real)

  /** A call to a remote service or foreign library, in the order made. */
  datatype Call =
    | PlaybackCall(accessToken: string)                // GET the player state with this bearer token
    | VibrantCall(imageUrl: Option<string>)            // palette extraction of the album image
    | GeniusCall(title: string, artist: Option<string>) // lyrics lookup
    | CompletionCall(request: CompletionRequest)       // text completion

  /** A value together with the calls made while computing it. */
  datatype Traced<T> = Traced(value: T, calls: seq<Call>)

  /** JavaScript truthiness of a `string | null | undefined`: present and non-empty. */
  predicate Truthy(s: Option<string>) {
    s.Some? && s.value != ""
  }

  /** A character of the class `[0-9A-F]` under the `i` flag. */
  predicate IsHexDigit(c: char) {
    '0' <= c <= '9' || 'A' <= c <= 'F' || 'a' <= c <= 'f'
  }

  function HexDigitValue(c: char): (v: nat)
    requires IsHexDigit(c)
    ensures v < 16
    ensures '0' <= c <= '9' ==> v == c as int - '0' as int
    ensures !('0' <= c <= '9') ==> 10 <= v
  {
    if '0' <= c <= '9' then c as int - '0' as int
    else if 'A' <= c <= 'F' then c as int - 'A' as int + 10
    else c as int - 'a' as int + 10
  }

  /** ASCII upper-casing, the only case folding that can make two hex digits equal. */
  function Upper(c: char): char {
    if 'a' <= c <= 'z' then (c as int - 'a' as int + 'A' as int) as char else c
  }

  lemma HexDigitValueIgnoresCase(c: char, d: char)
    requires IsHexDigit(c) && IsHexDigit(d)
    ensures HexDigitValue(c) == HexDigitValue(d) <==> Upper(c) == Upper(d)
  {
  }

  predicate AllHex(s: string) {
    forall i :: 0 <= i < |s| ==> IsHexDigit(s[i])
  }

  /** `#` followed by exactly three hex digits. */
  predicate IsShortHexColor(s: string) {
    |s| == 4 && s[0] == '#' && AllHex(s[1..])
  }

  /** `#` followed by exactly six hex digits. */
  predicate IsLongHexColor(s: string) {
    |s| == 7 && s[0] == '#' && AllHex(s[1..])
  }

  /** The language of `^#([0-9A-F]{3}){1,2}$` under the `i` flag. */
  predicate IsHexColor(s: string) {
    IsShortHexColor(s) || IsLongHexColor(s)
  }

  /** Two strings that differ at most in the case of their ASCII letters. */
  predicate EqualIgnoringCase(a: string, b: string) {
    |a| == |b| && forall i :: 0 <= i < |a| ==> Upper(a[i]) == Upper(b[i])
  }
}
