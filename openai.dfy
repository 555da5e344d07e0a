/** The colour-from-lyrics call: an API-key guard, one completion request,
    and the trailing hex colour of the first choice's text. */
module OpenAi {
  import opened Common

  const Model := "text-davinci-003"
  const MaxTokens := 256
  const Temperature := 0.5

  function Request(lyrics: string): CompletionRequest {
    CompletionRequest(Model, lyrics, MaxTokens, Temperature)
  }

  // ---------------------------------------------------------------------
  // text.match(/#([0-9A-F]{3}){1,2}$/gi)?.[0]
  // ---------------------------------------------------------------------

  predicate IsSuffix(s: string, text: string) {
    |s| <= |text| && text[|text| - |s|..] == s
  }

  /** The extraction as the code performs it, read off the end of the text:
      the seven-character suffix when it is `#` and six hex digits, else the
      four-character suffix when it is `#` and three hex digits. */
  function TrailingHex(text: string): (r: Option<string>)
    ensures r.Some? ==> IsHexColor(r.value) && IsSuffix(r.value, text)
  {
    if |text| >= 7 && IsLongHexColor(text[|text| - 7..]) then Some(text[|text| - 7..])
    else if |text| >= 4 && IsShortHexColor(text[|text| - 4..]) then Some(text[|text| - 4..])
    else None
  }

  /** The reference semantics of the regular expression: the leftmost
      position `p` at or after `from` where the pattern matches, which (with
      the `$` anchor) means the rest of the text is `#` and three or six hex
      digits; `match` with the `g` flag lists the matches from the left, and
      `[0]` takes that first one. */
  function LeftmostMatch(text: string, from: nat): Option<string>
    requires from <= |text|
    decreases |text| - from
  {
    if from == |text| then None
    else if IsHexColor(text[from..]) then Some(text[from..])
    else LeftmostMatch(text, from + 1)
  }

  /** What the leftmost match from `from` is, stated by the length of the text. */
  function TrailingHexFrom(text: string, from: nat): Option<string>
    requires from <= |text|
  {
    if from + 7 <= |text| && IsLongHexColor(text[|text| - 7..]) then Some(text[|text| - 7..])
    else if from + 4 <= |text| && IsShortHexColor(text[|text| - 4..]) then Some(text[|text| - 4..])
    else None
  }

  lemma {:induction false} LeftmostMatchIsTrailing(text: string, from: nat)
    requires from <= |text|
    ensures LeftmostMatch(text, from) == TrailingHexFrom(text, from)
    decreases |text| - from
  {
    if from < |text| {
      if IsHexColor(text[from..]) {
        assert from + 7 == |text| || from + 4 == |text|;
      } else {
        LeftmostMatchIsTrailing(text, from + 1);
      }
    }
  }

  /** The code's suffix test finds exactly the leftmost match of the pattern. */
  lemma TrailingHexIsLeftmostMatch(text: string)
    ensures TrailingHex(text) == LeftmostMatch(text, 0)
  {
    LeftmostMatchIsTrailing(text, 0);
  }

  /** The six-digit and three-digit cases never both apply: in a text that
      ends with `#` and six hex digits, the fourth character from the end is a
      hex digit, not `#`. */
  lemma LongAndShortExclusive(text: string)
    requires |text| >= 7 && IsLongHexColor(text[|text| - 7..])
    ensures !IsShortHexColor(text[|text| - 4..])
  {
    assert text[|text| - 4..][0] == text[|text| - 7..][1..][2];
  }

  /** A completion that ends with a colour yields that colour, whatever comes before it. */
  lemma ColourAtEndIsFound(prefix: string, colour: string)
    requires IsHexColor(colour)
    ensures TrailingHex(prefix + colour) == Some(colour)
  {
    var text := prefix + colour;
    if IsLongHexColor(colour) {
      assert text[|text| - 7..] == colour;
    } else {
      assert text[|text| - 4..] == colour;
      if |text| >= 7 {
        assert text[|text| - 7..][1..][2] == colour[0];
      }
    }
  }

  /** A colour followed by anything else (a full stop, a newline) is not found. */
  lemma ColourNotAtEndIsMissed(prefix: string, colour: string, c: char)
    requires IsHexColor(colour) && !IsHexDigit(c)
    ensures TrailingHex(prefix + colour + [c]) == None
  {
    var text := prefix + colour + [c];
    assert text[|text| - 1] == c;
    if |text| >= 7 {
      assert text[|text| - 7..][1..][5] == c;
    }
    if |text| >= 4 {
      assert text[|text| - 4..][1..][2] == c;
    }
  }

  /** `getColorFromLyrics(config, lyrics)`: the guard on the API key (absent
      or empty throws before any request), one completion request, and the
      trailing colour of the first choice; no choices yields `undefined`. */
  function GetColorFromLyrics(apiKey: Option<string>, lyrics: string,
                              completion: CompletionRequest -> Fetched<seq<string>>): (r: Traced<Result<Option<string>>>)
    ensures !Truthy(apiKey) ==> r == Traced(Err(MissingOpenAiKey), [])
    ensures Truthy(apiKey) ==> r.calls == [CompletionCall(Request(lyrics))]
    ensures Truthy(apiKey) && completion(Request(lyrics)).Failed? ==> r.value == Err(RemoteFailure(OpenAi))
    ensures Truthy(apiKey) && completion(Request(lyrics)) == Got([]) ==> r.value == Ok(None)
    ensures Truthy(apiKey) && completion(Request(lyrics)).Got? && |completion(Request(lyrics)).payload| > 0 ==>
              r.value == Ok(TrailingHex(completion(Request(lyrics)).payload[0]))
    ensures r.value.Ok? && r.value.value.Some? ==>
              var answer := completion(Request(lyrics));
              answer.Got? && |answer.payload| > 0 &&
              IsHexColor(r.value.value.value) && IsSuffix(r.value.value.value, answer.payload[0])
  {
    if !Truthy(apiKey) then Traced(Err(MissingOpenAiKey), [])
    else
      var request := Request(lyrics);
      var answer := match completion(request)
        case Failed => Err(RemoteFailure(OpenAi))
        case Got(texts) => Ok(if |texts| == 0 then None else TrailingHex(texts[0]));
      Traced(answer, [CompletionCall(request)])
  }
}
