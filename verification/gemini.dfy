/** The content-generation service (backend/services/gemini.js) without the
    network: the classification of a reply of the text-generation endpoint into
    generated text or a failure, and the code-fence stripping applied to that
    text before it is parsed as JSON. `JSON.parse` is an abstract partial
    function `parse` supplied by the caller. */
module Gemini {
  import opened Wrappers
  import opened Js

  /** What the request to the text-generation endpoint produced: either the
      request or the reading of its JSON body rejected, or a response arrived
      with its `ok` flag, its status and the text found at
      `candidates[0].content.parts[0].text` (absent when any step is missing). */
  datatype ApiReply =
    | Threw(message: string)
    | Response(ok: bool, status: nat, candidateText: Option<string>)

  /** The text before the status in the message of a failed response. */
  const ApiErrorPrefix := "Gemini API error: "

  /** The ways generation fails. */
  datatype GenError = MissingApiKey | Transport(message: string) | ApiStatus(status: nat) | NoContent | ParseFailed {

    /** The message of the thrown `Error`. */
    function Message(): (m: string)
      ensures Transport? ==> m == message
      ensures ApiStatus? ==> StartsWith(m, ApiErrorPrefix) && m[|ApiErrorPrefix|..] == NatToString(status)
      ensures !Transport? ==> m != []
    {
      match this
      case MissingApiKey => "GEMINI_API_KEY is not configured"
      case Transport(m) => m
      case ApiStatus(s) => ApiErrorPrefix + NatToString(s)
      case NoContent => "No content generated"
      case ParseFailed => "Failed to parse AI response as JSON"
    }
  }

  /** `generateContent`: the generated text, or why there is none. Without an
      API key the endpoint is never asked. */
  function GenerateContent(apiKey: Option<string>, reply: ApiReply): (r: Result<string, GenError>)
    ensures r.Success? <==> Truthy(apiKey) && reply.Response? && reply.ok && Truthy(reply.candidateText)
    ensures r.Success? ==> r.value == reply.candidateText.value && r.value != ""
    ensures !Truthy(apiKey) ==> r == Failure(MissingApiKey)
    ensures Truthy(apiKey) && reply.Threw? ==> r == Failure(Transport(reply.message))
    ensures Truthy(apiKey) && reply.Response? && !reply.ok ==> r == Failure(ApiStatus(reply.status))
    ensures Truthy(apiKey) && reply.Response? && reply.ok && !Truthy(reply.candidateText) ==> r == Failure(NoContent)
  {
    if !Truthy(apiKey) then Failure(MissingApiKey)
    else match reply
      case Threw(m) => Failure(Transport(m))
      case Response(ok, status, text) =>
        if !ok then Failure(ApiStatus(status))
        else if !Truthy(text) then Failure(NoContent)
        else Success(text.value)
  }

  // ---------------------------------------------------------------------------
  // parseJsonResponse
  // ---------------------------------------------------------------------------

  /** Removes one opening fence, testing the `json`-tagged fence first. */
  function DropOpeningFence(t: string): (r: string)
    ensures StartsWith(t, "```json") ==> r == t[7..]
    ensures !StartsWith(t, "```json") && StartsWith(t, "```") ==> r == t[3..]
    ensures !StartsWith(t, "```") ==> r == t
  {
    if StartsWith(t, "```json") then t[7..]
    else if StartsWith(t, "```") then t[3..]
    else t
  }

  /** Removes one closing fence. */
  function DropClosingFence(t: string): (r: string)
    ensures EndsWith(t, "```") ==> r == t[..|t| - 3]
    ensures !EndsWith(t, "```") ==> r == t
  {
    if EndsWith(t, "```") then t[..|t| - 3] else t
  }

  /** The text handed to `JSON.parse`: trimmed, stripped of at most one
      opening and one closing code fence, trimmed again. */
  function StripFences(text: string): (r: string)
    ensures IsTrimmed(r)
    ensures |r| <= |text|
  {
    Trim(DropClosingFence(DropOpeningFence(Trim(text))))
  }

  /** `parseJsonResponse`: every failure, whatever `JSON.parse` objected to,
      is reported as the one parse error. */
  function ParseJsonResponse<T>(text: string, parse: string -> Option<T>): (r: Result<T, GenError>)
    ensures r.Failure? ==> r.error == ParseFailed
    ensures r.Success? <==> parse(StripFences(text)).Some?
    ensures r.Success? ==> Some(r.value) == parse(StripFences(text))
  {
    match parse(StripFences(text))
    case Some(v) => Success(v)
    case None => Failure(ParseFailed)
  }

  /** `generateRoadmap` / `generateMicroSkills` minus the prompt: generate,
      then parse. A failure of the first step is passed on unchanged. */
  function Generate<T>(apiKey: Option<string>, reply: ApiReply, parse: string -> Option<T>): (r: Result<T, GenError>)
    ensures GenerateContent(apiKey, reply).Failure? ==> r == Failure(GenerateContent(apiKey, reply).error)
    ensures GenerateContent(apiKey, reply).Success? ==>
              r == ParseJsonResponse(GenerateContent(apiKey, reply).value, parse)
  {
    match GenerateContent(apiKey, reply)
    case Failure(e) => Failure(e)
    case Success(text) => ParseJsonResponse(text, parse)
  }

  // ---------------------------------------------------------------------------
  // Properties of the fence stripping
  // ---------------------------------------------------------------------------

  /** The stripped text is a contiguous piece of the input, found at the
      returned bounds. */
  lemma StripFencesIsSlice(text: string) returns (a: nat, b: nat)
    ensures a <= b <= |text| && StripFences(text) == text[a..b]
  {
    var k, e := AtMostOneFencePerSide(text);
    a, b := TrimmedCutIsSlice(text, k, e);
  }

  /** Trimming, cutting and trimming again leaves a slice of the input. */
  lemma TrimmedCutIsSlice(text: string, k: nat, e: nat) returns (a: nat, b: nat)
    requires k + e <= |Trim(text)|
    ensures a <= b <= |text| && Trim(Trim(text)[k..|Trim(text)| - e]) == text[a..b]
  {
    var t := Trim(text);
    var c := t[k..|t| - e];
    var r := Trim(c);
    a, b := ComposeSlices(text, t, c, r, LeadingWhiteSpace(text), k, LeadingWhiteSpace(c));
  }

  /** A slice of a slice of a slice of `s` is a slice of `s`. */
  lemma ComposeSlices(s: string, t: string, c: string, r: string, a0: nat, k: nat, a1: nat) returns (a: nat, b: nat)
    requires a0 + |t| <= |s| && t == s[a0..a0 + |t|]
    requires k + |c| <= |t| && c == t[k..k + |c|]
    requires a1 + |r| <= |c| && r == c[a1..a1 + |r|]
    ensures a <= b <= |s| && r == s[a..b]
  {
    a, b := a0 + k + a1, a0 + k + a1 + |r|;
    assert forall i | 0 <= i < |r| :: r[i] == c[a1 + i] == t[k + a1 + i] == s[a + i];
  }

  /** At most one fence is removed from each side: the result is the trimmed
      input with `k` = 0, 3 or 7 characters cut from the front and `e` = 0 or 3
      from the back, trimmed again. */
  lemma AtMostOneFencePerSide(text: string) returns (k: nat, e: nat)
    ensures k == 0 || k == 3 || k == 7
    ensures e == 0 || e == 3
    ensures k + e <= |Trim(text)|
    ensures StripFences(text) == Trim(Trim(text)[k..|Trim(text)| - e])
  {
    k, e := FenceCuts(Trim(text));
  }

  /** Dropping both fences of `t` keeps the slice between the two cuts. */
  lemma FenceCuts(t: string) returns (k: nat, e: nat)
    ensures k == 0 || k == 3 || k == 7
    ensures e == 0 || e == 3
    ensures k + e <= |t|
    ensures DropClosingFence(DropOpeningFence(t)) == t[k..|t| - e]
  {
    k := OpeningCut(t);
    var o := t[k..];
    e := ClosingCut(o);
    assert o[..|o| - e] == t[k..|t| - e];
  }

  /** The opening fence is a prefix of 0, 3 or 7 characters. */
  lemma OpeningCut(t: string) returns (k: nat)
    ensures (k == 0 || k == 3 || k == 7) && k <= |t|
    ensures DropOpeningFence(t) == t[k..]
  {
    k := |t| - |DropOpeningFence(t)|;
  }

  /** The closing fence is a suffix of 0 or 3 characters. */
  lemma ClosingCut(o: string) returns (e: nat)
    ensures (e == 0 || e == 3) && e <= |o|
    ensures DropClosingFence(o) == o[..|o| - e]
  {
    e := |o| - |DropClosingFence(o)|;
  }

  /** Round trip: a trimmed payload wrapped in a `json`-tagged fence block is
      recovered exactly. */
  lemma FencedRoundTrip(s: string)
    requires IsTrimmed(s)
    ensures StripFences("```json\n" + s + "\n```") == s
  {
    var text := "```json\n" + s + "\n```";
    FencedIsTrimmed(s);
    TrimTrimmed(text);
    FencedOpening(s);
    var o := text[7..];
    FencedClosing(s);
    TrimPadded("\n", s, "\n");
  }

  lemma FencedIsTrimmed(s: string)
    ensures IsTrimmed("```json\n" + s + "\n```")
  {
    var text := "```json\n" + s + "\n```";
    assert text[0] == '`';
    assert text[|text| - 1] == '`';
  }

  lemma FencedOpening(s: string)
    ensures DropOpeningFence("```json\n" + s + "\n```") == "\n" + s + "\n```"
  {
    var text := "```json\n" + s + "\n```";
    assert text[..7] == "```json";
    assert text[7..] == "\n" + s + "\n```";
  }

  lemma FencedClosing(s: string)
    ensures DropClosingFence("\n" + s + "\n```") == "\n" + s + "\n"
  {
    var o := "\n" + s + "\n```";
    assert o[|o| - 3..] == "```";
    assert o[..|o| - 3] == "\n" + s + "\n";
  }

  /** A trimmed payload without fences passes through unchanged. */
  lemma UnfencedUnchanged(s: string)
    requires IsTrimmed(s)
    requires !StartsWith(s, "```") && !EndsWith(s, "```")
    ensures StripFences(s) == s
  {
    TrimTrimmed(s);
  }

  /** The `json`-tagged fence is checked before the bare one: its tag does not
      survive into the parsed text. */
  lemma JsonTagCheckedFirst()
    ensures StripFences("```json{}```") == "{}"
  {
    var text := "```json{}```";
    TrimTrimmed(text);
    assert text[..7] == "```json";
    assert text[7..] == "{}```";
    assert "{}```"[2..] == "```";
    assert "{}```"[..2] == "{}";
    TrimTrimmed("{}");
  }

  /** Only the outermost fence on each side is removed: an inner fenced block
      survives. */
  lemma InnerFencesKept()
    ensures StripFences("```\n" + "```\n1\n```" + "\n```") == "```\n1\n```"
  {
    var s := "```\n1\n```";
    assert IsTrimmed(s) by { assert s[0] == '`' && s[|s| - 1] == '`'; }
    BareFencedRoundTrip(s);
  }

  /** A trimmed payload wrapped in a bare fence on lines of their own comes
      back unchanged. */
  lemma BareFencedRoundTrip(s: string)
    requires IsTrimmed(s)
    ensures StripFences("```\n" + s + "\n```") == s
  {
    var text := "```\n" + s + "\n```";
    BareFencedIsTrimmed(s);
    TrimTrimmed(text);
    BareFencedOpening(s);
    FencedClosing(s);
    TrimPadded("\n", s, "\n");
  }

  lemma BareFencedIsTrimmed(s: string)
    ensures IsTrimmed("```\n" + s + "\n```")
  {
    var text := "```\n" + s + "\n```";
    assert text[0] == '`';
    assert text[|text| - 1] == '`';
  }

  lemma BareFencedOpening(s: string)
    ensures DropOpeningFence("```\n" + s + "\n```") == "\n" + s + "\n```"
  {
    var text := "```\n" + s + "\n```";
    assert !StartsWith(text, "```json") by {
      if |text| >= 7 { assert text[3] == '\n' && "```json"[3] == 'j'; assert text[..7][3] == text[3]; }
    }
    assert text[..3] == "```";
    assert text[3..] == "\n" + s + "\n```";
  }

  /** Failed responses with different statuses carry different messages. */
  lemma ApiStatusMessagesDistinct(a: nat, b: nat)
    requires ApiStatus(a).Message() == ApiStatus(b).Message()
    ensures a == b
  {
    ConcatCancel(ApiErrorPrefix, NatToString(a), NatToString(b));
    NatToStringInjective(a, b);
  }
}
