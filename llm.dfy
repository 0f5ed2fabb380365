/**
 * The completion service: one optional chat-completion request with a local
 * fallback table. The request is not sent; `Complete` returns the request it
 * would send together with the response it builds from the abstract outcome
 * of that request. The random pick of the fallback is a draw in [0, 1).
 */
module Llm {
  import opened Wrappers
  import opened Text
  import Config
  import Dictionary

  datatype LlmResponse = LlmResponse(content: string, error: Option<string>)

  /** `new LLMService(apiKey, endpoint)`: both fields are only read afterwards. */
  datatype LlmService = LlmService(apiKey: string, endpoint: string)

  /** The POST the service sends (headers and JSON body, as fields). */
  datatype Request = Request(
    endpoint: string,
    authorization: string,
    model: string,
    userContent: string,
    maxTokens: int,
    temperature: real)

  /** What `throw` produced: an `Error` with its message, or anything else. */
  datatype Thrown = ErrorObject(message: string) | NonError

  /**
   * `response.json()` followed by `data.choices?.[0]?.message?.content`: a
   * parse failure or the exception raised reading `data.choices` (a `null`
   * body), or the optional content.
   */
  datatype JsonBody = Unparsable(message: string) | Parsed(content: Option<string>)

  /** The outcome of `fetch`: rejected, or a response with its status and body. */
  datatype FetchOutcome = Rejected(thrown: Thrown) | Responded(status: nat, body: JsonBody)

  /** The response `complete` resolves to, and the request it issued, if any. */
  datatype Completion = Completion(response: LlmResponse, request: Option<Request>)

  /** The local table of `getFallbackCompletion`, in the order it is written. */
  const FallbackTable: seq<(string, seq<string>)> := [
    ("hello", [" there, beautiful disaster!", " world... or is it?", " darkness my old friend"]),
    ("thanks", [" but no thanks", " for the chaos", " to the void"]),
    ("please", [" don't", " chaos overlords", " help me escape"]),
    ("good", [" grief!", " enough... NOT!", " vibes only... CHAOS!"]),
    ("how", [" about no?", " wonderfully chaotic!", " delightfully wrong"]),
    ("what", [" the actual chaos?!", " sorcery is this?", " dimension am I in?"]),
    ("i", [" am confusion", " demand chaos", " reject reality"]),
    ("the", [" chaos consumes all", " void stares back", " matrix glitches"])
  ]

  const RandomEndings: seq<string> := [
    "... but make it chaotic!",
    "... in the multiverse",
    "... according to Murphy's law",
    "... if you dare!",
    "... *glitch sounds*",
    "... ERROR 404: SANITY NOT FOUND"
  ]

  /** Every character of `s` is a decimal digit. */
  predicate AllDigits(s: string) {
    forall i :: 0 <= i < |s| ==> '0' <= s[i] <= '9'
  }

  /** The number a string of decimal digits denotes, most significant first. */
  function DigitsValue(s: string): nat
    requires AllDigits(s)
  {
    if |s| == 0 then 0 else DigitsValue(s[..|s| - 1]) * 10 + (s[|s| - 1] as int - '0' as int)
  }

  /**
   * The decimal digits of `n`, as in `${n}`: they denote `n`, and there is
   * no leading zero.
   */
  function DecimalString(n: nat): (s: string)
    ensures |s| > 0 && AllDigits(s)
    ensures DigitsValue(s) == n
    ensures |s| == 1 <==> n < 10
    ensures |s| > 1 ==> s[0] != '0'
  {
    var d := ['0' + (n % 10) as char];
    if n < 10 then d
    else
      var a := DecimalString(n / 10);
      var s := a + d;
      assert s[..|s| - 1] == a;
      s
  }

  /** The index of the first key of the table, from `from` on, that occurs in `lowerPrompt`. */
  function FirstContained(lowerPrompt: string, from: nat): (r: Option<nat>)
    requires from <= |FallbackTable|
    ensures r.Some? ==> from <= r.value < |FallbackTable| && Contains(lowerPrompt, FallbackTable[r.value].0)
    ensures r.Some? ==> forall j :: from <= j < r.value ==> !Contains(lowerPrompt, FallbackTable[j].0)
    ensures r.None? ==> forall j :: from <= j < |FallbackTable| ==> !Contains(lowerPrompt, FallbackTable[j].0)
    decreases |FallbackTable| - from
  {
    if from == |FallbackTable| then None
    else if Contains(lowerPrompt, FallbackTable[from].0) then Some(from)
    else FirstContained(lowerPrompt, from + 1)
  }

  /**
   * `getFallbackCompletion`: a pick from the list of the first key contained
   * in the lower-cased prompt, or from `RandomEndings` when no key occurs.
   */
  function FallbackCompletion(prompt: string, pick: real): (s: string)
    requires 0.0 <= pick < 1.0
    ensures |s| > 0
    ensures FirstContained(Lower(prompt), 0).Some? ==> s in FallbackTable[FirstContained(Lower(prompt), 0).value].1
    ensures FirstContained(Lower(prompt), 0).None? ==> s in RandomEndings
  {
    match FirstContained(Lower(prompt), 0)
    case Some(i) =>
      var options := FallbackTable[i].1;
      options[PickIndex(pick, |options|)]
    case None =>
      RandomEndings[PickIndex(pick, |RandomEndings|)]
  }

  /** The text the prompt is embedded in, up to the opening quote. */
  const PromptPrefix: string := "Complete this phrase in a chaotic, unexpected way: \""

  /**
   * The request `complete` sends for `prompt`: the service's endpoint, a
   * bearer header carrying the API key, and one user message that quotes
   * the prompt verbatim.
   */
  function RequestFor(service: LlmService, prompt: string, maxTokens: int): (r: Request)
    ensures r.endpoint == service.endpoint
    ensures |r.authorization| == 7 + |service.apiKey|
    ensures r.authorization[..7] == "Bearer " && r.authorization[7..] == service.apiKey
    ensures r.model == "openai/gpt-3.5-turbo"
    ensures |r.userContent| == |PromptPrefix| + |prompt| + 1
    ensures r.userContent[..|PromptPrefix|] == PromptPrefix
    ensures r.userContent[|PromptPrefix|..|r.userContent| - 1] == prompt
    ensures r.userContent[|r.userContent| - 1] == '"'
    ensures r.maxTokens == maxTokens && r.temperature == 1.2
  {
    var content := PromptPrefix + prompt + "\"";
    assert content[..|PromptPrefix|] == PromptPrefix;
    assert content[|PromptPrefix|..|content| - 1] == prompt;
    Request(service.endpoint, "Bearer " + service.apiKey, "openai/gpt-3.5-turbo", content, maxTokens, 1.2)
  }

  /**
   * The message of the `Error` thrown for a non-2xx status: "HTTP ", then
   * digits that denote the status.
   */
  function HttpError(status: nat): (m: string)
    ensures |m| > 5 && m[..5] == "HTTP "
    ensures m[5..] == DecimalString(status)
    ensures AllDigits(m[5..]) && DigitsValue(m[5..]) == status
  {
    var m := "HTTP " + DecimalString(status);
    assert m[5..] == DecimalString(status);
    m
  }

  /**
   * `complete`: no request without an API key; otherwise exactly one, and
   * every failure of it resolves to the local fallback with an error message.
   * It never fails and its content is never empty.
   */
  function Complete(service: LlmService, prompt: string, maxTokens: int, outcome: FetchOutcome, pick: real): (c: Completion)
    requires 0.0 <= pick < 1.0
    ensures |c.response.content| > 0
    ensures service.apiKey == "" ==> c == Completion(LlmResponse(FallbackCompletion(prompt, pick), None), None)
    ensures service.apiKey != "" ==> c.request == Some(RequestFor(service, prompt, maxTokens))
    ensures service.apiKey != "" && outcome.Rejected? ==>
      c.response == LlmResponse(FallbackCompletion(prompt, pick),
        Some(if outcome.thrown.ErrorObject? then outcome.thrown.message else "Unknown error"))
    ensures service.apiKey != "" && outcome.Responded? && !(200 <= outcome.status <= 299) ==>
      c.response == LlmResponse(FallbackCompletion(prompt, pick), Some(HttpError(outcome.status)))
    ensures service.apiKey != "" && outcome.Responded? && 200 <= outcome.status <= 299 && outcome.body.Unparsable? ==>
      c.response == LlmResponse(FallbackCompletion(prompt, pick), Some(outcome.body.message))
    ensures service.apiKey != "" && outcome.Responded? && 200 <= outcome.status <= 299 && outcome.body.Parsed? ==>
      c.response == LlmResponse(
        if outcome.body.content.Some? && outcome.body.content.value != "" then outcome.body.content.value
        else FallbackCompletion(prompt, pick),
        None)
    ensures c.response.error.None? <==> service.apiKey == "" || (outcome.Responded? && 200 <= outcome.status <= 299 && outcome.body.Parsed?)
    ensures c.response.error.None? && c.response.content != FallbackCompletion(prompt, pick) ==>
      service.apiKey != "" && outcome == Responded(outcome.status, Parsed(Some(c.response.content)))
  {
    if service.apiKey == "" then
      Completion(LlmResponse(FallbackCompletion(prompt, pick), None), None)
    else
      var request := Some(RequestFor(service, prompt, maxTokens));
      match outcome
      case Rejected(thrown) =>
        Completion(LlmResponse(FallbackCompletion(prompt, pick),
          Some(if thrown.ErrorObject? then thrown.message else "Unknown error")), request)
      case Responded(status, body) =>
        if !(200 <= status <= 299) then
          Completion(LlmResponse(FallbackCompletion(prompt, pick), Some(HttpError(status))), request)
        else
          match body
          case Unparsable(message) =>
            Completion(LlmResponse(FallbackCompletion(prompt, pick), Some(message)), request)
          case Parsed(content) =>
            var text := if content.Some? && content.value != "" then content.value else FallbackCompletion(prompt, pick);
            Completion(LlmResponse(text, None), request)
  }

  /**
   * The service `getLLMCompletion` builds from the optional `llm` section:
   * a missing section, key or endpoint is "".
   */
  function ServiceFor(config: Config.ChaosConfig): (s: LlmService)
    ensures config.llm.None? ==> s == LlmService("", "")
    ensures config.llm.Some? ==>
      s.apiKey == config.llm.value.apiKey.GetOr("") && s.endpoint == config.llm.value.endpoint.GetOr("")
  {
    if config.llm.Some? then
      LlmService(config.llm.value.apiKey.GetOr(""), config.llm.value.endpoint.GetOr(""))
    else
      LlmService("", "")
  }

  /**
   * `getLLMCompletion`: `complete(prompt, 20)` on the service built from the
   * config; only the content is kept. The request it would send is returned
   * beside it.
   */
  function GetLlmCompletion(prompt: string, config: Config.ChaosConfig, outcome: FetchOutcome, pick: real): (r: (string, Option<Request>))
    requires 0.0 <= pick < 1.0
    ensures var c := Complete(ServiceFor(config), prompt, 20, outcome, pick);
            r == (c.response.content, c.request)
    ensures |r.0| > 0
    ensures config.llm.None? ==> r == (FallbackCompletion(prompt, pick), None)
    ensures ServiceFor(config).apiKey == "" ==> r == (FallbackCompletion(prompt, pick), None)
    ensures r.1.Some? <==> config.llm.Some? && config.llm.value.apiKey.GetOr("") != ""
    ensures r.1.Some? ==> r.1 == Some(RequestFor(ServiceFor(config), prompt, 20))
    ensures r.1.Some? ==> r.1.value.maxTokens == 20
    ensures r.1.Some? ==> config.llm.Some? && r.1.value.endpoint == config.llm.value.endpoint.GetOr("")
    ensures r.1.Some? && outcome.Responded? && 200 <= outcome.status <= 299 && outcome.body.Parsed?
              && outcome.body.content.Some? && outcome.body.content.value != "" ==>
            r.0 == outcome.body.content.value
    ensures r.1.Some? && !(outcome.Responded? && 200 <= outcome.status <= 299 && outcome.body.Parsed?) ==>
            r.0 == FallbackCompletion(prompt, pick)
  {
    var c := Complete(ServiceFor(config), prompt, 20, outcome, pick);
    (c.response.content, c.request)
  }

  /** Substring, not suffix, matching: a key anywhere in the prompt counts. */
  lemma MatchAnywhere(pick: real)
    requires 0.0 <= pick < 1.0
    ensures FallbackCompletion("Hello world", pick) in FallbackTable[0].1
  {
    assert OccursAt(Lower("Hello world"), "hello", 0);
  }

  /** The first key in table order wins: "hello" is preferred over a later "the". */
  lemma {:induction false} FirstKeyWins(prompt: string, pick: real)
    requires 0.0 <= pick < 1.0
    requires Contains(Lower(prompt), "hello")
    ensures FallbackCompletion(prompt, pick) in FallbackTable[0].1
  {
    var r := FirstContained(Lower(prompt), 0);
    assert r.Some? && r.value == 0;
  }

  /** A prompt that contains no key falls back to one of the random endings. */
  lemma {:induction false} NoKeyRandomEnding(prompt: string, pick: real)
    requires 0.0 <= pick < 1.0
    requires forall i :: 0 <= i < |FallbackTable| ==> !Contains(Lower(prompt), FallbackTable[i].0)
    ensures FallbackCompletion(prompt, pick) in RandomEndings
  {
    var r := FirstContained(Lower(prompt), 0);
    assert r.None?;
  }

  /**
   * Each table entry holds the first three completions of the same key of
   * the dictionary, in the same order, and the random endings are the first
   * six fallback endings.
   */
  lemma TablesAgreeWithDictionary()
    ensures |FallbackTable| == |Dictionary.DefaultChaosDictionary.triggers|
    ensures forall i :: 0 <= i < |FallbackTable| ==>
      FallbackTable[i].0 == Dictionary.DefaultChaosDictionary.triggers[i].0 &&
      FallbackTable[i].1 == Dictionary.DefaultChaosDictionary.triggers[i].1.completions[..3]
    ensures RandomEndings == Dictionary.DefaultChaosDictionary.fallbackEndings[..6]
  {
  }
}
