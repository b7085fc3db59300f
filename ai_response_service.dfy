/**
 * `AIResponseService.generateResponse` of src/aiResponseService.ts: reads the
 * settings, refuses a missing API key, calls the API service and filters its
 * result by the `isMeaningfulText` field.
 */
module AIResponseService {
  import opened Types
  import opened ApiStream
  import PromptService
  import ApiService

  /** Why the returned promise rejects. */
  datatype Failure = ApiKeyNotConfigured | ApiRejected

  /** How the returned promise settles: rejected, or resolved with a
      string or undefined. */
  datatype Settled = Threw(failure: Failure) | Returned(value: Option<string>)

  /** The arguments handed to `ApiService.generateResponse`, by position:
      the debug flag lands in the `conversationalStyle` slot and the last
      parameter, `debugMode`, is left undefined. */
  datatype ApiArguments = ApiArguments(
    text: string,
    role: Role,
    apiKey: Option<string>,
    apiUrl: Option<string>,
    model: Option<string>,
    temperature: Option<real>,
    conversationalStyle: Option<bool>,
    debugMode: Option<bool>)

  function Forwarded(text: string, role: Role, config: DiaryServiceConfig): (a: ApiArguments)
    ensures a.conversationalStyle == Some(config.debugMode) && a.debugMode == None
    ensures a.apiKey == config.apiKey && a.apiUrl == config.apiUrl
    ensures a.model == config.model && a.temperature == config.temperature
  {
    ApiArguments(text, role, config.apiKey, config.apiUrl, config.model, config.temperature, Some(config.debugMode), None)
  }

  /** The request the API service sends on this service's behalf, if any. */
  function Request(text: string, role: Role, config: DiaryServiceConfig): (r: Option<HttpRequest>)
    ensures r.Some? <==> !IsFalsyText(config.apiKey)
  {
    if IsFalsyText(config.apiKey) then None
    else
      var a := Forwarded(text, role, config);
      ApiService.Request(a.text, a.role, a.apiKey, a.apiUrl, a.model, a.temperature, a.conversationalStyle)
  }

  /** With the debug flag on, the request asks for the conversational style. */
  lemma DebugModeSelectsConversationalStyle(text: string, role: Role, config: DiaryServiceConfig, numText: real -> string)
    requires !IsFalsyText(config.apiKey)
    ensures Request(text, role, config).value.payload.messages[0].content
      == PromptService.BuildSystemPrompt(role, config.debugMode, 0.0, [], numText)
  {
    ApiService.SystemPromptHasNoLengthClause(role, Some(config.debugMode), numText);
  }

  /** The filter after the call, for a given reading of `isMeaningfulText`:
      a rejection propagates, null gives undefined, a result whose field is
      falsy gives undefined, and otherwise the answer text is returned. */
  function Settle(outcome: ApiService.ApiOutcome, isMeaningfulText: CompletionResult -> Option<bool>): (s: Settled)
    ensures s == Threw(ApiRejected) <==> outcome == ApiService.Rejected
    ensures outcome == ApiService.NullResult ==> s == Returned(None)
    ensures s.Returned? && s.value.Some? <==> outcome.Resolved? && isMeaningfulText(outcome.result) == Some(true)
    ensures s.Returned? && s.value.Some? ==> s.value.value == outcome.result.response
  {
    match outcome
    case Rejected => Threw(ApiRejected)
    case NullResult => Returned(None)
    case Resolved(result) =>
      if isMeaningfulText(result) != Some(true) then Returned(None) else Returned(Some(result.response))
  }

  /** `response.isMeaningfulText` as the code reads it: the API service
      resolves with `{response, reasoningContent}` only, so the field is
      undefined. */
  function AbsentField(result: CompletionResult): Option<bool>
  {
    None
  }

  /** `generateResponse`: a falsy key throws before the API service is
      called; otherwise the API service's outcome is filtered. As written,
      it never returns text. */
  function GenerateResponse(text: string, role: Role, config: DiaryServiceConfig,
                            transport: ApiService.Transport, parse: string -> Payload): (s: Settled)
    ensures s == Threw(ApiKeyNotConfigured) <==> IsFalsyText(config.apiKey)
    ensures s == Threw(ApiRejected)
      <==> !IsFalsyText(config.apiKey) && (transport.PostRejected? || transport.last.StreamError?)
    ensures s.Returned? ==> s.value == None
  {
    if IsFalsyText(config.apiKey) then Threw(ApiKeyNotConfigured)
    else
      var a := Forwarded(text, role, config);
      Settle(ApiService.Outcome(a.role, a.apiKey, transport, parse), AbsentField)
  }

  /** Had the result carried a truthy `isMeaningfulText`, a completed stream
      would have returned its answer text. */
  lemma MeaningfulResultReturnsAnswer(role: Role, apiKey: Option<string>, chunks: seq<string>,
                                      parse: string -> Payload, isMeaningfulText: CompletionResult -> Option<bool>)
    requires !IsFalsyText(apiKey)
    requires forall r :: isMeaningfulText(r) == Some(true)
    ensures var final := ProcessStream(Initial(role.name), chunks, parse);
      Settle(ApiService.Outcome(role, apiKey, ApiService.Streamed(chunks, ApiService.Ended), parse), isMeaningfulText)
        == Returned(Some(final.fullResponse))
  {
  }
}
