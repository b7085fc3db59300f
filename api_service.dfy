/**
 * `ApiService.generateResponse` of src/apiService.ts: the API-key guard, the
 * request it sends, and how the promise it returns settles once the response
 * stream has been fed to the callbacks of `ApiStream`.
 */
module ApiService {
  import opened Types
  import opened JsText
  import opened PromptService
  import opened ApiStream

  const DefaultApiUrl := "https://api.openai.com/v1/chat/completions"
  const DefaultModel := "gpt-3.5-turbo"
  const DefaultTemperature: real := 0.7

  /** How the response stream finishes: its `end` or its `error` event. */
  datatype StreamEnd = Ended | StreamError(message: string)

  /** What the network does with the POST: reject it, or answer with a
      stream of chunks that finishes one way or the other. */
  datatype Transport = PostRejected | Streamed(chunks: seq<string>, last: StreamEnd)

  /** How the returned promise settles: with null (the `catch` of the
      function), rejected, or resolved with the two buffers. */
  datatype ApiOutcome = NullResult | Rejected | Resolved(result: CompletionResult)

  /** `buildSystemPrompt(selectedRole, conversationalStyle)`: no input length
      and no extra instructions are passed, and an undefined style is the
      parameter's default, false. With no length clause no number is ever
      printed, so the formatting passed here is never used. */
  function SystemPrompt(role: Role, conversationalStyle: Option<bool>): string
  {
    BuildSystemPrompt(role, conversationalStyle == Some(true), 0.0, [], _ => "")
  }

  /** The request body: the system message, then the user's text; falsy
      model and temperature fall back to their defaults; always streamed. */
  function RequestBody(system: string, text: string, model: Option<string>, temperature: Option<real>): (p: RequestPayload)
    ensures p.stream
    ensures p.messages == [Message("system", system), Message("user", text)]
  {
    RequestPayload(TextOr(model, DefaultModel),
                   [Message("system", system), Message("user", text)],
                   NumberOr(temperature, DefaultTemperature),
                   true)
  }

  /** The POST `generateResponse` issues, if any. */
  function Request(text: string, role: Role, apiKey: Option<string>, apiUrl: Option<string>,
                   model: Option<string>, temperature: Option<real>, conversationalStyle: Option<bool>): (r: Option<HttpRequest>)
    ensures r.None? <==> IsFalsyText(apiKey)
    ensures r.Some? ==>
      && r.value.authorization == "Bearer " + apiKey.value
      && r.value.payload == RequestBody(SystemPrompt(role, conversationalStyle), text, model, temperature)
  {
    if IsFalsyText(apiKey) then None
    else Some(HttpRequest(TextOr(apiUrl, DefaultApiUrl), "Bearer " + apiKey.value,
                          RequestBody(SystemPrompt(role, conversationalStyle), text, model, temperature)))
  }

  /** How the promise of `generateResponse` settles. Only the missing key is
      caught and turned into null: the promise built inside the `try` is
      returned, not awaited, so a failed POST or a stream error rejects it. */
  function Outcome(role: Role, apiKey: Option<string>, transport: Transport, parse: string -> Payload): (o: ApiOutcome)
    ensures o == NullResult <==> IsFalsyText(apiKey)
    ensures o == Rejected <==> !IsFalsyText(apiKey) && (transport.PostRejected? || transport.last.StreamError?)
  {
    if IsFalsyText(apiKey) then NullResult
    else match transport
      case PostRejected => Rejected
      case Streamed(chunks, last) =>
        if last == Ended then
          var final := ProcessStream(Initial(role.name), chunks, parse);
          Resolved(CompletionResult(final.fullResponse, final.reasoningContent))
        else Rejected
  }

  /** `generateResponse`: the request it sends and how its promise settles.
      Its `debugMode` argument only decides what is logged. */
  method GenerateResponse(text: string, role: Role, apiKey: Option<string>, apiUrl: Option<string>,
                          model: Option<string>, temperature: Option<real>, conversationalStyle: Option<bool>,
                          transport: Transport, parse: string -> Payload)
    returns (request: Option<HttpRequest>, outcome: ApiOutcome)
    ensures request == Request(text, role, apiKey, apiUrl, model, temperature, conversationalStyle)
    ensures outcome == Outcome(role, apiKey, transport, parse)
  {
    if IsFalsyText(apiKey) {
      return None, NullResult;
    }
    var system := SystemPrompt(role, conversationalStyle);
    var payload := RequestBody(system, text, model, temperature);
    request := Some(HttpRequest(TextOr(apiUrl, DefaultApiUrl), "Bearer " + apiKey.value, payload));
    match transport {
      case PostRejected =>
        outcome := Rejected;
      case Streamed(chunks, last) =>
        var stream := Feed(role.name, chunks, parse);
        if last == Ended {
          var result := stream.OnEnd();
          outcome := Resolved(result);
        } else {
          stream.OnError(last.message);
          outcome := Rejected;
        }
    }
  }

  /** Falsy model and temperature settings (absent or empty, absent or 0)
      fall back to the defaults, an explicit temperature of 0 included;
      other values are sent as given. */
  lemma PayloadDefaults(system: string, text: string, model: Option<string>, temperature: Option<real>)
    ensures var p := RequestBody(system, text, model, temperature);
      && (p.model == DefaultModel <==> IsFalsyText(model) || model == Some(DefaultModel))
      && (!IsFalsyText(model) ==> p.model == model.value)
      && (p.temperature == DefaultTemperature <==> IsFalsyNumber(temperature) || temperature == Some(DefaultTemperature))
      && (IsFalsyNumber(temperature) ==> p.temperature == DefaultTemperature)
      && (!IsFalsyNumber(temperature) ==> p.temperature == temperature.value)
  {
  }

  /** The system message carries no length clause, and otherwise is exactly
      what the prompt builder makes of the role and the style. */
  lemma SystemPromptHasNoLengthClause(role: Role, conversationalStyle: Option<bool>, numText: real -> string)
    ensures SystemPrompt(role, conversationalStyle)
      == BuildSystemPrompt(role, conversationalStyle == Some(true), 0.0, [], numText)
    ensures forall c :: c in Clauses(role, conversationalStyle == Some(true), 0.0, []) ==> !c.LengthHint?
  {
    NumberTextUnusedWithoutLength(role, conversationalStyle == Some(true), 0.0, [], _ => "", numText);
  }

  /** What a resolved promise carries has been built only by the callbacks:
      each marker was written at most once, answering follows reasoning, and
      both texts extend from empty. */
  lemma ResolvedFromStream(role: Role, apiKey: Option<string>, chunks: seq<string>, parse: string -> Payload)
    requires !IsFalsyText(apiKey)
    ensures var final := ProcessStream(Initial(role.name), chunks, parse);
      && Outcome(role, apiKey, Streamed(chunks, Ended), parse)
         == Resolved(CompletionResult(final.fullResponse, final.reasoningContent))
      && Consistent(final)
      && Initial(role.name).output <= final.output
  {
    InitialConsistent(role.name);
    StreamConsistent(Initial(role.name), chunks, parse);
    StreamExtends(Initial(role.name), chunks, parse);
  }
}
