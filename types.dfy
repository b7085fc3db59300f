/**
 * The records of src/types.ts and the JavaScript notion of a "falsy"
 * configuration value that every service applies to them.
 */
module Types {

  datatype Option<+T> = None | Some(value: T)

  /** A persona: its display name and its base system prompt. */
  datatype Role = Role(name: string, prompt: string)

  /** One chat message of the request body. */
  datatype Message = Message(role: string, content: string)

  /** `OpenAIRequestPayload`: the JSON body of a chat-completion request. */
  datatype RequestPayload = RequestPayload(
    model: string,
    messages: seq<Message>,
    temperature: real,
    stream: bool)

  /** A POST the extension issues: endpoint, `Authorization` header and body. */
  datatype HttpRequest = HttpRequest(url: string, authorization: string, payload: RequestPayload)

  /** `DiaryServiceConfig`: the extension's settings as the services read them. */
  datatype DiaryServiceConfig = DiaryServiceConfig(
    apiKey: Option<string>,
    apiUrl: Option<string>,
    model: Option<string>,
    temperature: Option<real>,
    roles: seq<Role>,
    debugMode: bool)

  /** `!s` for a `string | undefined` setting: absent or empty. */
  predicate IsFalsyText(s: Option<string>)
  {
    s == None || s == Some("")
  }

  /** `!t` for a `number | undefined` setting: absent or zero (NaN is not modelled). */
  predicate IsFalsyNumber(t: Option<real>)
  {
    t == None || t == Some(0.0)
  }

  /** `s || fallback` for a `string | undefined` setting. */
  function TextOr(s: Option<string>, fallback: string): (r: string)
    ensures IsFalsyText(s) ==> r == fallback
    ensures !IsFalsyText(s) ==> Some(r) == s && r != ""
  {
    if IsFalsyText(s) then fallback else s.value
  }

  /** `t || fallback` for a `number | undefined` setting. */
  function NumberOr(t: Option<real>, fallback: real): (r: real)
    ensures IsFalsyNumber(t) ==> r == fallback
    ensures !IsFalsyNumber(t) ==> Some(r) == t && r != 0.0
  {
    if IsFalsyNumber(t) then fallback else t.value
  }
}
