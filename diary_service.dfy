/**
 * src/diaryService.ts: the diary session. It keeps the configured roles, the
 * selected role, the current diary text and the last answer. It decides when
 * a finished paragraph is sent, sends it with the role's own prompt, and
 * builds the text that "Insert AI Response" adds to the diary.
 */
module DiaryService {
  import opened Types
  import opened JsText
  import opened ApiStream
  import ApiService
  import DocumentHandler

  /** How `enableDiaryMode` ends. */
  datatype EnableOutcome = NoRolesConfigured | Cancelled | Started

  /** `roles.find(r => r.name === name)`: the first role with that name. */
  function FindRole(roles: seq<Role>, name: string): (r: Option<Role>)
    ensures r.None? <==> forall i :: 0 <= i < |roles| ==> roles[i].name != name
    ensures r.Some? ==> exists i :: 0 <= i < |roles| && roles[i] == r.value && r.value.name == name
                                 && forall j :: 0 <= j < i ==> roles[j].name != name
  {
    if |roles| == 0 then None
    else if roles[0].name == name then Some(roles[0])
    else
      var r := FindRole(roles[1..], name);
      assert forall i :: 1 <= i < |roles| ==> roles[i] == roles[1..][i - 1];
      r
  }

  /** Picking the label of some role selects the first role of that name,
      which is that role itself when names are distinct. */
  lemma {:induction false} PickedRole(roles: seq<Role>, k: nat)
    requires k < |roles|
    ensures FindRole(roles, roles[k].name).Some?
    ensures var r := FindRole(roles, roles[k].name).value;
      r.name == roles[k].name && (r != roles[k] ==> exists j :: 0 <= j < k && roles[j] == r)
  {
    if k > 0 && roles[0].name != roles[k].name {
      PickedRole(roles[1..], k - 1);
      var r := FindRole(roles[1..], roles[k].name).value;
      if r != roles[k] {
        var j :| 0 <= j < k - 1 && roles[1..][j] == r;
        assert roles[j + 1] == r;
      }
    }
  }

  /** The text after the last newline: the last line an editor shows. */
  function LastLine(text: string): (line: string)
    ensures '\n' !in line && EndsWith(text, line)
    ensures |line| < |text| ==> text[|text| - |line| - 1] == '\n'
  {
    if |text| == 0 || text[|text| - 1] == '\n' then ""
    else LastLine(text[..|text| - 1]) + [text[|text| - 1]]
  }

  /** `handleTextChange`'s decision: the first change inserted a line break,
      the editor shows this document, its last line is blank and the whole
      text is not; the input is then the last paragraph. */
  function TextChangeTrigger(text: string, changeTexts: seq<string>, editorShowsDocument: bool): Option<string>
  {
    if |changeTexts| > 0 && '\n' in changeTexts[0] && editorShowsDocument
       && Trim(LastLine(text)) == "" && Trim(text) != ""
    then Some(DocumentHandler.LastParagraph(text))
    else None
  }

  /** What is sent is one trimmed line taken from a text that is not blank
      and whose last line is. */
  lemma TriggeredInput(text: string, changeTexts: seq<string>, editorShowsDocument: bool)
    requires TextChangeTrigger(text, changeTexts, editorShowsDocument).Some?
    ensures var input := TextChangeTrigger(text, changeTexts, editorShowsDocument).value;
      && '\n' !in input && Trim(input) == input
      && !IsBlank(text) && IsBlank(LastLine(text))
  {
    DocumentHandler.ParagraphIsOneLine(text);
    DocumentHandler.ParagraphIsTrimmed(text);
    TrimShape(text);
    TrimShape(LastLine(text));
  }

  /** No trigger without a line break in the first change. */
  lemma NoTriggerWithoutLineBreak(text: string, changeTexts: seq<string>, editorShowsDocument: bool)
    requires |changeTexts| == 0 || '\n' !in changeTexts[0]
    ensures TextChangeTrigger(text, changeTexts, editorShowsDocument) == None
  {
  }

  /** The request the diary sends: the role's raw prompt as system message
      (the prompt builder is not used), with the same defaults as the API
      service. */
  function DiaryRequest(selectedRole: Option<Role>, text: string, settings: DiaryServiceConfig): (r: Option<HttpRequest>)
    ensures r.Some? <==> selectedRole.Some? && !IsFalsyText(settings.apiKey)
  {
    if selectedRole.None? || IsFalsyText(settings.apiKey) then None
    else Some(HttpRequest(TextOr(settings.apiUrl, ApiService.DefaultApiUrl),
                          "Bearer " + settings.apiKey.value,
                          ApiService.RequestBody(selectedRole.value.prompt, text, settings.model, settings.temperature)))
  }

  /** The diary's request differs from the API service's only in its system
      message. */
  lemma DiaryRequestUsesRawPrompt(role: Role, text: string, settings: DiaryServiceConfig, conversationalStyle: Option<bool>)
    requires !IsFalsyText(settings.apiKey)
    ensures var mine := DiaryRequest(Some(role), text, settings).value;
            var theirs := ApiService.Request(text, role, settings.apiKey, settings.apiUrl, settings.model,
                                             settings.temperature, conversationalStyle).value;
      && mine.url == theirs.url && mine.authorization == theirs.authorization
      && mine.payload == theirs.payload.(messages := [Message("system", role.prompt), Message("user", text)])
  {
  }

  const ReasoningHeading := "**Reasoning:**\n\n"
  const AnswerHeading := "\n\n**Answer:**\n\n"

  /** The answer shown with its reasoning, in debug mode. */
  function ReasonedResponse(reasoning: string, answer: string): string
  {
    ReasoningHeading + reasoning + AnswerHeading + answer
  }

  /** The reasoning and the answer can both be read back from the layout. */
  lemma ReasonedRoundTrip(reasoning: string, answer: string)
    ensures var r := ReasonedResponse(reasoning, answer);
      && StartsWith(r, ReasoningHeading + reasoning + AnswerHeading)
      && r[|ReasoningHeading|..|ReasoningHeading| + |reasoning|] == reasoning
      && EndsWith(r, answer)
  {
    var head := ReasoningHeading + reasoning + AnswerHeading;
    ConcatEnds(head, answer);
    assert (head + answer)[|ReasoningHeading|..|ReasoningHeading| + |reasoning|]
        == (ReasoningHeading + reasoning)[|ReasoningHeading|..];
  }

  /** What the `end` callback stores: the answer, laid out after its
      reasoning exactly when there is reasoning and debug mode is on. */
  function EndResponse(fullResponse: string, reasoningContent: string, debugMode: bool): (r: string)
    ensures EndsWith(r, fullResponse)
    ensures r == fullResponse <==> reasoningContent == "" || !debugMode
  {
    if reasoningContent != "" && debugMode then
      ReasonedRoundTrip(reasoningContent, fullResponse);
      ReasonedResponse(reasoningContent, fullResponse)
    else fullResponse
  }

  /** What the stream's callbacks leave to store once the request has gone
      out: the `end` callback's answer, or nothing when the POST fails or the
      stream ends in an error. */
  function StreamedResponse(roleName: string, transport: ApiService.Transport,
                            parse: string -> Payload, debugMode: bool): Option<string>
  {
    match transport
    case PostRejected => None
    case Streamed(chunks, last) =>
      if last == ApiService.Ended then
        var final := ProcessStream(Initial(roleName), chunks, parse);
        Some(EndResponse(final.fullResponse, final.reasoningContent, debugMode))
      else None
  }

  /** `currentResponse` after `generateResponse`: the `end` callback sets
      it; every other path (no role, no key, a failed POST, a stream error)
      leaves it as it was. */
  function ResponseAfter(previous: Option<string>, selectedRole: Option<Role>, apiKey: Option<string>,
                         transport: ApiService.Transport, parse: string -> Payload, debugMode: bool): Option<string>
  {
    if selectedRole.None? || IsFalsyText(apiKey) then previous
    else
      var stored := StreamedResponse(selectedRole.value.name, transport, parse, debugMode);
      if stored.Some? then stored else previous
  }

  /** The stream's `data`, `end` and `error` callbacks, run over what the
      transport delivers: the answer the `end` callback stores, if any. */
  method ReceiveStream(roleName: string, transport: ApiService.Transport,
                       parse: string -> Payload, debugMode: bool) returns (stored: Option<string>)
    ensures stored == StreamedResponse(roleName, transport, parse, debugMode)
  {
    match transport {
      case PostRejected =>
        stored := None;
      case Streamed(chunks, last) =>
        var stream := Feed(roleName, chunks, parse);
        if last == ApiService.Ended {
          stored := Some(EndResponse(stream.fullResponse, stream.reasoningContent, debugMode));
        } else {
          stream.OnError(last.message);
          stored := None;
        }
    }
  }

  /** The diary stores what the API service would resolve with, laid out by
      `EndResponse`; whenever the API service would not resolve, the stored
      answer is unchanged. */
  lemma ResponseAgreesWithApiService(previous: Option<string>, role: Role, apiKey: Option<string>,
                                     transport: ApiService.Transport, parse: string -> Payload, debugMode: bool)
    ensures match ApiService.Outcome(role, apiKey, transport, parse)
      case Resolved(res) =>
        ResponseAfter(previous, Some(role), apiKey, transport, parse, debugMode)
          == Some(EndResponse(res.response, res.reasoningContent, debugMode))
      case _ => ResponseAfter(previous, Some(role), apiKey, transport, parse, debugMode) == previous
  {
    if !IsFalsyText(apiKey) && transport.Streamed? {
      if transport.last == ApiService.Ended {
        var final := ProcessStream(Initial(role.name), transport.chunks, parse);
        assert ApiService.Outcome(role, apiKey, transport, parse)
          == ApiService.Resolved(CompletionResult(final.fullResponse, final.reasoningContent));
        assert StreamedResponse(role.name, transport, parse, debugMode)
          == Some(EndResponse(final.fullResponse, final.reasoningContent, debugMode));
      } else {
        assert StreamedResponse(role.name, transport, parse, debugMode) == None;
      }
    }
  }

  /** How `insertResponse` names the role: an unselected role interpolates
      as "undefined". */
  function RoleLabel(selectedRole: Option<Role>): string
  {
    if selectedRole.None? then "undefined" else selectedRole.value.name
  }

  const FeedbackHeading := "\n\n## Feedback from "

  /** The text `insertResponse` adds at the end of the diary. */
  function FeedbackBlock(roleLabel: string, response: string): string
  {
    FeedbackHeading + roleLabel + "\n\n" + response + "\n"
  }

  /** The block is a level-two heading naming the role, a blank line, the
      response and a final newline; the response reads back intact. */
  lemma FeedbackRoundTrip(roleLabel: string, response: string)
    ensures var block := FeedbackBlock(roleLabel, response);
      && StartsWith(block, FeedbackHeading + roleLabel + "\n\n")
      && block[|block| - 1] == '\n'
      && block[|FeedbackHeading + roleLabel + "\n\n"|..|block| - 1] == response
  {
    var head := FeedbackHeading + roleLabel + "\n\n";
    ConcatEnds(head, response + "\n");
    assert FeedbackBlock(roleLabel, response) == head + (response + "\n");
  }

  /** What `insertResponse` inserts, if anything: nothing without a truthy
      answer or without an editor. */
  function Insertion(currentResponse: Option<string>, selectedRole: Option<Role>, editorOpen: bool): (r: Option<string>)
    ensures r.Some? <==> !IsFalsyText(currentResponse) && editorOpen
  {
    if IsFalsyText(currentResponse) || !editorOpen then None
    else Some(FeedbackBlock(RoleLabel(selectedRole), currentResponse.value))
  }

  class DiaryService {
    var roles: seq<Role>
    var debugMode: bool
    var currentDiaryEntry: Option<string>
    var currentResponse: Option<string>
    var selectedRole: Option<Role>

    /** The service as constructed: no entry, no answer, no role, and the
        settings loaded. */
    constructor (configuredRoles: Option<seq<Role>>, configuredDebugMode: Option<bool>)
      ensures roles == (if configuredRoles.None? then [] else configuredRoles.value)
      ensures debugMode == (configuredDebugMode == Some(true))
      ensures currentDiaryEntry == None && currentResponse == None && selectedRole == None
    {
      roles := [];
      debugMode := false;
      currentDiaryEntry := None;
      currentResponse := None;
      selectedRole := None;
      new;
      LoadSettings(configuredRoles, configuredDebugMode);
    }

    /** `loadSettings`: `roles || []` (an empty list is kept, being truthy)
        and `debugMode || false`. */
    method LoadSettings(configuredRoles: Option<seq<Role>>, configuredDebugMode: Option<bool>)
      modifies this
      ensures roles == (if configuredRoles.None? then [] else configuredRoles.value)
      ensures debugMode == (configuredDebugMode == Some(true))
      ensures currentDiaryEntry == old(currentDiaryEntry) && currentResponse == old(currentResponse)
      ensures selectedRole == old(selectedRole)
    {
      roles := if configuredRoles.None? then [] else configuredRoles.value;
      debugMode := configuredDebugMode == Some(true);
    }

    /** `enableDiaryMode`, given the label the user picks (None when the
        pick is cancelled). Entry and answer are reset before anything else;
        the role changes only when a label was picked. */
    method EnableDiaryMode(picked: Option<string>) returns (outcome: EnableOutcome)
      modifies this
      ensures currentDiaryEntry == None && currentResponse == None
      ensures roles == old(roles) && debugMode == old(debugMode)
      ensures outcome == NoRolesConfigured <==> |roles| == 0
      ensures outcome == Cancelled <==> |roles| > 0 && picked.None?
      ensures outcome == Started ==> selectedRole == FindRole(roles, picked.value)
      ensures outcome != Started ==> selectedRole == old(selectedRole)
    {
      currentDiaryEntry := None;
      currentResponse := None;
      if |roles| == 0 {
        return NoRolesConfigured;
      }
      if picked.None? {
        return Cancelled;
      }
      selectedRole := FindRole(roles, picked.value);
      outcome := Started;
    }

    /** `handleTextChange`: records the text, and returns the input of the
        response it starts, if any. */
    method HandleTextChange(text: string, changeTexts: seq<string>, editorShowsDocument: bool)
      returns (generateFor: Option<string>)
      modifies this
      ensures currentDiaryEntry == Some(text)
      ensures roles == old(roles) && debugMode == old(debugMode)
      ensures currentResponse == old(currentResponse) && selectedRole == old(selectedRole)
      ensures generateFor == TextChangeTrigger(text, changeTexts, editorShowsDocument)
    {
      currentDiaryEntry := Some(text);
      generateFor := None;
      if |changeTexts| > 0 && '\n' in changeTexts[0] && editorShowsDocument {
        if Trim(LastLine(text)) == "" && |Trim(text)| > 0 {
          var paragraph := DocumentHandler.ExtractLastParagraph(text);
          generateFor := Some(paragraph);
        }
      }
    }

    /** `generateResponse`: the request it sends, and the answer it stores
        when the stream ends. */
    method GenerateResponse(text: string, settings: DiaryServiceConfig,
                            transport: ApiService.Transport, parse: string -> Payload)
      returns (request: Option<HttpRequest>)
      modifies this
      ensures request == DiaryRequest(old(selectedRole), text, settings)
      ensures currentResponse
        == ResponseAfter(old(currentResponse), old(selectedRole), settings.apiKey, transport, parse, old(debugMode))
      ensures roles == old(roles) && debugMode == old(debugMode)
      ensures currentDiaryEntry == old(currentDiaryEntry) && selectedRole == old(selectedRole)
    {
      request := DiaryRequest(selectedRole, text, settings);
      if request.None? {
        return;
      }
      var stored := ReceiveStream(selectedRole.value.name, transport, parse, debugMode);
      if stored.Some? {
        currentResponse := stored;
      }
    }

    /** `insertResponse`, given whether an editor is active: the text it
        inserts, if any. */
    method InsertResponse(editorOpen: bool) returns (inserted: Option<string>)
      ensures inserted == Insertion(currentResponse, selectedRole, editorOpen)
    {
      if currentResponse.None? || currentResponse.value == "" {
        return None;
      }
      if !editorOpen {
        return None;
      }
      inserted := Some(FeedbackBlock(RoleLabel(selectedRole), currentResponse.value));
    }
  }
}
