# vsce-diary in Dafny

vsce-diary is a VS Code extension for keeping a diary. The user picks a role (a name and a system prompt) and writes in a new Markdown document. When they finish a paragraph with Enter, the extension sends that paragraph to an OpenAI-compatible chat-completion endpoint. The answer streams into an output channel and can then be inserted into the diary.

This project models the logic at the core of that extension and proves properties of it:

- **`JsText`**: the JavaScript string built-ins the code relies on (`trim` with its exact whitespace set, `startsWith`, `split`, `join`, `repeat`).
- **`Types`**: the records of `src/types.ts` and JavaScript falsiness of settings (`x || default`).
- **`PromptService`**: `buildSystemPrompt`, seen as the list of clauses it appends and the text they render to, and the four-tier `calculateRecommendedLength`.
- **`ApiStream`**: the `data`, `end` and `error` callbacks of the streaming request. There are two forms:
  - a pure fold over the events of each line, which carries the invariants;
  - the class `StreamAccumulator`, whose fields the callbacks update in place, proved to follow the fold.
- **`ApiService`**: `ApiService.generateResponse`, covering the API-key guard, the request it sends and how its promise settles.
- **`DocumentHandler`**: `extractLastParagraph`, with its two index loops, and the delimited block `insertResponse` writes.
- **`DiaryService`**: the class `DiaryService`. Its fields are `roles`, `debugMode`, `currentDiaryEntry`, `currentResponse` and `selectedRole`. Its methods are:
  - `loadSettings`;
  - `enableDiaryMode`;
  - the `handleTextChange` trigger;
  - `generateResponse`, which sends the raw role prompt and stores the answer on `end`;
  - `insertResponse`.
- **`AIResponseService`**: the orchestrator's key guard, the arguments it forwards and its result filter.

Everything outside the program is a parameter:

- `JSON.parse` plus the field accesses on its result are a function `parse: string -> Payload`.
- The payload fields as JSON values: a delta's reasoning and content are strings (or absent). A truthy field whose string form is empty, such as an empty array, would write "Thinking..." yet leave the reasoning buffer empty; the wire format sends strings or null, so this case is not represented.
- JavaScript's number-to-string conversion is a function `numText: real -> string`.
- The network is a `Transport`: a rejected POST, or a sequence of chunks that ends with `end` or with `error`.
- The user's quick-pick choice, the document's text and the active editor are plain arguments.

Behaviour as written, which the model follows:

- `AIResponseService.generateResponse` reads `isMeaningfulText`, a field the API service's result never has. So every call that does not throw returns `undefined`. `AIResponseService.GenerateResponse` proves this.
- The same method passes the debug flag in the position of `conversationalStyle`. The conversational clause is therefore sent exactly when debug mode is on (`AIResponseService.DebugModeSelectsConversationalStyle`).
- In `ApiService.generateResponse` the promise built inside `try` is returned without `await`. So a failed POST or a stream error rejects the promise; only the missing key is turned into `null`.
- The diary sends the role's raw prompt as the system message; the prompt builder is not used there.
- `insertResponse` names an unselected role `undefined`.
- `extractLastParagraph` skips only `' '`, `'\n'`, `'\r'` and `'\t'` at the end, but then trims the full JavaScript whitespace set. A text whose last line holds only a no-break space, such as `"a\n"` followed by a no-break space, therefore yields `""` although it is not blank, and the diary sends that empty paragraph (`DocumentHandler.NoBreakSpaceParagraph`). A no-break space after other text on the same line is only trimmed off.
- The recommended length has four tiers capped at 1000. It stays within [50, 1000] but drops at every tier boundary.

## Model

| member | source | states |
|---|---|---|
| JsText.Trim | src/documentHandler.ts:46 | `trim`: what is left after dropping the leading and trailing whitespace runs, never longer than the text |
| JsText.TrimShape | src/apiService.ts:93 | `trim` leaves no whitespace at either end, and yields "" exactly for a blank line (the line filter) |
| JsText.TrimIdempotent | src/documentHandler.ts:46 | trimming twice is trimming once |
| JsText.TrimSlice | src/documentHandler.ts:46 | `trim` keeps one slice of the text, with only whitespace outside it |
| JsText.LeadingWhitespaceSpec | src/documentHandler.ts:46 | the run `trim` removes at the start is all whitespace and stops at the first other character |
| JsText.TrailingWhitespaceSpec | src/documentHandler.ts:46 | the run `trim` removes at the end is all whitespace and starts just after the last other character |
| JsText.TrimDropsLeading | src/documentHandler.ts:46 | a whitespace character that can occur only at the first position does not survive `trim` |
| JsText.Join | src/promptService.ts:40 | `join(sep)`: the pieces with the separator between each pair; `JoinSplit` relates it to `split` |
| JsText.JoinSplit | src/apiService.ts:93 | splitting on a character and joining with it gives back the text: the pieces are the whole chunk, in order |
| JsText.Split | src/apiService.ts:93 | `split('\n')` gives at least one piece and no piece contains the separator |
| JsText.Repeat | src/documentHandler.ts:61 | `repeat` gives n copies of the character |
| Types.TextOr | src/apiService.ts:53 | JavaScript's `or` with a fallback gives the fallback for an absent or empty string, otherwise the string |
| Types.NumberOr | src/apiService.ts:58 | JavaScript's `or` with a fallback gives the fallback for an absent or zero number, otherwise the number |
| PromptService.RecommendedLength | src/promptService.ts:51-64 | the recommended length is always between 50 and 1000 |
| PromptService.RecommendedLengthNotMonotone | src/promptService.ts:55-63 | the tiers give 49→98, 50→75, 199→298.5, 200→200, 499→499, 500→400 |
| PromptService.BuildSystemPrompt | src/promptService.ts:12-44 | `buildSystemPrompt`: the texts of `Clauses` concatenated in order; the lemmas below state its start, its length clause, its end and its default form |
| PromptService.Clauses | src/promptService.ts:12-44 | role prompt then conciseness open every prompt; a length hint iff the length is positive; language and diary clauses always; conversational iff asked; extra instructions iff non-empty |
| PromptService.ClauseOrder | src/promptService.ts:19-41 | clauses always come in the fixed order role, conciseness, length, language, diary, conversational, extra, each at most once |
| PromptService.PromptStartsWithRole | src/promptService.ts:19-22 | the prompt starts with the role's prompt immediately followed by the conciseness clause |
| PromptService.PromptLengthClause | src/promptService.ts:25-28 | for a positive length the clause stating the length and the recommendation follows the conciseness clause directly |
| PromptService.DefaultPrompt | src/promptService.ts:12-43 | with default arguments the prompt is exactly role prompt + conciseness + language + diary clauses |
| PromptService.PromptEndsWithExtra | src/promptService.ts:39-41 | non-empty extra instructions end the prompt as a space and the instructions joined by single spaces |
| PromptService.NumberTextUnusedWithoutLength | src/promptService.ts:25-28 | without a positive length, number formatting never reaches the prompt |
| ApiStream.Header | src/apiService.ts:76 | the line `AI Response (as <role>):` and a blank line written before the stream starts |
| ApiStream.Initial | src/apiService.ts:70-76 | empty answer and reasoning buffers, not answering, the channel holding only the header |
| ApiStream.PayloadEvent | src/apiService.ts:106-141 | a payload yields only non-empty pieces: usage ends the chunk; malformed or delta-less payloads are ignored; reasoning wins over content |
| ApiStream.LineEvent | src/apiService.ts:96-118 | a line yields only non-empty pieces of text |
| ApiStream.Events | src/apiService.ts:96-118 | one event per line, in order, each a `LineEvent` and so never an empty piece |
| ApiStream.ChunkLines | src/apiService.ts:93 | the lines of a chunk contain no newline and are never blank; `NonBlankKeepsAll` and `NonBlankConcat` state that every non-blank piece is kept, in order |
| ApiStream.NonBlankKeepsAll | src/apiService.ts:93 | the blank-line filter keeps every non-blank piece |
| ApiStream.NonBlankConcat | src/apiService.ts:93 | the filter keeps the pieces in order: filtering a concatenation concatenates the filtered parts |
| ApiStream.BlankLineIgnored | src/apiService.ts:93-96 | a blank line cannot start with `data: `, so the line handler would ignore it anyway |
| ApiStream.NonBlankDropsIgnored | src/apiService.ts:93-96 | the filter removes only lines whose event is ignored |
| ApiStream.ChunkSkipsBlankLines | src/apiService.ts:91-147 | the `data` callback gives the same state with or without the blank-line filter |
| ApiStream.Apply | src/apiService.ts:120-137 | one event: reasoning text goes to the reasoning buffer after a "Thinking..." marker on the first reasoning; answer text goes to the answer buffer after an "Answer:" marker on the first answer after reasoning; other events change nothing |
| ApiStream.Run | src/apiService.ts:95-143 | the events of a chunk applied in order up to the first end of chunk |
| ApiStream.ProcessChunk | src/apiService.ts:91-147 | the `data` callback on one chunk: `Run` over the events of its non-blank lines |
| ApiStream.ProcessStream | src/apiService.ts:91-147 | the `data` callback on each chunk in turn; lines are never joined across chunks |
| ApiStream.InitialConsistent | src/apiService.ts:70-76 | the state a request starts from satisfies the marker invariant |
| ApiStream.ApplyConsistent | src/apiService.ts:120-137 | each delta keeps the invariant (answering implies reasoning; one "Thinking..." marker iff there is reasoning; one "Answer:" marker iff answering); "Thinking..." precedes a reasoning piece exactly when no reasoning was seen; "Answer:" precedes a content piece exactly on the first content after reasoning |
| ApiStream.RunConsistent | src/apiService.ts:95-143 | a whole chunk keeps the marker invariant |
| ApiStream.StreamConsistent | src/apiService.ts:91-147 | the whole stream keeps the marker invariant, so each marker is written at most once |
| ApiStream.RunExtends | src/apiService.ts:126-136 | within a chunk both buffers and the channel only grow, and answering never stops |
| ApiStream.StreamExtends | src/apiService.ts:91-147 | over the stream the old buffers are prefixes of the new ones |
| ApiStream.RunStopsAtEnd | src/apiService.ts:100-115 | after `[DONE]` or a usage report, the rest of the chunk changes nothing |
| ApiStream.RunSkipsIgnored | src/apiService.ts:139-141 | dropping the ignored lines changes nothing, so a swallowed parse error does not stop the chunk |
| ApiStream.LinesIgnored | src/apiService.ts:96-120 | a line without the `data: ` prefix, or with a malformed, delta-less or empty payload, is ignored and processing goes on |
| ApiStream.DoneNeedsExactPayload | src/apiService.ts:100 | `data: [DONE]` ends the chunk; `data: [DONE]\r` is handed to the parser instead |
| ApiStream.DeltaEffect | src/apiService.ts:120-137 | non-empty reasoning extends only the reasoning buffer even when content is present; otherwise non-empty content extends only the answer; an empty delta changes nothing |
| ApiStream.StreamAccumulator.constructor | src/apiService.ts:70-76 | empty buffers, not answering, the channel showing the header |
| ApiStream.StreamAccumulator.OnData | src/apiService.ts:91-147 | the `data` callback changes the state exactly as the fold over the chunk's lines, and keeps the invariant |
| ApiStream.StreamAccumulator.OnLine | src/apiService.ts:96-142 | one line: it returns from the callback iff the line ends the chunk, and otherwise applies the line's event |
| ApiStream.StreamAccumulator.OnEnd | src/apiService.ts:149-153 | `end` resolves with exactly the answer buffer and the reasoning buffer |
| ApiStream.StreamAccumulator.OnError | src/apiService.ts:155-159 | `error` adds one line to the channel and leaves both buffers and the flag alone |
| ApiStream.Feed | src/apiService.ts:91-147 | feeding each chunk in order gives the fold over the stream |
| ApiService.SystemPrompt | src/apiService.ts:50 | the system message: the prompt builder's output for the role and a style that is on only when it is `true`, with no length and no extra instructions |
| ApiService.RequestBody | src/apiService.ts:52-60 | the body is always streamed and carries exactly the system message then the user's text |
| ApiService.PayloadDefaults | src/apiService.ts:52-60 | an absent or empty model becomes `gpt-3.5-turbo` and an absent or zero temperature becomes 0.7 (an explicit 0 included); other values are sent as given |
| ApiService.Request | src/apiService.ts:35-88 | no request iff the key is absent or empty; otherwise `Bearer` + key and the built body |
| ApiService.SystemPromptHasNoLengthClause | src/apiService.ts:50 | the system message is the prompt builder's output for the role and style, with no length clause |
| ApiService.Outcome | src/apiService.ts:34-167 | null iff the key is falsy; rejected iff the key is present and the POST or the stream fails |
| ApiService.GenerateResponse | src/apiService.ts:19-168 | the request sent and the settled promise are those of `Request` and `Outcome` |
| ApiService.ResolvedFromStream | src/apiService.ts:149-153 | a resolved result is the stream's final buffers, built under the marker invariant, with the header kept first on the channel |
| DocumentHandler.SeparatorIsWhitespace | src/documentHandler.ts:24 | every character the first loop skips is one `trim` removes too |
| DocumentHandler.LastContentIndex | src/documentHandler.ts:23-26 | where the first loop stops lies between -1 and the last index of the text |
| DocumentHandler.LastContentIndexSpec | src/documentHandler.ts:23-26 | the first loop stops at the last index not in `' ' '\n' '\r' '\t'`, or at -1, with only those characters after it |
| DocumentHandler.LastContentUnique | src/documentHandler.ts:23-26 | the stopping index is the only index with only separators after it and not itself a separator |
| DocumentHandler.ParagraphStart | src/documentHandler.ts:33-43 | where the second loop stops is at most one past the end index |
| DocumentHandler.ParagraphStartSpec | src/documentHandler.ts:33-43 | the second loop stops one past the last newline at positions 1..end, or at 0, with no newline at positions 1..end from there |
| DocumentHandler.LastParagraph | src/documentHandler.ts:21-47 | "" when the first loop finds no content, otherwise the trimmed slice from the second loop's start to the last content character |
| DocumentHandler.ExtractLastParagraph | src/documentHandler.ts:21-47 | the two loops compute `LastParagraph`: "" for separator-only text, else the trimmed slice from the paragraph start to the last content character |
| DocumentHandler.SeparatorsOnly | src/documentHandler.ts:23-30 | empty or separator-only text yields "" |
| DocumentHandler.NoNewlineInParagraph | src/documentHandler.ts:33-46 | the trimmed slice from the paragraph start contains no newline |
| DocumentHandler.ParagraphIsOneLine | src/documentHandler.ts:33-46 | the result contains no newline |
| DocumentHandler.ParagraphIsTrimmed | src/documentHandler.ts:46 | the result has no leading or trailing whitespace |
| DocumentHandler.LineIsOwnParagraph | src/documentHandler.ts:21-47 | a trimmed line without newlines is its own last paragraph |
| DocumentHandler.ExtractIdempotent | src/documentHandler.ts:21-47 | extracting from an extracted paragraph gives it back |
| DocumentHandler.NoBreakSpaceParagraph | src/documentHandler.ts:24-46 | `"a\n"` + no-break space is not blank yet yields "" |
| DocumentHandler.Delimiter | src/documentHandler.ts:61 | the delimiter is exactly 50 `=` |
| DocumentHandler.Attribution | src/documentHandler.ts:64 | the attribution line is present iff the role name is truthy |
| DocumentHandler.FormattedResponse | src/documentHandler.ts:61-64 | the opening delimiter, the attribution, the response and the closing delimiter, in that order |
| DocumentHandler.FormattedRoundTrip | src/documentHandler.ts:61-64 | the block opens with a blank line, the delimiter and the attribution, closes with the delimiter and a blank line, is 106 characters longer than response plus attribution, and gives the response back |
| DiaryService.FindRole | src/diaryService.ts:89 | `find` gives none iff no role has the name, otherwise the first role with it |
| DiaryService.PickedRole | src/diaryService.ts:80-89 | picking a role's label selects a role of that name, that role or an earlier duplicate |
| DiaryService.LastLine | src/diaryService.ts:131-132 | the editor's last line is the newline-free suffix after the last newline |
| DiaryService.TextChangeTrigger | src/diaryService.ts:128-139 | a response is started for the last paragraph exactly when the first change holds a newline, the editor shows the diary, the last line is blank and the text is not |
| DiaryService.TriggeredInput | src/diaryService.ts:128-139 | when a response is triggered, the text is not blank, its last line is, and the input is one trimmed line |
| DiaryService.NoTriggerWithoutLineBreak | src/diaryService.ts:128 | without a newline in the first change nothing is triggered |
| DiaryService.DiaryRequest | src/diaryService.ts:173-213 | no request iff no role is selected or the key is falsy |
| DiaryService.DiaryRequestUsesRawPrompt | src/diaryService.ts:205-213 | the diary's request equals the API service's except that the system message is the raw role prompt |
| DiaryService.ReasonedResponse | src/diaryService.ts:306 | the debug layout: reasoning heading, reasoning, answer heading, answer |
| DiaryService.ReasonedRoundTrip | src/diaryService.ts:306 | the debug layout starts with the reasoning heading, the reasoning and the answer heading, and gives back reasoning and answer |
| DiaryService.EndResponse | src/diaryService.ts:300-307 | the stored answer always ends with the answer text, and equals it unless there is reasoning and debug mode is on |
| DiaryService.StreamedResponse | src/diaryService.ts:300-319 | what the `end` callback stores, or nothing after a failed POST or a stream error |
| DiaryService.ResponseAfter | src/diaryService.ts:172-346 | the stored answer after `generateResponse`: the streamed answer when a role and key are present and the stream ends, otherwise the previous one |
| DiaryService.ReceiveStream | src/diaryService.ts:242-319 | the `data`, `end` and `error` callbacks leave the `end` callback's layout of the stream's final buffers to store, and nothing after a failed POST or a stream error |
| DiaryService.ResponseAgreesWithApiService | src/diaryService.ts:300-319 | the diary stores what the API service would resolve with; on every other path the stored answer is unchanged |
| DiaryService.RoleLabel | src/diaryService.ts:365 | the role's name, or "undefined" when no role is selected |
| DiaryService.FeedbackBlock | src/diaryService.ts:365 | the `## Feedback from` heading with the role label, a blank line, the response and a newline |
| DiaryService.FeedbackRoundTrip | src/diaryService.ts:365 | the inserted text is a `## Feedback from` heading with the role, a blank line, the response and a newline; the response reads back |
| DiaryService.Insertion | src/diaryService.ts:348-366 | text is inserted iff the stored answer is truthy and an editor is active |
| DiaryService.DiaryService.constructor | src/diaryService.ts:21-43 | no entry, answer or role, and the settings loaded |
| DiaryService.DiaryService.LoadSettings | src/diaryService.ts:45-58 | roles default to the empty list, the debug flag to false; nothing else changes |
| DiaryService.DiaryService.EnableDiaryMode | src/diaryService.ts:69-89 | entry and answer reset first; no roles and a cancelled pick leave the role alone; otherwise the role is `find` of the label |
| DiaryService.DiaryService.HandleTextChange | src/diaryService.ts:122-142 | the text is recorded and the response input is the trigger's; the diary's private `extractLastParagraph` (src/diaryService.ts:144-170) is the same algorithm as the document handler's, so it is modelled by `DocumentHandler.ExtractLastParagraph` |
| DiaryService.DiaryService.GenerateResponse | src/diaryService.ts:172-346 | the request sent is `DiaryRequest`; the stored answer is `ResponseAfter`: set by the `end` callback, otherwise unchanged; nothing else changes |
| DiaryService.DiaryService.InsertResponse | src/diaryService.ts:348-371 | the inserted text is `Insertion` of the current state |
| AIResponseService.Forwarded | src/aiResponseService.ts:28-36 | the settings are forwarded by position, so the debug flag becomes the conversational style and `debugMode` is undefined |
| AIResponseService.Request | src/aiResponseService.ts:24-36 | a request is sent iff the key is truthy |
| AIResponseService.DebugModeSelectsConversationalStyle | src/aiResponseService.ts:28-36 | the system message has the conversational clause exactly when debug mode is on |
| AIResponseService.Settle | src/aiResponseService.ts:38-43 | a rejection propagates, null gives undefined, and text is returned iff the result's `isMeaningfulText` is true, in which case it is the answer |
| AIResponseService.GenerateResponse | src/aiResponseService.ts:17-44 | throws the configuration error iff the key is falsy, rejects iff the API service does, and otherwise returns undefined |
| AIResponseService.MeaningfulResultReturnsAnswer | src/aiResponseService.ts:38-43 | with a truthy `isMeaningfulText`, a completed stream would return its answer text |

## Left out

- HTTP, axios and promises: the POST, its `Content-Type` and `responseType` options, and event-emitter registration. Also left out is when promises settle relative to each other. The network is a `Transport` value; a stream ends with either `end` or `error`, never both.
- `JSON.parse` and the field accesses on its result: a `parse` parameter. `Buffer.toString` is not modelled, so a chunk is already a string, and a multi-byte character split across chunks is not represented.
- JavaScript number formatting and floating-point rounding: numbers are exact reals, and the text of a number is a `numText` parameter. NaN settings are not modelled.
- Logging, `Date.now` timings and `src/logger.ts`.
- The messages assembled by `handleError` and the diary's `catch`, and the error and information pop-ups: they depend on axios error shapes.
- The output channel's `show`, `clear`, its "Generating response..." line and its error lines outside the stream. The channel is modelled from the header on, inside `StreamAccumulator`.
- ApiService.GenerateResponse: its `debugMode` parameter only selects what is logged, so it is not a parameter of the model.
- DiaryService.DiaryService.GenerateResponse: the diary's output channel writes are those of `StreamAccumulator` and are not kept in the diary's state.
- DiaryService.LastLine: VS Code also breaks lines at a lone `'\r'`; the model breaks lines at `'\n'` only.
- Editor and workspace glue: creating the diary document, change listeners and their disposal, the quick pick (given as the picked label), editor edits and cursor moves, and the status bar item.
- `src/configService.ts` is a thin getter layer over the settings; its values arrive as a `DiaryServiceConfig`. `src/responseViewService.ts` (a webview) and `src/extension.ts` (command registration) are not part of this model.
