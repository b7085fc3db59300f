/**
 * The `data`, `end` and `error` callbacks of the streaming request in
 * src/apiService.ts (copied verbatim into src/diaryService.ts). Each chunk of
 * the response body is split into lines; blank lines are dropped; a line
 * counts only when it starts with `data: `. `[DONE]` and a usage report end
 * the processing of the current chunk. Every other payload is a delta whose
 * reasoning text or answer text is appended to its buffer and echoed to the
 * output channel, with a "Thinking..." marker before the first reasoning text
 * and an "Answer:" marker before the first answer text that follows some
 * reasoning.
 *
 * The state is given twice: as the value `Acc`, with pure functions folding
 * the events of a chunk and of a stream over it, and as the class
 * `StreamAccumulator`, whose fields the callbacks update in place and whose
 * methods are proved to follow the fold.
 */
module ApiStream {
  import opened Types
  import opened JsText

  /** What `JSON.parse` and the field accesses make of the text after `data: `:
      a parse failure or missing `choices` (`Malformed`), an object with a
      truthy `usage`, a `choices[0].delta` whose `reasoning_content` and
      `content` are given as strings ("" when absent or empty), or no delta. */
  datatype Payload = Malformed | Usage | Delta(reasoning: string, content: string) | NoDelta

  /** What one line of a chunk does to the state. */
  datatype Event = Ignored | EndOfChunk | ReasoningPiece(text: string) | AnswerPiece(text: string)

  /** One call on the output channel: `append` or `appendLine`. */
  datatype Write = Append(text: string) | AppendLine(text: string)

  const DataPrefix := "data: "
  const DoneSentinel := "[DONE]"
  const ThinkingMarker := AppendLine("Thinking...\n")
  const AnswerMarker := AppendLine("\n\nAnswer:\n")

  /** The closure variables of the callback and the output channel's writes. */
  datatype Acc = Acc(fullResponse: string, reasoningContent: string, isAnswering: bool, output: seq<Write>)

  /** What the `end` callback of src/apiService.ts resolves with. */
  datatype CompletionResult = CompletionResult(response: string, reasoningContent: string)

  /** The first line the channel shows after it is cleared for the answer. */
  function Header(roleName: string): Write
  {
    AppendLine("AI Response (as " + roleName + "):\n")
  }

  /** The state when the request is issued: empty buffers, not answering,
      and the channel holding only the header. */
  function Initial(roleName: string): Acc
  {
    Acc("", "", false, [Header(roleName)])
  }

  /** How many of the writes are `w`. */
  function Count(ws: seq<Write>, w: Write): nat
  {
    if |ws| == 0 then 0 else (if ws[0] == w then 1 else 0) + Count(ws[1..], w)
  }

  /** The invariant of the callback's state: answering has only started after
      some reasoning, the "Thinking..." marker has been written once exactly
      when there is reasoning text, and the "Answer:" marker once exactly when
      answering has started. */
  ghost predicate Consistent(acc: Acc)
  {
    && (acc.isAnswering ==> acc.reasoningContent != "")
    && Count(acc.output, ThinkingMarker) == (if acc.reasoningContent != "" then 1 else 0)
    && Count(acc.output, AnswerMarker) == (if acc.isAnswering then 1 else 0)
  }

  /** JavaScript truthiness decides which field of a delta is used: a
      non-empty `reasoning_content` wins over any `content`. */
  function PayloadEvent(p: Payload): (e: Event)
    ensures Piece(e)
  {
    match p
    case Malformed => Ignored
    case Usage => EndOfChunk
    case NoDelta => Ignored
    case Delta(reasoning, content) =>
      if reasoning != "" then ReasoningPiece(reasoning)
      else if content != "" then AnswerPiece(content)
      else Ignored
  }

  /** Pieces of text are never empty: an empty field is falsy and skipped. */
  predicate Piece(e: Event)
  {
    (e.ReasoningPiece? || e.AnswerPiece?) ==> e.text != ""
  }

  /** The event of one non-blank line. */
  function LineEvent(line: string, parse: string -> Payload): (e: Event)
    ensures Piece(e)
  {
    if !StartsWith(line, DataPrefix) then Ignored
    else
      var data := line[|DataPrefix|..];
      if data == DoneSentinel then EndOfChunk else PayloadEvent(parse(data))
  }

  /** The non-blank strings of `parts`, in order (`filter(line => line.trim() !== '')`). */
  function NonBlank(parts: seq<string>): (r: seq<string>)
    ensures |r| <= |parts|
    ensures forall i :: 0 <= i < |r| ==> r[i] in parts && Trim(r[i]) != ""
  {
    if |parts| == 0 then []
    else (if Trim(parts[0]) != "" then [parts[0]] else []) + NonBlank(parts[1..])
  }

  /** The lines of a chunk: its `'\n'`-separated pieces that are not blank. */
  function ChunkLines(chunk: string): (lines: seq<string>)
    ensures forall i :: 0 <= i < |lines| ==> '\n' !in lines[i] && Trim(lines[i]) != ""
  {
    NonBlank(Split(chunk, '\n'))
  }

  function Events(lines: seq<string>, parse: string -> Payload): (es: seq<Event>)
    ensures |es| == |lines|
    ensures forall i :: 0 <= i < |es| ==> Piece(es[i])
  {
    seq(|lines|, i requires 0 <= i < |lines| => LineEvent(lines[i], parse))
  }

  /** The effect of one event on the state. */
  function Apply(acc: Acc, e: Event): Acc
  {
    match e
    case ReasoningPiece(r) =>
      var marker := if !acc.isAnswering && |acc.reasoningContent| == 0 then [ThinkingMarker] else [];
      acc.(reasoningContent := acc.reasoningContent + r, output := acc.output + marker + [Append(r)])
    case AnswerPiece(c) =>
      var starts := |acc.reasoningContent| > 0 && !acc.isAnswering;
      acc.(isAnswering := acc.isAnswering || starts,
           fullResponse := acc.fullResponse + c,
           output := acc.output + (if starts then [AnswerMarker] else []) + [Append(c)])
    case _ => acc
  }

  /** The events of one chunk, in order, up to the first end of chunk. */
  function Run(acc: Acc, es: seq<Event>): Acc
    decreases |es|
  {
    if |es| == 0 || es[0] == EndOfChunk then acc else Run(Apply(acc, es[0]), es[1..])
  }

  /** The `data` callback on one chunk. */
  function ProcessChunk(acc: Acc, chunk: string, parse: string -> Payload): Acc
  {
    Run(acc, Events(ChunkLines(chunk), parse))
  }

  /** The `data` callback on each chunk of the stream, in order. Lines are
      never reassembled across chunks. */
  function ProcessStream(acc: Acc, chunks: seq<string>, parse: string -> Payload): Acc
  {
    if |chunks| == 0 then acc
    else ProcessChunk(ProcessStream(acc, chunks[..|chunks| - 1], parse), chunks[|chunks| - 1], parse)
  }

  // ---------------------------------------------------------------------
  // Properties of the fold
  // ---------------------------------------------------------------------

  lemma {:induction false} CountAppend(xs: seq<Write>, ys: seq<Write>, w: Write)
    ensures Count(xs + ys, w) == Count(xs, w) + Count(ys, w)
  {
    if |xs| == 0 {
      assert xs + ys == ys;
    } else {
      assert (xs + ys)[1..] == xs[1..] + ys;
      CountAppend(xs[1..], ys, w);
    }
  }

  /** The state a request starts from is consistent. */
  lemma InitialConsistent(roleName: string)
    ensures Consistent(Initial(roleName))
  {
    var h := Header(roleName);
    assert h.text[0] == 'A';
    assert h != ThinkingMarker && h != AnswerMarker;
    assert [h][1..] == [];
  }

  /** Each event keeps the state consistent. Under the invariant, the
      "Thinking..." marker precedes a reasoning piece exactly when there was
      no reasoning text yet, and the "Answer:" marker precedes an answer piece
      exactly when there was reasoning text and answering had not started. */
  lemma ApplyConsistent(acc: Acc, e: Event)
    requires Consistent(acc) && Piece(e)
    ensures Consistent(Apply(acc, e))
    ensures e.ReasoningPiece? ==>
      Apply(acc, e).output
        == acc.output + (if acc.reasoningContent == "" then [ThinkingMarker] else []) + [Append(e.text)]
    ensures e.AnswerPiece? ==>
      Apply(acc, e).output
        == acc.output + (if acc.reasoningContent != "" && !acc.isAnswering then [AnswerMarker] else [])
           + [Append(e.text)]
  {
    var next := Apply(acc, e);
    match e {
      case ReasoningPiece(r) =>
        var marker := if acc.reasoningContent == "" then [ThinkingMarker] else [];
        CountAppend(acc.output, marker, ThinkingMarker);
        CountAppend(acc.output + marker, [Append(r)], ThinkingMarker);
        CountAppend(acc.output, marker, AnswerMarker);
        CountAppend(acc.output + marker, [Append(r)], AnswerMarker);
        assert [Append(r)][1..] == [];
        if marker != [] {
          assert marker[1..] == [];
          assert ThinkingMarker != AnswerMarker;
        }
      case AnswerPiece(c) =>
        var marker := if acc.reasoningContent != "" && !acc.isAnswering then [AnswerMarker] else [];
        CountAppend(acc.output, marker, ThinkingMarker);
        CountAppend(acc.output + marker, [Append(c)], ThinkingMarker);
        CountAppend(acc.output, marker, AnswerMarker);
        CountAppend(acc.output + marker, [Append(c)], AnswerMarker);
        assert [Append(c)][1..] == [];
        if marker != [] {
          assert marker[1..] == [];
          assert ThinkingMarker != AnswerMarker;
        }
      case _ =>
    }
  }

  /** Processing a chunk keeps the state consistent. */
  lemma {:induction false} RunConsistent(acc: Acc, es: seq<Event>)
    requires Consistent(acc) && forall i :: 0 <= i < |es| ==> Piece(es[i])
    ensures Consistent(Run(acc, es))
    decreases |es|
  {
    if |es| > 0 && es[0] != EndOfChunk {
      ApplyConsistent(acc, es[0]);
      RunConsistent(Apply(acc, es[0]), es[1..]);
    }
  }

  /** The whole stream keeps the state consistent: from the initial state,
      each marker is written at most once. */
  lemma {:induction false} StreamConsistent(acc: Acc, chunks: seq<string>, parse: string -> Payload)
    requires Consistent(acc)
    ensures Consistent(ProcessStream(acc, chunks, parse))
  {
    if |chunks| > 0 {
      StreamConsistent(acc, chunks[..|chunks| - 1], parse);
      RunConsistent(ProcessStream(acc, chunks[..|chunks| - 1], parse),
                    Events(ChunkLines(chunks[|chunks| - 1]), parse));
    }
  }

  /** One state extends another: both buffers and the channel only grow, and
      answering, once started, stays started. */
  ghost predicate Extends(before: Acc, after: Acc)
  {
    && before.fullResponse <= after.fullResponse
    && before.reasoningContent <= after.reasoningContent
    && before.output <= after.output
    && (before.isAnswering ==> after.isAnswering)
  }

  lemma {:induction false} RunExtends(acc: Acc, es: seq<Event>)
    ensures Extends(acc, Run(acc, es))
    decreases |es|
  {
    if |es| > 0 && es[0] != EndOfChunk {
      var next := Apply(acc, es[0]);
      assert Extends(acc, next);
      RunExtends(next, es[1..]);
    }
  }

  /** The buffers and the channel are append-only over the whole stream. */
  lemma {:induction false} StreamExtends(acc: Acc, chunks: seq<string>, parse: string -> Payload)
    ensures Extends(acc, ProcessStream(acc, chunks, parse))
  {
    if |chunks| > 0 {
      var mid := ProcessStream(acc, chunks[..|chunks| - 1], parse);
      StreamExtends(acc, chunks[..|chunks| - 1], parse);
      RunExtends(mid, Events(ChunkLines(chunks[|chunks| - 1]), parse));
    }
  }

  /** An end of chunk (`[DONE]` or a usage report) ends the chunk: the events
      after it change nothing. */
  lemma {:induction false} RunStopsAtEnd(acc: Acc, es: seq<Event>, i: nat)
    requires i < |es| && es[i] == EndOfChunk
    ensures Run(acc, es) == Run(acc, es[..i])
    decreases i
  {
    if i == 0 {
      assert es[..0] == [];
    } else if es[0] != EndOfChunk {
      assert es[..i][0] == es[0] && es[..i][1..] == es[1..][..i - 1];
      RunStopsAtEnd(Apply(acc, es[0]), es[1..], i - 1);
    } else {
      assert es[..i][0] == EndOfChunk;
    }
  }

  /** The events that change nothing can be dropped without changing the result. */
  function WithoutIgnored(es: seq<Event>): (r: seq<Event>)
    ensures Ignored !in r
  {
    if |es| == 0 then []
    else (if es[0] == Ignored then [] else [es[0]]) + WithoutIgnored(es[1..])
  }

  lemma {:induction false} RunSkipsIgnored(acc: Acc, es: seq<Event>)
    ensures Run(acc, es) == Run(acc, WithoutIgnored(es))
    decreases |es|
  {
    if |es| > 0 {
      var rest := WithoutIgnored(es[1..]);
      RunSkipsIgnored(Apply(acc, es[0]), es[1..]);
      if es[0] == Ignored {
        assert WithoutIgnored(es) == rest;
      } else {
        assert WithoutIgnored(es) == [es[0]] + rest;
        assert ([es[0]] + rest)[1..] == rest;
      }
    }
  }

  /** `NonBlank` keeps every non-blank string of its input. */
  lemma {:induction false} NonBlankKeepsAll(parts: seq<string>)
    ensures forall i :: 0 <= i < |parts| && Trim(parts[i]) != "" ==> parts[i] in NonBlank(parts)
  {
    if |parts| > 0 {
      NonBlankKeepsAll(parts[1..]);
      forall i | 1 <= i < |parts| && Trim(parts[i]) != ""
        ensures parts[i] in NonBlank(parts)
      {
        assert parts[i] == parts[1..][i - 1];
      }
    }
  }

  /** `NonBlank` keeps the order: filtering a concatenation is concatenating
      the filtered parts. */
  lemma {:induction false} NonBlankConcat(xs: seq<string>, ys: seq<string>)
    ensures NonBlank(xs + ys) == NonBlank(xs) + NonBlank(ys)
  {
    if |xs| > 0 {
      assert (xs + ys)[1..] == xs[1..] + ys;
      NonBlankConcat(xs[1..], ys);
    } else {
      assert xs + ys == ys;
    }
  }

  /** A blank line cannot start with `data: `, so it is ignored. */
  lemma BlankLineIgnored(line: string, parse: string -> Payload)
    requires Trim(line) == ""
    ensures LineEvent(line, parse) == Ignored
  {
    TrimShape(line);
    if |DataPrefix| <= |line| {
      assert IsWhitespace(line[0]);
      assert line[..|DataPrefix|][0] == line[0];
    }
  }

  /** The events that matter of some lines: those of the first line, then
      those of the rest. */
  lemma EventsUncons(parts: seq<string>, parse: string -> Payload)
    requires |parts| > 0
    ensures var e := LineEvent(parts[0], parse);
      WithoutIgnored(Events(parts, parse))
        == (if e == Ignored then [] else [e]) + WithoutIgnored(Events(parts[1..], parse))
  {
    assert Events(parts, parse)[1..] == Events(parts[1..], parse);
  }

  /** Dropping the blank lines removes only ignored events. */
  lemma {:induction false} NonBlankDropsIgnored(parts: seq<string>, parse: string -> Payload)
    ensures WithoutIgnored(Events(NonBlank(parts), parse)) == WithoutIgnored(Events(parts, parse))
  {
    if |parts| > 0 {
      var kept := NonBlank(parts[1..]);
      NonBlankDropsIgnored(parts[1..], parse);
      EventsUncons(parts, parse);
      if Trim(parts[0]) == "" {
        BlankLineIgnored(parts[0], parse);
        assert NonBlank(parts) == kept;
      } else {
        assert NonBlank(parts) == [parts[0]] + kept;
        EventsUncons([parts[0]] + kept, parse);
        assert ([parts[0]] + kept)[1..] == kept;
      }
    }
  }

  /** The blank-line filter of the `data` callback makes no difference: a
      chunk is processed as if every `'\n'`-separated piece were handed to
      the line handler. */
  lemma ChunkSkipsBlankLines(acc: Acc, chunk: string, parse: string -> Payload)
    ensures ProcessChunk(acc, chunk, parse) == Run(acc, Events(Split(chunk, '\n'), parse))
  {
    var parts := Split(chunk, '\n');
    NonBlankDropsIgnored(parts, parse);
    RunSkipsIgnored(acc, Events(NonBlank(parts), parse));
    RunSkipsIgnored(acc, Events(parts, parse));
  }

  /** A line that does not start with `data: ` and a `data: ` line whose
      payload is malformed, has no delta, or has only empty fields, are
      ignored; processing goes on with the next line. */
  lemma LinesIgnored(line: string, parse: string -> Payload, acc: Acc, rest: seq<string>)
    requires !StartsWith(line, DataPrefix)
          || (line[|DataPrefix|..] != DoneSentinel
              && parse(line[|DataPrefix|..]) in {Malformed, NoDelta, Delta("", "")})
    ensures LineEvent(line, parse) == Ignored
    ensures Run(acc, Events([line] + rest, parse)) == Run(acc, Events(rest, parse))
  {
    assert Events([line] + rest, parse)[1..] == Events(rest, parse);
  }

  /** A `[DONE]` line ends the chunk only when the payload is exactly
      `[DONE]`: with a trailing carriage return it goes to the parser. */
  lemma DoneNeedsExactPayload(parse: string -> Payload)
    ensures LineEvent("data: [DONE]", parse) == EndOfChunk
    ensures LineEvent("data: [DONE]\r", parse) == PayloadEvent(parse("[DONE]\r"))
  {
    assert "data: [DONE]"[..6] == DataPrefix;
    assert "data: [DONE]"[6..] == DoneSentinel;
    assert "data: [DONE]\r"[..6] == DataPrefix;
    assert "data: [DONE]\r"[6..] == "[DONE]\r";
    assert |"[DONE]\r"| != |DoneSentinel|;
  }

  /** A delta's reasoning text goes only to the reasoning buffer, even when
      the delta also carries answer text; otherwise its answer text goes only
      to the answer buffer; a delta with both empty changes nothing. */
  lemma DeltaEffect(acc: Acc, reasoning: string, content: string)
    ensures var next := Apply(acc, PayloadEvent(Delta(reasoning, content)));
      && (reasoning != "" ==>
            next.fullResponse == acc.fullResponse
            && next.reasoningContent == acc.reasoningContent + reasoning
            && next.isAnswering == acc.isAnswering)
      && (reasoning == "" && content != "" ==>
            next.fullResponse == acc.fullResponse + content
            && next.reasoningContent == acc.reasoningContent)
      && (reasoning == "" && content == "" ==> next == acc)
  {
  }

  // ---------------------------------------------------------------------
  // The callbacks, updating their state in place
  // ---------------------------------------------------------------------

  class StreamAccumulator {
    var fullResponse: string
    var reasoningContent: string
    var isAnswering: bool
    var output: seq<Write>

    function State(): Acc
      reads this
    {
      Acc(fullResponse, reasoningContent, isAnswering, output)
    }

    ghost predicate Valid()
      reads this
    {
      Consistent(State())
    }

    /** The closure variables as the request starts, after the channel is
        cleared and shows the header. */
    constructor (roleName: string)
      ensures Valid() && State() == Initial(roleName)
    {
      fullResponse := "";
      reasoningContent := "";
      isAnswering := false;
      output := [Header(roleName)];
      new;
      InitialConsistent(roleName);
    }

    /** The `data` callback: one chunk, line by line, returning from the
        whole callback at `[DONE]` or a usage report. */
    method OnData(chunk: string, parse: string -> Payload)
      requires Valid()
      modifies this
      ensures Valid()
      ensures State() == ProcessChunk(old(State()), chunk, parse)
    {
      var lines := ChunkLines(chunk);
      ghost var es := Events(lines, parse);
      var i := 0;
      while i < |lines|
        invariant 0 <= i <= |lines|
        invariant Valid()
        invariant Run(State(), es[i..]) == Run(old(State()), es)
      {
        assert es[i..][0] == es[i] == LineEvent(lines[i], parse);
        assert es[i..][1..] == es[i + 1..];
        var stop := OnLine(lines[i], parse);
        if stop {
          return;
        }
        i := i + 1;
      }
    }

    /** The body of the loop over the lines of a chunk: `stop` says the
        callback returns; otherwise the line's event has been applied. */
    method OnLine(line: string, parse: string -> Payload) returns (stop: bool)
      requires Valid()
      modifies this
      ensures Valid()
      ensures stop <==> LineEvent(line, parse) == EndOfChunk
      ensures State() == Apply(old(State()), LineEvent(line, parse))
    {
      ghost var before := State();
      ApplyConsistent(before, LineEvent(line, parse));
      stop := false;
      if StartsWith(line, DataPrefix) {
        var data := line[|DataPrefix|..];
        if data == DoneSentinel {
          return true;
        }
        var parsed := parse(data);
        match parsed {
          case Usage =>
            return true;
          case Delta(reasoning, content) =>
            if reasoning != "" {
              if !isAnswering && |reasoningContent| == 0 {
                output := output + [ThinkingMarker];
              }
              reasoningContent := reasoningContent + reasoning;
              output := output + [Append(reasoning)];
            } else if content != "" {
              if |reasoningContent| > 0 && !isAnswering {
                output := output + [AnswerMarker];
                isAnswering := true;
              }
              fullResponse := fullResponse + content;
              output := output + [Append(content)];
            }
            assert State() == Apply(before, PayloadEvent(parsed));
          case Malformed =>
          case NoDelta =>
        }
      }
    }

    /** The `end` callback of src/apiService.ts: the promise resolves with
        the answer text and the reasoning text. */
    method OnEnd() returns (result: CompletionResult)
      ensures result.response == fullResponse && result.reasoningContent == reasoningContent
    {
      result := CompletionResult(fullResponse, reasoningContent);
    }

    /** The `error` callback: one more line on the channel; both buffers and
        the answering flag are left as they are. */
    method OnError(message: string)
      requires Valid()
      modifies this
      ensures Valid()
      ensures State() == old(State()).(output := old(output) + [AppendLine("\nError in stream: " + message)])
    {
      var line := AppendLine("\nError in stream: " + message);
      assert line.text[1] == 'E';
      CountAppend(output, [line], ThinkingMarker);
      CountAppend(output, [line], AnswerMarker);
      assert [line][1..] == [];
      output := output + [line];
    }
  }

  /** One more chunk of the stream is one more `data` callback. */
  lemma ProcessStreamStep(acc: Acc, chunks: seq<string>, i: nat, parse: string -> Payload)
    requires i < |chunks|
    ensures ProcessStream(acc, chunks[..i + 1], parse)
      == ProcessChunk(ProcessStream(acc, chunks[..i], parse), chunks[i], parse)
  {
    assert chunks[..i + 1][..i] == chunks[..i];
  }

  /** A response stream from its start: a fresh accumulator that has been
      fed each chunk in order through the `data` callback. */
  method Feed(roleName: string, chunks: seq<string>, parse: string -> Payload) returns (stream: StreamAccumulator)
    ensures fresh(stream) && stream.Valid()
    ensures stream.State() == ProcessStream(Initial(roleName), chunks, parse)
  {
    stream := new StreamAccumulator(roleName);
    var i := 0;
    while i < |chunks|
      invariant 0 <= i <= |chunks|
      invariant stream.Valid()
      invariant stream.State() == ProcessStream(Initial(roleName), chunks[..i], parse)
    {
      ProcessStreamStep(Initial(roleName), chunks, i, parse);
      stream.OnData(chunks[i], parse);
      i := i + 1;
    }
    assert chunks[..|chunks|] == chunks;
  }
}
