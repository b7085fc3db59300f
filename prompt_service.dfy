/**
 * src/promptService.ts: the system prompt sent with a request. The prompt is
 * the role's own prompt followed by a fixed sequence of clauses, some of them
 * conditional; it is modelled as the list of clauses it is made of and the
 * text that list renders to.
 */
module PromptService {
  import opened Types
  import opened JsText

  const ConcisenessText := " Keep your response concise, and adjust your response length to be proportional to the user's input length"
  const LanguageText := " Use the same language as the user's input text and use plain text without emoji or other marks."
  const DiaryText := " Consider the user's input as their diary entry or personal reflection, and tailor your response accordingly."
  const ConversationalText := " Please respond in a conversational, person-speaking style."

  /** One `+=` of `buildSystemPrompt`. */
  datatype Clause =
    | RolePrompt(text: string)
    | Concise
    | LengthHint(inputLength: real)
    | SameLanguage
    | DiaryFraming
    | Conversational
    | Extra(instructions: seq<string>)

  /** The position a clause kind takes in every prompt. */
  function Rank(c: Clause): nat
  {
    match c
    case RolePrompt(_) => 0
    case Concise => 1
    case LengthHint(_) => 2
    case SameLanguage => 3
    case DiaryFraming => 4
    case Conversational => 5
    case Extra(_) => 6
  }

  /** `calculateRecommendedLength`, over exact numbers: whatever the input, the
      recommendation is at least 50 characters and at most 1000. */
  function RecommendedLength(inputLength: real): (r: real)
    ensures 50.0 <= r <= 1000.0
  {
    if inputLength < 50.0 then
      (if 50.0 < inputLength * 2.0 then inputLength * 2.0 else 50.0)
    else if inputLength < 200.0 then inputLength * 1.5
    else if inputLength < 500.0 then inputLength
    else if 1000.0 < inputLength * 0.8 then 1000.0 else inputLength * 0.8
  }

  /** The clauses `buildSystemPrompt` appends, in order. The role's prompt and
      the conciseness clause open every prompt; the length hint is there
      exactly when the length is positive; the language and diary clauses are
      always there; the conversational clause exactly when it is asked for;
      the extra instructions exactly when there are some. */
  function Clauses(
    role: Role,
    conversationalStyle: bool,
    inputTextLength: real,
    additionalInstructions: seq<string>): (cs: seq<Clause>)
    ensures |cs| >= 4 && cs[0] == RolePrompt(role.prompt) && cs[1] == Concise
    ensures SameLanguage in cs && DiaryFraming in cs
    ensures LengthHint(inputTextLength) in cs <==> inputTextLength > 0.0
    ensures forall c :: c in cs && c.LengthHint? ==> c == LengthHint(inputTextLength)
    ensures Conversational in cs <==> conversationalStyle
    ensures Extra(additionalInstructions) in cs <==> |additionalInstructions| > 0
    ensures forall c :: c in cs && c.Extra? ==> c == Extra(additionalInstructions)
  {
    [RolePrompt(role.prompt), Concise]
    + (if inputTextLength > 0.0 then [LengthHint(inputTextLength)] else [])
    + [SameLanguage, DiaryFraming]
    + (if conversationalStyle then [Conversational] else [])
    + (if |additionalInstructions| > 0 then [Extra(additionalInstructions)] else [])
  }

  /** Clauses listed in strictly increasing rank: the fixed order, each kind at most once. */
  ghost predicate InRankOrder(cs: seq<Clause>)
  {
    forall i, j :: 0 <= i < j < |cs| ==> Rank(cs[i]) < Rank(cs[j])
  }

  lemma InRankOrderConcat(xs: seq<Clause>, ys: seq<Clause>)
    requires InRankOrder(xs) && InRankOrder(ys)
    requires forall x, y :: x in xs && y in ys ==> Rank(x) < Rank(y)
    ensures InRankOrder(xs + ys)
  {
    var cs := xs + ys;
    forall i, j | 0 <= i < j < |cs| ensures Rank(cs[i]) < Rank(cs[j]) {
      if j < |xs| {
        assert cs[i] == xs[i] && cs[j] == xs[j];
      } else if i >= |xs| {
        assert cs[i] == ys[i - |xs|] && cs[j] == ys[j - |xs|];
      } else {
        assert cs[i] == xs[i] && cs[j] == ys[j - |xs|];
        assert xs[i] in xs && ys[j - |xs|] in ys;
      }
    }
  }

  /** Every prompt lists its clauses in the same fixed order, each kind at most once. */
  lemma ClauseOrder(
    role: Role,
    conversationalStyle: bool,
    inputTextLength: real,
    additionalInstructions: seq<string>)
    ensures InRankOrder(Clauses(role, conversationalStyle, inputTextLength, additionalInstructions))
  {
    var a: seq<Clause> := [RolePrompt(role.prompt), Concise];
    var b: seq<Clause> := if inputTextLength > 0.0 then [LengthHint(inputTextLength)] else [];
    var c: seq<Clause> := [SameLanguage, DiaryFraming];
    var d: seq<Clause> := if conversationalStyle then [Conversational] else [];
    var e: seq<Clause> := if |additionalInstructions| > 0 then [Extra(additionalInstructions)] else [];
    assert InRankOrder(a) && InRankOrder(c);
    assert forall x :: x in a ==> Rank(x) <= 1;
    assert forall x :: x in b ==> Rank(x) == 2;
    assert forall x :: x in c ==> 3 <= Rank(x) <= 4;
    assert forall x :: x in d ==> Rank(x) == 5;
    assert forall x :: x in e ==> Rank(x) == 6;
    InRankOrderConcat(a, b);
    assert forall x :: x in a + b ==> Rank(x) <= 2;
    InRankOrderConcat(a + b, c);
    assert forall x :: x in a + b + c ==> Rank(x) <= 4;
    InRankOrderConcat(a + b + c, d);
    assert forall x :: x in a + b + c + d ==> Rank(x) <= 5;
    InRankOrderConcat(a + b + c + d, e);
  }

  /** The clause that states the input length and the recommendation;
      `numText` is JavaScript's number-to-string conversion. */
  function LengthText(inputLength: real, numText: real -> string): string
  {
    " The user's input is " + numText(inputLength)
    + " characters long. Please provide a response of approximately "
    + numText(RecommendedLength(inputLength)) + " characters."
  }

  /** The text one clause appends. */
  function ClauseText(c: Clause, numText: real -> string): string
  {
    match c
    case RolePrompt(text) => text
    case Concise => ConcisenessText
    case LengthHint(n) => LengthText(n, numText)
    case SameLanguage => LanguageText
    case DiaryFraming => DiaryText
    case Conversational => ConversationalText
    case Extra(items) => " " + Join(items, " ")
  }

  /** `ClauseText` under one number formatting. */
  function TextOf(numText: real -> string): Clause -> string
  {
    c => ClauseText(c, numText)
  }

  /** The text a list of clauses appends, in order, given the text of each clause. */
  function Render(cs: seq<Clause>, text: Clause -> string): string
  {
    if |cs| == 0 then "" else text(cs[0]) + Render(cs[1..], text)
  }

  /** Rendering distributes over concatenation of clause lists. */
  lemma {:induction false} RenderAppend(xs: seq<Clause>, ys: seq<Clause>, text: Clause -> string)
    ensures Render(xs + ys, text) == Render(xs, text) + Render(ys, text)
  {
    if |xs| > 0 {
      assert (xs + ys)[0] == xs[0];
      assert (xs + ys)[1..] == xs[1..] + ys;
      RenderAppend(xs[1..], ys, text);
      var t := text(xs[0]);
      assert Render(xs + ys, text) == t + (Render(xs[1..], text) + Render(ys, text));
      assert t + (Render(xs[1..], text) + Render(ys, text))
          == (t + Render(xs[1..], text)) + Render(ys, text);
    } else {
      assert xs + ys == ys;
    }
  }

  lemma RenderSingle(c: Clause, text: Clause -> string)
    ensures Render([c], text) == text(c)
  {
    assert [c][1..] == [];
  }

  /** `buildSystemPrompt`: the text of its clauses. */
  function BuildSystemPrompt(
    role: Role,
    conversationalStyle: bool,
    inputTextLength: real,
    additionalInstructions: seq<string>,
    numText: real -> string): string
  {
    Render(Clauses(role, conversationalStyle, inputTextLength, additionalInstructions), TextOf(numText))
  }

  /** The prompt begins with the role's prompt immediately followed by the
      conciseness clause. */
  lemma PromptStartsWithRole(
    role: Role,
    conversationalStyle: bool,
    inputTextLength: real,
    additionalInstructions: seq<string>,
    numText: real -> string)
    ensures StartsWith(BuildSystemPrompt(role, conversationalStyle, inputTextLength, additionalInstructions, numText),
                       role.prompt + ConcisenessText)
  {
    var cs := Clauses(role, conversationalStyle, inputTextLength, additionalInstructions);
    assert cs == [cs[0], cs[1]] + cs[2..];
    var text := TextOf(numText);
    RenderAppend([cs[0], cs[1]], cs[2..], text);
    assert [cs[0], cs[1]][1..] == [cs[1]];
    RenderSingle(cs[1], text);
    assert Render([cs[0], cs[1]], text) == role.prompt + ConcisenessText;
    ConcatEnds(role.prompt + ConcisenessText, Render(cs[2..], text));
  }

  lemma RenderThree(a: Clause, b: Clause, c: Clause, text: Clause -> string)
    ensures Render([a, b, c], text) == text(a) + text(b) + text(c)
  {
    assert [a, b, c][1..] == [b, c] && [b, c][1..] == [c];
    RenderSingle(c, text);
  }

  /** A positive input length puts its clause, stating the length and the
      recommendation, right after the conciseness clause. */
  lemma PromptLengthClause(
    role: Role,
    conversationalStyle: bool,
    inputTextLength: real,
    additionalInstructions: seq<string>,
    numText: real -> string)
    requires inputTextLength > 0.0
    ensures StartsWith(BuildSystemPrompt(role, conversationalStyle, inputTextLength, additionalInstructions, numText),
                       role.prompt + ConcisenessText + LengthText(inputTextLength, numText))
  {
    var cs := Clauses(role, conversationalStyle, inputTextLength, additionalInstructions);
    var head := [cs[0], cs[1], cs[2]];
    assert cs[2] == LengthHint(inputTextLength);
    assert cs == head + cs[3..];
    var text := TextOf(numText);
    RenderAppend(head, cs[3..], text);
    RenderThree(cs[0], cs[1], cs[2], text);
    ConcatEnds(Render(head, text), Render(cs[3..], text));
  }

  /** With its default arguments (not conversational, no length, no extra
      instructions) the prompt is exactly the role's prompt followed by the
      conciseness, language and diary clauses. */
  lemma DefaultPrompt(role: Role, numText: real -> string)
    ensures BuildSystemPrompt(role, false, 0.0, [], numText)
      == role.prompt + (ConcisenessText + (LanguageText + DiaryText))
  {
    var cs := Clauses(role, false, 0.0, []);
    var text := TextOf(numText);
    assert cs == [RolePrompt(role.prompt), Concise, SameLanguage, DiaryFraming];
    assert cs[1..] == [Concise, SameLanguage, DiaryFraming];
    assert cs[1..][1..] == [SameLanguage, DiaryFraming];
    assert cs[1..][1..][1..] == [DiaryFraming];
    RenderSingle(DiaryFraming, text);
    assert Render(cs[1..][1..], text) == LanguageText + DiaryText;
    assert Render(cs[1..], text) == ConcisenessText + (LanguageText + DiaryText);
  }

  /** The extra instructions, when there are some, end the prompt as one
      space followed by the instructions joined by single spaces. */
  lemma PromptEndsWithExtra(
    role: Role,
    conversationalStyle: bool,
    inputTextLength: real,
    additionalInstructions: seq<string>,
    numText: real -> string)
    requires |additionalInstructions| > 0
    ensures EndsWith(BuildSystemPrompt(role, conversationalStyle, inputTextLength, additionalInstructions, numText),
                     " " + Join(additionalInstructions, " "))
  {
    var cs := Clauses(role, conversationalStyle, inputTextLength, additionalInstructions);
    var n := |cs| - 1;
    assert cs[n] == Extra(additionalInstructions);
    assert cs == cs[..n] + [cs[n]];
    var text := TextOf(numText);
    RenderAppend(cs[..n], [cs[n]], text);
    RenderSingle(cs[n], text);
    ConcatEnds(Render(cs[..n], text), " " + Join(additionalInstructions, " "));
  }

  /** The number formatting only matters when a length clause is written. */
  lemma NumberTextUnusedWithoutLength(
    role: Role, style: bool, n: real, extra: seq<string>, f: real -> string, g: real -> string)
    requires n <= 0.0
    ensures BuildSystemPrompt(role, style, n, extra, f) == BuildSystemPrompt(role, style, n, extra, g)
  {
    var cs := Clauses(role, style, n, extra);
    forall c | c in cs ensures TextOf(f)(c) == TextOf(g)(c) {
      assert !c.LengthHint?;
    }
    RenderAgrees(cs, TextOf(f), TextOf(g));
  }

  /** Two clause-text functions that agree on a list render it alike. */
  lemma {:induction false} RenderAgrees(cs: seq<Clause>, t1: Clause -> string, t2: Clause -> string)
    requires forall c :: c in cs ==> t1(c) == t2(c)
    ensures Render(cs, t1) == Render(cs, t2)
  {
    if |cs| > 0 {
      assert cs[0] in cs;
      assert forall c :: c in cs[1..] ==> c in cs;
      RenderAgrees(cs[1..], t1, t2);
    }
  }

  /** The recommendation is not monotone in the input length: it drops at
      each tier boundary. */
  lemma RecommendedLengthNotMonotone()
    ensures RecommendedLength(49.0) == 98.0 && RecommendedLength(50.0) == 75.0
    ensures RecommendedLength(199.0) == 298.5 && RecommendedLength(200.0) == 200.0
    ensures RecommendedLength(499.0) == 499.0 && RecommendedLength(500.0) == 400.0
  {
  }
}
