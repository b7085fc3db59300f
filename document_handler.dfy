/**
 * src/documentHandler.ts: extracting the paragraph the user has just
 * finished, and the block of text an answer is inserted as.
 */
module DocumentHandler {
  import opened Types
  import opened JsText

  /** The characters the first loop of `extractLastParagraph` skips at the
      end of the text. This is a strict subset of what `trim` removes. */
  predicate IsSeparator(c: char)
  {
    c == ' ' || c == '\n' || c == '\r' || c == '\t'
  }

  lemma SeparatorIsWhitespace(c: char)
    requires IsSeparator(c)
    ensures IsWhitespace(c)
  {
  }

  /** The index of the last character of `text` that is not a separator, or
      -1 when there is none. */
  function LastContentIndex(text: string): (e: int)
    ensures -1 <= e < |text|
  {
    if |text| == 0 then -1
    else if !IsSeparator(text[|text| - 1]) then |text| - 1
    else LastContentIndex(text[..|text| - 1])
  }

  /** Only separators follow the last content index, and it is not one. */
  lemma {:induction false} LastContentIndexSpec(text: string)
    ensures var e := LastContentIndex(text);
      && (forall k :: e < k < |text| ==> IsSeparator(text[k]))
      && (0 <= e ==> !IsSeparator(text[e]))
  {
    if |text| > 0 && IsSeparator(text[|text| - 1]) {
      var prefix := text[..|text| - 1];
      LastContentIndexSpec(prefix);
      assert forall k :: 0 <= k < |prefix| ==> prefix[k] == text[k];
    }
  }

  /** Where the paragraph ending at `e` starts: one past the last newline at
      a position from 1 to `e`, or 0 when there is none. Position 0 is never
      looked at. */
  function ParagraphStart(text: string, e: nat): (s: nat)
    requires e < |text|
    ensures s <= e + 1
  {
    if e == 0 then 0
    else if text[e] == '\n' then e + 1
    else ParagraphStart(text, e - 1)
  }

  /** The paragraph start follows a newline at a position of at least 1, and
      no position from 1 up to the end between it and `e` holds a newline. */
  lemma {:induction false} ParagraphStartSpec(text: string, e: nat)
    requires e < |text|
    ensures var s := ParagraphStart(text, e);
      && (0 < s ==> 1 <= s - 1 && text[s - 1] == '\n')
      && (forall k :: s <= k <= e && 0 < k ==> text[k] != '\n')
  {
    if e > 0 && text[e] != '\n' {
      ParagraphStartSpec(text, e - 1);
    }
  }

  /** What `extractLastParagraph` returns: "" when the text is only
      separators, otherwise the trimmed text from the paragraph start up to
      the last non-separator. */
  function LastParagraph(text: string): string
  {
    var e := LastContentIndex(text);
    if e < 0 then "" else Trim(text[ParagraphStart(text, e)..e + 1])
  }

  /** `extractLastParagraph`, with its two index loops. */
  method ExtractLastParagraph(text: string) returns (paragraph: string)
    ensures paragraph == LastParagraph(text)
  {
    var endIdx := |text| - 1;
    while endIdx >= 0 && IsSeparator(text[endIdx])
      invariant -1 <= endIdx < |text|
      invariant forall k :: endIdx < k < |text| ==> IsSeparator(text[k])
    {
      endIdx := endIdx - 1;
    }
    LastContentUnique(text, endIdx);
    if endIdx < 0 {
      return "";
    }
    ghost var start := ParagraphStart(text, endIdx);
    var startIdx := endIdx;
    while startIdx > 0
      invariant 0 <= startIdx <= endIdx
      invariant ParagraphStart(text, startIdx) == start
    {
      if text[startIdx] == '\n' {
        startIdx := startIdx + 1;
        break;
      }
      startIdx := startIdx - 1;
    }
    assert startIdx == start;
    paragraph := Trim(text[startIdx..endIdx + 1]);
    ParagraphAt(text, endIdx, startIdx);
  }

  lemma ParagraphAt(text: string, e: nat, s: nat)
    requires e < |text| && e == LastContentIndex(text) && s == ParagraphStart(text, e)
    ensures LastParagraph(text) == Trim(text[s..e + 1])
  {
  }

  /** The last non-separator index is the only index with its two properties. */
  lemma LastContentUnique(text: string, e: int)
    requires -1 <= e < |text|
    requires forall k :: e < k < |text| ==> IsSeparator(text[k])
    requires 0 <= e ==> !IsSeparator(text[e])
    ensures e == LastContentIndex(text)
  {
    LastContentIndexSpec(text);
  }

  /** Text made only of separators (the empty text included) gives "". */
  lemma SeparatorsOnly(text: string)
    requires forall k :: 0 <= k < |text| ==> IsSeparator(text[k])
    ensures LastParagraph(text) == ""
  {
    LastContentUnique(text, -1);
  }

  /** The result is one line: every newline of the slice is at its first
      position, and `trim` removes it there. */
  lemma ParagraphIsOneLine(text: string)
    ensures '\n' !in LastParagraph(text)
  {
    var e := LastContentIndex(text);
    if e >= 0 {
      ParagraphAt(text, e, ParagraphStart(text, e));
      NoNewlineInParagraph(text, e);
    }
  }

  /** Past its first position, the slice from the paragraph start to `e`
      holds no newline, so its trimmed form holds none at all. */
  lemma NoNewlineInParagraph(text: string, e: nat)
    requires e < |text|
    ensures '\n' !in Trim(text[ParagraphStart(text, e)..e + 1])
  {
    var s := ParagraphStart(text, e);
    var t := text[s..e + 1];
    ParagraphStartSpec(text, e);
    forall k | 1 <= k < |t|
      ensures t[k] != '\n'
    {
      assert t[k] == text[s + k];
    }
    TrimDropsLeading(t, '\n');
  }

  /** The result neither starts nor ends with whitespace. */
  lemma ParagraphIsTrimmed(text: string)
    ensures Trim(LastParagraph(text)) == LastParagraph(text)
  {
    var e := LastContentIndex(text);
    if e >= 0 {
      ParagraphAt(text, e, ParagraphStart(text, e));
      TrimIdempotent(text[ParagraphStart(text, e)..e + 1]);
    }
  }

  /** A single trimmed line is its own last paragraph. */
  lemma LineIsOwnParagraph(p: string)
    requires '\n' !in p && Trim(p) == p
    ensures LastParagraph(p) == p
  {
    if p != "" {
      TrimShape(p);
      var last := |p| - 1;
      assert !IsWhitespace(p[last]);
      LastContentUnique(p, last);
      ParagraphStartSpec(p, last);
      assert ParagraphStart(p, last) == 0;
      assert p[0..last + 1] == p;
    }
  }

  /** Extracting the last paragraph of a last paragraph changes nothing. */
  lemma ExtractIdempotent(text: string)
    ensures LastParagraph(LastParagraph(text)) == LastParagraph(text)
  {
    ParagraphIsOneLine(text);
    ParagraphIsTrimmed(text);
    LineIsOwnParagraph(LastParagraph(text));
  }

  /** The result can be empty although the text is not blank: the first loop
      stops at a no-break space, which `trim` then removes. */
  lemma NoBreakSpaceParagraph()
    ensures Trim("a\n\U{00A0}") != ""
    ensures LastParagraph("a\n\U{00A0}") == ""
  {
    var text := "a\n\U{00A0}";
    assert !IsWhitespace(text[0]);
    TrimShape(text);
    assert LastContentIndex(text) == 2;
    assert ParagraphStart(text, 2) == 2;
    assert text[2..3] == "\U{00A0}";
    TrimShape("\U{00A0}");
  }

  // ---------------------------------------------------------------------
  // The inserted block
  // ---------------------------------------------------------------------

  /** `"=".repeat(50)`. */
  function Delimiter(): (d: string)
    ensures |d| == 50 && forall k :: 0 <= k < 50 ==> d[k] == '='
  {
    Repeat('=', 50)
  }

  function Opening(): string
  {
    "\n\n" + Delimiter() + "\n"
  }

  function Closing(): string
  {
    "\n" + Delimiter() + "\n\n"
  }

  /** The attribution line, present only for a truthy role name. */
  function Attribution(roleName: Option<string>): (a: string)
    ensures a == "" <==> IsFalsyText(roleName)
  {
    if IsFalsyText(roleName) then "" else "Response from " + roleName.value + ":\n\n"
  }

  /** The text `insertResponse` inserts at the end of the document. */
  function FormattedResponse(response: string, roleName: Option<string>): string
  {
    Opening() + Attribution(roleName) + response + Closing()
  }

  /** The response a formatted block carries, for a known role name. */
  function UnformattedResponse(block: string, roleName: Option<string>): string
    requires |Opening() + Attribution(roleName)| + |Closing()| <= |block|
  {
    block[|Opening() + Attribution(roleName)|..|block| - |Closing()|]
  }

  /** The block opens with a blank line and the delimiter, then the
      attribution, and closes with the delimiter and a blank line; the
      response is recovered from it intact. */
  lemma FormattedRoundTrip(response: string, roleName: Option<string>)
    ensures var block := FormattedResponse(response, roleName);
      && StartsWith(block, Opening() + Attribution(roleName))
      && EndsWith(block, Closing())
      && |block| == |response| + |Attribution(roleName)| + 106
      && UnformattedResponse(block, roleName) == response
  {
    var head := Opening() + Attribution(roleName);
    var block := FormattedResponse(response, roleName);
    assert block == head + (response + Closing());
    ConcatEnds(head, response + Closing());
    ConcatEnds(head + response, Closing());
    assert block[|head|..|block| - |Closing()|] == (response + Closing())[..|response|];
  }
}
