/**
 * The two prompts sent to the model: the system prompt that asks for the three
 * headed sections, and the user prompt that wraps the pasted code in a code fence
 * after an instruction chosen by the action mode.
 *
 * Both builders pass their f-string through `textwrap.dedent`; the functions here
 * give the f-string's value, with its four-space source indentation, before that call.
 */
module Prompts {
  import opened Text
  import opened ResponseParser

  /** The default `language` argument of both builders. */
  const DefaultLanguage := "RPGLE / AS400"

  /** The line after each heading of the system prompt, saying what the section holds. */
  function SectionGuide(k: SectionKey, language: string): string {
    match k
    case ExecutiveSummary => "3-5 sentence plain-English explanation for non-technical stakeholders."
    case TechnicalDocs => "Include: files/tables used, key variables (name, type, purpose), step-by-step logic flow, I/O operations, edge cases."
    case PythonCode => "Modern Python 3.12+ equivalent with type hints, comments referencing original " + language + " code, error handling, and a main block."
  }

  /** The opening lines of the system prompt, up to the line announcing the headings. */
  function SystemIntro(language: string): string {
    "    You are LegacyLens AI, an expert in legacy mainframe code (RPGLE, COBOL, JCL, PL/I, Natural/ADABAS, CL).\n"
    + "    You are analyzing " + language + " code.\n"
    + "\n"
    + "    Return your response in exactly THREE sections with these markdown headings:\n"
  }

  /** A blank line, the heading of section `k` and the text under it. */
  function HeadingBlock(k: SectionKey, guide: string): string {
    "\n    " + HeadingText(k) + guide
  }

  /** The rest of the heading's line and the guide line under it. */
  function GuideLine(k: SectionKey, language: string): string {
    "\n    " + SectionGuide(k, language) + "\n"
  }

  /** The shape of the system prompt: the intro, the three heading blocks in the order
      the parser's patterns are listed, and the source's last template line. */
  function Layout(intro: string, g1: string, g2: string, g3: string): string {
    intro
    + HeadingBlock(ExecutiveSummary, g1)
    + HeadingBlock(TechnicalDocs, g2)
    + HeadingBlock(PythonCode, g3)
    + "    "
  }

  /** `build_system_prompt(language)`. */
  function SystemPrompt(language: string): string {
    Layout(SystemIntro(language), GuideLine(ExecutiveSummary, language),
      GuideLine(TechnicalDocs, language), GuideLine(PythonCode, language))
  }

  /** The three action modes the dictionary of instructions knows. */
  const FullMode := "full"
  const DocsOnlyMode := "docs_only"
  const PythonOnlyMode := "python_only"

  /** The `mode_instruction` dictionary of `build_user_prompt`. */
  const ModeInstructions: map<string, string> := map[
    FullMode := "Provide ALL THREE sections: Executive Summary, Technical Documentation, and Python Code.",
    DocsOnlyMode := "Provide ONLY the Executive Summary and Technical Documentation sections. Do NOT include Python Code.",
    PythonOnlyMode := "Provide ONLY the Python Code section. Do NOT include Executive Summary or Technical Documentation."]

  /** `mode_instruction.get(mode, mode_instruction["full"])`. */
  function ModeInstruction(mode: string): (r: string)
    ensures r in ModeInstructions.Values
  {
    if mode in ModeInstructions then ModeInstructions[mode] else ModeInstructions[FullMode]
  }

  /** A known mode gets its own instruction; any other mode falls back to the full analysis. */
  lemma ModeInstructionFallback(mode: string)
    ensures mode == FullMode || mode == DocsOnlyMode || mode == PythonOnlyMode ==> ModeInstruction(mode) == ModeInstructions[mode]
    ensures mode != FullMode && mode != DocsOnlyMode && mode != PythonOnlyMode ==> ModeInstruction(mode) == ModeInstructions[FullMode]
  {
  }

  /** The user prompt up to the opening fence: the request, the instruction, a blank line
      and the fence line's indentation. */
  function UserPromptRequest(language: string, mode: string): string {
    "    Analyze the following **" + language + "** code.\n"
    + "    " + ModeInstruction(mode) + "\n"
    + "\n"
    + "    "
  }

  /** The opening fence, its line break and the indentation of the code's first line. */
  const OpenFence := Fence + "\n    "
  /** The line break before the closing fence, its indentation and the fence. */
  const CloseFence := "\n    " + Fence

  /** The user prompt up to the point where the pasted code starts. */
  function UserPromptHead(language: string, mode: string): string {
    UserPromptRequest(language, mode) + OpenFence
  }

  /** What follows the pasted code: the closing fence and the source's last template line. */
  const UserPromptTail := CloseFence + "\n    "

  /** `build_user_prompt(legacy_code, language, mode)`. */
  function UserPrompt(legacyCode: string, language: string, mode: string): string {
    UserPromptHead(language, mode) + legacyCode + UserPromptTail
  }

  /** Where the pasted code starts in the user prompt; it does not depend on the code. */
  function CodeOffset(language: string, mode: string): nat {
    |UserPromptHead(language, mode)|
  }

  /** Slicing `(a + o) + c + (t + z)` back into its middle parts. */
  lemma MiddleParts(a: string, o: string, c: string, t: string, z: string)
    ensures var s, i := (a + o) + c + (t + z), |a| + |o|;
      && s[|a|..i] == o && s[i..i + |c|] == c && s[i + |c|..i + |c| + |t|] == t
  {
    var s, i := (a + o) + c + (t + z), |a| + |o|;
    assert forall k | 0 <= k < |o| :: s[|a| + k] == o[k];
    assert forall k | 0 <= k < |c| :: s[i + k] == c[k];
    assert forall k | 0 <= k < |t| :: s[i + |c| + k] == t[k];
  }

  /** The pasted code appears unchanged in the user prompt, right after the opening fence
      and its line break and right before the line break of the closing fence. */
  lemma CodeBetweenFences(legacyCode: string, language: string, mode: string)
    ensures var p, i := UserPrompt(legacyCode, language, mode), CodeOffset(language, mode);
      && 8 <= i && i + |legacyCode| + 8 <= |p|
      && p[i - 8..i] == OpenFence
      && p[i..i + |legacyCode|] == legacyCode
      && p[i + |legacyCode|..i + |legacyCode| + 8] == CloseFence
  {
    var request := UserPromptRequest(language, mode);
    assert UserPrompt(legacyCode, language, mode) == (request + OpenFence) + legacyCode + (CloseFence + "\n    ");
    assert CodeOffset(language, mode) == |request| + |OpenFence|;
    FencedParts(request, legacyCode);
  }

  /** The middle parts of any text shaped like a user prompt. */
  lemma FencedParts(request: string, code: string)
    ensures var s, i := (request + OpenFence) + code + (CloseFence + "\n    "), |request| + 8;
      && |OpenFence| == 8 && |CloseFence| == 8 && i + |code| + 8 <= |s|
      && s[i - 8..i] == OpenFence && s[i..i + |code|] == code && s[i + |code|..i + |code| + 8] == CloseFence
  {
    assert |OpenFence| == 8 && |CloseFence| == 8;
    MiddleParts(request, OpenFence, code, CloseFence, "\n    ");
  }

  /** The pasted code occurs in the user prompt at the offset where the head ends. */
  lemma CodeInPrompt(legacyCode: string, language: string, mode: string)
    ensures OccursAt(UserPrompt(legacyCode, language, mode), legacyCode, CodeOffset(language, mode))
  {
    var h := UserPromptHead(language, mode);
    assert (h + legacyCode + UserPromptTail)[|h|..|h| + |legacyCode|] == legacyCode;
  }

  /** Different code gives different user prompts. */
  lemma UserPromptInjective(c1: string, c2: string, language: string, mode: string)
    requires UserPrompt(c1, language, mode) == UserPrompt(c2, language, mode)
    ensures c1 == c2
  {
    var h := UserPromptHead(language, mode);
    assert |c1| == |c2|;
    assert c1 == UserPrompt(c1, language, mode)[|h|..|h| + |c1|];
    assert c2 == UserPrompt(c2, language, mode)[|h|..|h| + |c2|];
  }

  /** Regrouping `intro + b1 + b2 + b3 + tail` around the heading inside `b1`. */
  lemma AroundFirst(intro: string, lead: string, h: string, g: string, b2: string, b3: string, tail: string)
    ensures intro + (lead + h + g) + b2 + b3 + tail == (intro + lead) + h + (g + b2 + b3 + tail)
  {
  }

  /** Regrouping `intro + b1 + b2 + b3 + tail` around the heading inside `b2`. */
  lemma AroundSecond(intro: string, b1: string, lead: string, h: string, g: string, b3: string, tail: string)
    ensures intro + b1 + (lead + h + g) + b3 + tail == (intro + b1 + lead) + h + (g + b3 + tail)
  {
  }

  /** Regrouping `intro + b1 + b2 + b3 + tail` around the heading inside `b3`. */
  lemma AroundThird(intro: string, b1: string, b2: string, lead: string, h: string, g: string, tail: string)
    ensures intro + b1 + b2 + (lead + h + g) + tail == (intro + b1 + b2 + lead) + h + (g + tail)
  {
  }

  /** The executive-summary heading opens the first block. */
  lemma SummaryFound(intro: string, g1: string, g2: string, g3: string)
    ensures Search(Layout(intro, g1, g2, g3), ExecutiveSummary).Some?
  {
    var lead, k := "\n    ", ExecutiveSummary;
    var b2, b3 := HeadingBlock(TechnicalDocs, g2), HeadingBlock(PythonCode, g3);
    AroundFirst(intro, lead, HeadingText(k), g1, b2, b3, "    ");
    HeadingTextFound(intro + lead, k, g1 + b2 + b3 + "    ");
  }

  /** The technical-documentation heading opens the second block. */
  lemma DocsFound(intro: string, g1: string, g2: string, g3: string)
    ensures Search(Layout(intro, g1, g2, g3), TechnicalDocs).Some?
  {
    var lead, k := "\n    ", TechnicalDocs;
    var b1, b3 := HeadingBlock(ExecutiveSummary, g1), HeadingBlock(PythonCode, g3);
    AroundSecond(intro, b1, lead, HeadingText(k), g2, b3, "    ");
    HeadingTextFound(intro + b1 + lead, k, g2 + b3 + "    ");
  }

  /** The Python-code heading opens the third block. */
  lemma CodeFound(intro: string, g1: string, g2: string, g3: string)
    ensures Search(Layout(intro, g1, g2, g3), PythonCode).Some?
  {
    var lead, k := "\n    ", PythonCode;
    var b1, b2 := HeadingBlock(ExecutiveSummary, g1), HeadingBlock(TechnicalDocs, g2);
    AroundThird(intro, b1, b2, lead, HeadingText(k), g3, "    ");
    HeadingTextFound(intro + b1 + b2 + lead, k, g3 + "    ");
  }

  /** A reply that echoes the system prompt has every section found by the parser. */
  lemma SystemPromptNamesHeadings(language: string)
    ensures Search(SystemPrompt(language), ExecutiveSummary).Some?
    ensures Search(SystemPrompt(language), TechnicalDocs).Some?
    ensures Search(SystemPrompt(language), PythonCode).Some?
  {
    var intro := SystemIntro(language);
    var g1, g2, g3 := GuideLine(ExecutiveSummary, language), GuideLine(TechnicalDocs, language), GuideLine(PythonCode, language);
    SummaryFound(intro, g1, g2, g3);
    DocsFound(intro, g1, g2, g3);
    CodeFound(intro, g1, g2, g3);
  }
}
