/**
 * Input guards applied to the pasted legacy code before any model is called:
 * the rough token estimate, the hard size limit and the advisory size warning.
 */
module InputValidation {
  import opened Text

  /** Above this many characters the input is accepted with a warning. */
  const InputWarnChars: nat := 12000
  /** Above this many characters the input is rejected. */
  const InputMaxChars: nat := 40000

  /** About four characters per token, rounded down (`len(text) // 4`). */
  function EstimateTokens(text: string): (n: nat)
    ensures n * 4 <= |text| < n * 4 + 4
  {
    |text| / 4
  }

  /** Why an input was refused. The source renders these as user-facing messages; the
      model keeps the values the messages are built from. */
  datatype Refusal =
    | NoCode(language: string)
    | InputTooLarge(chars: nat, tokens: nat, maxChars: nat, maxTokens: nat)

  /** `(True, None)` is `Accepted`; `(False, message)` is `Rejected(why)`. */
  datatype Verdict = Accepted | Rejected(why: Refusal)

  /** `validate_input`: empty or whitespace-only code is refused first, then code longer
      than the maximum; everything else is accepted. */
  function ValidateInput(code: string, language: string): (v: Verdict)
    ensures v.Accepted? <==> !AllSpace(code) && |code| <= InputMaxChars
    ensures v == Rejected(NoCode(language)) <==> AllSpace(code)
    ensures v.Rejected? && v.why.InputTooLarge? ==>
      v.why == InputTooLarge(|code|, EstimateTokens(code), InputMaxChars, InputMaxChars / 4)
  {
    if code == [] || Strip(code) == [] then
      StripFacts(code);
      Rejected(NoCode(language))
    else
      StripFacts(code);
      var charCount := |code|;
      if charCount > InputMaxChars then
        var estTokens := EstimateTokens(code);
        Rejected(InputTooLarge(charCount, estTokens, InputMaxChars, InputMaxChars / 4))
      else
        Accepted
  }

  /** The advisory test of `check_input_warnings`. */
  predicate InputWarning(code: string) {
    |code| > InputWarnChars
  }

  /** Exactly 40000 characters of real code pass; one more is refused as too large. */
  lemma SizeBoundary(code: string, language: string)
    requires !AllSpace(code)
    ensures |code| == InputMaxChars ==> ValidateInput(code, language) == Accepted
    ensures |code| == InputMaxChars + 1 ==>
      ValidateInput(code, language) == Rejected(InputTooLarge(40001, 10000, 40000, 10000))
  {
  }

  /** Accepted code is estimated at no more than 10000 tokens. */
  lemma AcceptedTokenBound(code: string, language: string)
    requires ValidateInput(code, language) == Accepted
    ensures EstimateTokens(code) <= InputMaxChars / 4
  {
  }

  /** The warning is advisory: every input it fires on that is not refused for being too
      large was accepted, and every input refused for its size would also have warned. */
  lemma WarningBetweenLimits(code: string, language: string)
    requires !AllSpace(code)
    ensures InputWarning(code) && |code| <= InputMaxChars ==> ValidateInput(code, language) == Accepted
    ensures ValidateInput(code, language).Rejected? ==> InputWarning(code)
  {
  }
}
