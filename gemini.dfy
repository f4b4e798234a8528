/**
 * `call_gemini_api`: up to three calls of the Gemini SDK, with the exception raised
 * by each failed call sorted by the words in its lower-cased message. Rate limits and
 * timeouts are retried after a pause; every other failure ends the call at once.
 *
 * The SDK is a parameter: `generate(attempt)` is what `model.generate_content` gives on
 * that attempt, a reply text or a raised exception's message. The pauses of
 * `time.sleep` are returned as a list of seconds instead of being slept.
 */
module Gemini {
  import opened Outcomes
  import opened Text

  /** `MAX_RETRIES`: retries after the first attempt. */
  const MaxRetries: nat := 2
  /** `RETRY_DELAY_SECS`: the rate-limit pause grows by this much per attempt. */
  const RetryDelaySecs: nat := 5
  /** The fixed pause before retrying a timeout. */
  const TimeoutDelaySecs: nat := 2

  /** The message of the error raised inside the `try` block for an empty response,
      in short pieces that each start with a space after the first. */
  const EmptyResponseMessage := "\U{1F6AB} **Empty" + " response.**" + " The model" + " returned no"
    + " output." + " This may" + " happen if the" + " input code was" + " flagged by"
    + " safety" + " filters." + " Try removing" + " any sensitive" + " data from the"
    + " code."

  /** The same message lower-cased, piece by piece. */
  const EmptyResponseLowered := "\U{1F6AB} **empty" + " response.**" + " the model" + " returned no"
    + " output." + " this may" + " happen if the" + " input code was" + " flagged by"
    + " safety" + " filters." + " try removing" + " any sensitive" + " data from the"
    + " code."

  /** The words each branch of the `except` block looks for, in the order of the branches. */
  const AuthWords := ["api key", "invalid", "authenticate"]
  const RateWords := ["quota", "rate", "429", "resource"]
  const TimeoutWords := ["timeout", "deadline"]
  const SafetyWords := ["safety", "blocked", "harm"]

  /** `any(w in text for w in words)`. */
  predicate MentionsAny(text: string, words: seq<string>) {
    words != [] && (Contains(text, words[0]) || MentionsAny(text, words[1..]))
  }

  /** The branch of the `except` block an error message lands in. */
  datatype Category = AuthFailure | RateLimited | TimedOut | Blocked | Unrecognised

  /** The branches of the `except` block in order, each with the words it tests for. */
  const Branches: seq<(seq<string>, Category)> :=
    [(AuthWords, AuthFailure), (RateWords, RateLimited), (TimeoutWords, TimedOut), (SafetyWords, Blocked)]

  /** The first of `branches` whose words `e` mentions. */
  function FirstBranch(e: string, branches: seq<(seq<string>, Category)>): Category {
    if branches == [] then Unrecognised
    else if MentionsAny(e, branches[0].0) then branches[0].1
    else FirstBranch(e, branches[1..])
  }

  /** The chain of `if "..." in error_msg` tests, first match wins. */
  function Categorize(e: string): Category {
    FirstBranch(e, Branches)
  }

  /** The `RuntimeError`s `call_gemini_api` raises, by the message they carry. */
  datatype GeminiError =
    | SdkMissing                          // the package is not installed
    | InvalidApiKey                       // "Invalid API Key."
    | RateLimitReached                    // "Rate limit reached after retries."
    | RequestTimedOut                     // "Request timed out after retries."
    | ContentBlocked                      // "Content blocked by safety filters."
    | ApiError(detail: string)            // "Gemini API Error: {e}"
    | RetriesExhausted(last: Option<string>)  // "Failed after {MAX_RETRIES} retries: {last_error}"

  /** What the loop does after one attempt. */
  datatype Step = Return(text: string) | Raise(error: GeminiError) | Retry(wait: nat)

  /** `str(e)` of the exception caught for this outcome: the SDK's own, or the one raised
      for an empty response. */
  function CaughtMessage(o: Outcome): string {
    if o.Raised? then o.message else EmptyResponseMessage
  }

  /** `error_msg = str(e).lower()`. */
  function ErrorText(o: Outcome): string {
    if o.Raised? then Lower(o.message) else EmptyResponseLowered
  }

  /** What the loop needs of the step taken after an attempt: a non-empty reply is returned
      as it is, only the first `MaxRetries` attempts are retried, each pause is a rate-limit
      or a timeout pause, and only the `except` block's own errors are raised. */
  predicate StepFits(o: Outcome, attempt: nat, s: Step) {
    && (s.Return? <==> o.Reply? && o.text != "")
    && (s.Return? ==> s.text == o.text)
    && (s.Retry? ==> attempt <= MaxRetries && (s.wait == RetryDelaySecs * attempt || s.wait == TimeoutDelaySecs))
    && (s.Raise? ==> !s.error.RetriesExhausted? && !s.error.SdkMissing?)
  }

  /** A way of deciding every attempt's step that fits. */
  ghost predicate Policy(decide: (Outcome, nat) -> Step) {
    forall o, attempt :: StepFits(o, attempt, decide(o, attempt))
  }

  /** One pass through the body of the retry loop. */
  function Decide(o: Outcome, attempt: nat): (s: Step)
    ensures s.Return? <==> o.Reply? && o.text != ""
    ensures s.Return? ==> s.text == o.text
    ensures s.Retry? ==> attempt <= MaxRetries
    ensures s.Retry? ==> s.wait == RetryDelaySecs * attempt || s.wait == TimeoutDelaySecs
    ensures s.Raise? ==> !s.error.RetriesExhausted? && !s.error.SdkMissing?
  {
    if o.Reply? && o.text != "" then Return(o.text)
    else
      var msg := CaughtMessage(o);
      match Categorize(ErrorText(o))
      case AuthFailure => Raise(InvalidApiKey)
      case RateLimited => if attempt <= MaxRetries then Retry(RetryDelaySecs * attempt) else Raise(RateLimitReached)
      case TimedOut => if attempt <= MaxRetries then Retry(TimeoutDelaySecs) else Raise(RequestTimedOut)
      case Blocked => Raise(ContentBlocked)
      case Unrecognised => Raise(ApiError(msg))
  }

  /** The body of the loop fits. */
  lemma DecideFits()
    ensures Policy(Decide)
  {
    forall o, attempt ensures StepFits(o, attempt, Decide(o, attempt)) {
    }
  }

  /** The branches in their order: a message lands in a branch exactly when it names one of
      that branch's words and none of an earlier branch's; a message naming no word of any
      branch is unrecognised. */
  lemma CategorizeBranches(e: string)
    ensures var auth, rate, timeout, safety :=
      MentionsAny(e, AuthWords), MentionsAny(e, RateWords), MentionsAny(e, TimeoutWords), MentionsAny(e, SafetyWords);
      && (Categorize(e) == AuthFailure <==> auth)
      && (Categorize(e) == RateLimited <==> !auth && rate)
      && (Categorize(e) == TimedOut <==> !auth && !rate && timeout)
      && (Categorize(e) == Blocked <==> !auth && !rate && !timeout && safety)
      && (Categorize(e) == Unrecognised <==> !auth && !rate && !timeout && !safety)
  {
    var rest1 := Branches[1..];
    var rest2 := rest1[1..];
    var rest3 := rest2[1..];
    assert Branches[0] == (AuthWords, AuthFailure);
    assert rest1[0] == (RateWords, RateLimited);
    assert rest2[0] == (TimeoutWords, TimedOut);
    assert rest3[0] == (SafetyWords, Blocked) && rest3[1..] == [];
    assert FirstBranch(e, rest3) == if MentionsAny(e, SafetyWords) then Blocked else Unrecognised;
    assert FirstBranch(e, rest2) == if MentionsAny(e, TimeoutWords) then TimedOut else FirstBranch(e, rest3);
    assert FirstBranch(e, rest1) == if MentionsAny(e, RateWords) then RateLimited else FirstBranch(e, rest2);
    assert Categorize(e) == if MentionsAny(e, AuthWords) then AuthFailure else FirstBranch(e, rest1);
  }

  /** The error a failed attempt raises, by its branch: an authentication failure, blocked
      content and an unrecognised message end the call on any attempt, the last with the
      caught message in its original case; a rate limit or a timeout ends it only once the
      retries are used up. */
  lemma DecideRaises(o: Outcome, attempt: nat)
    requires !(o.Reply? && o.text != "")
    ensures var c := Categorize(ErrorText(o));
      && (c == AuthFailure ==> Decide(o, attempt) == Raise(InvalidApiKey))
      && (c == Blocked ==> Decide(o, attempt) == Raise(ContentBlocked))
      && (c == Unrecognised ==> Decide(o, attempt) == Raise(ApiError(CaughtMessage(o))))
      && (c == RateLimited && attempt > MaxRetries ==> Decide(o, attempt) == Raise(RateLimitReached))
      && (c == TimedOut && attempt > MaxRetries ==> Decide(o, attempt) == Raise(RequestTimedOut))
    ensures o.Raised? && Categorize(ErrorText(o)) == Unrecognised ==> Decide(o, attempt) == Raise(ApiError(o.message))
  {
  }

  /** The result of a call, every pause slept before it, and how many SDK calls it made. */
  datatype Run = Run(result: Result<string, GeminiError>, waits: seq<nat>, calls: nat)

  /** A run that first paused for `waits` and made `calls` calls, then went on as `r`. */
  function After(waits: seq<nat>, calls: nat, r: Run): Run {
    Run(r.result, waits + r.waits, calls + r.calls)
  }

  /** The loop from `attempt` on, each attempt's step chosen by `decide`, with `lastError`
      the message of the last caught error; past the last attempt it is the final `raise`
      after the loop. */
  function RunFrom(decide: (Outcome, nat) -> Step, generate: nat -> Outcome, attempt: nat, lastError: Option<string>): Run
    requires 1 <= attempt
    decreases MaxRetries + 2 - attempt
  {
    if attempt > MaxRetries + 1 then Run(Failure(RetriesExhausted(lastError)), [], 0)
    else
      var o := generate(attempt);
      match decide(o, attempt)
      case Return(t) => Run(Success(t), [], 1)
      case Raise(e) => Run(Failure(e), [], 1)
      case Retry(w) => After([w], 1, RunFrom(decide, generate, attempt + 1, Some(CaughtMessage(o))))
  }

  /** `call_gemini_api` as a value: no SDK means no call at all. */
  function GeminiCall(sdkInstalled: bool, generate: nat -> Outcome): Run {
    if !sdkInstalled then Run(Failure(SdkMissing), [], 0) else RunFrom(Decide, generate, 1, None)
  }

  /** Pausing once more before the rest of a run. */
  lemma AfterRetry(waits: seq<nat>, calls: nat, w: nat, r: Run)
    ensures After(waits, calls, After([w], 1, r)) == After(waits + [w], calls + 1, r)
  {
    assert waits + ([w] + r.waits) == (waits + [w]) + r.waits;
  }

  /** Ending a run with one last call. */
  lemma AfterLast(waits: seq<nat>, calls: nat, result: Result<string, GeminiError>)
    ensures After(waits, calls, Run(result, [], 1)) == Run(result, waits, calls + 1)
  {
    assert waits + [] == waits;
  }

  /** The run from an attempt of the loop, taken one step. */
  lemma RunFromStep(decide: (Outcome, nat) -> Step, generate: nat -> Outcome, attempt: nat, lastError: Option<string>)
    requires 1 <= attempt <= MaxRetries + 1
    ensures var o := generate(attempt);
      match decide(o, attempt)
      case Return(t) => RunFrom(decide, generate, attempt, lastError) == Run(Success(t), [], 1)
      case Raise(e) => RunFrom(decide, generate, attempt, lastError) == Run(Failure(e), [], 1)
      case Retry(w) =>
        RunFrom(decide, generate, attempt, lastError) == After([w], 1, RunFrom(decide, generate, attempt + 1, Some(CaughtMessage(o))))
  {
  }

  /** `call_gemini_api`: the `for attempt in range(1, MAX_RETRIES + 2)` loop. */
  method CallGeminiApi(sdkInstalled: bool, generate: nat -> Outcome) returns (run: Run)
    ensures run == GeminiCall(sdkInstalled, generate)
  {
    if !sdkInstalled {
      return Run(Failure(SdkMissing), [], 0);
    }
    var waits: seq<nat> := [];
    var calls: nat := 0;
    var lastError: Option<string> := None;
    for attempt := 1 to MaxRetries + 2
      invariant RunFrom(Decide, generate, 1, None) == After(waits, calls, RunFrom(Decide, generate, attempt, lastError))
    {
      var outcome := generate(attempt);
      RunFromStep(Decide, generate, attempt, lastError);
      var step := Decide(outcome, attempt);
      if step.Return? {
        AfterLast(waits, calls, Success(step.text));
        return Run(Success(step.text), waits, calls + 1);
      } else if step.Raise? {
        AfterLast(waits, calls, Failure(step.error));
        return Run(Failure(step.error), waits, calls + 1);
      }
      AfterRetry(waits, calls, step.wait, RunFrom(Decide, generate, attempt + 1, Some(CaughtMessage(outcome))));
      calls := calls + 1;
      waits := waits + [step.wait];
      lastError := Some(CaughtMessage(outcome));
    }
    run := Run(Failure(RetriesExhausted(lastError)), waits, calls);
  }

  /** Total seconds paused. */
  function Sum(xs: seq<nat>): nat {
    if xs == [] then 0 else xs[0] + Sum(xs[1..])
  }

  // ---------------------------------------------------------------------------
  // Properties
  // ---------------------------------------------------------------------------

  /** Only a rate limit or a timeout on one of the first `MaxRetries` attempts is retried. */
  lemma RetryOnlyTransient(o: Outcome, attempt: nat)
    ensures Decide(o, attempt).Retry? <==>
      attempt <= MaxRetries && !(o.Reply? && o.text != "")
      && (Categorize(ErrorText(o)) == RateLimited || Categorize(ErrorText(o)) == TimedOut)
  {
  }

  /** The pause before a retry: linear backoff for rate limits, a fixed pause for timeouts. */
  lemma RetryWait(o: Outcome, attempt: nat)
    requires Decide(o, attempt).Retry?
    ensures Categorize(ErrorText(o)) == RateLimited ==> Decide(o, attempt).wait == RetryDelaySecs * attempt
    ensures Categorize(ErrorText(o)) == TimedOut ==> Decide(o, attempt).wait == TimeoutDelaySecs
  {
  }

  /** The text classified is `str(e).lower()` for the empty-response error as well. */
  lemma ErrorTextIsLower(o: Outcome)
    ensures ErrorText(o) == Lower(CaughtMessage(o))
  {
    if o.Reply? {
      EmptyResponseLowerCased();
    }
  }

  /** Lower-casing the message piece by piece. */
  lemma EmptyResponseLowerCased()
    ensures Lower(EmptyResponseMessage) == EmptyResponseLowered
  {
    var p1 := "\U{1F6AB} **Empty";
    var p2 := " response.**";
    var p3 := " The model";
    var p4 := " returned no";
    var p5 := " output.";
    var p6 := " This may";
    var p7 := " happen if the";
    var p8 := " input code was";
    var p9 := " flagged by";
    var p10 := " safety";
    var p11 := " filters.";
    var p12 := " Try removing";
    var p13 := " any sensitive";
    var p14 := " data from the";
    var p15 := " code.";
    LowerConcat(p1 + p2 + p3 + p4 + p5 + p6 + p7 + p8 + p9 + p10 + p11 + p12 + p13 + p14, p15);
    LowerConcat(p1 + p2 + p3 + p4 + p5 + p6 + p7 + p8 + p9 + p10 + p11 + p12 + p13, p14);
    LowerConcat(p1 + p2 + p3 + p4 + p5 + p6 + p7 + p8 + p9 + p10 + p11 + p12, p13);
    LowerConcat(p1 + p2 + p3 + p4 + p5 + p6 + p7 + p8 + p9 + p10 + p11, p12);
    LowerConcat(p1 + p2 + p3 + p4 + p5 + p6 + p7 + p8 + p9 + p10, p11);
    LowerConcat(p1 + p2 + p3 + p4 + p5 + p6 + p7 + p8 + p9, p10);
    LowerConcat(p1 + p2 + p3 + p4 + p5 + p6 + p7 + p8, p9);
    LowerConcat(p1 + p2 + p3 + p4 + p5 + p6 + p7, p8);
    LowerConcat(p1 + p2 + p3 + p4 + p5 + p6, p7);
    LowerConcat(p1 + p2 + p3 + p4 + p5, p6);
    LowerConcat(p1 + p2 + p3 + p4, p5);
    LowerConcat(p1 + p2 + p3, p4);
    LowerConcat(p1 + p2, p3);
    LowerConcat(p1, p2);
    LowerEmptyResponseTheModel(); LowerReturnedOutputThisMay(); LowerHappenInputFlagged();
    LowerSafetyFiltersTry(); LowerSensitiveDataCode();
  }

  /** The message's pieces lower-cased, three at a time, named after their words. These
      pieces model nothing of their own; they exist only to prove `EmptyReplyBlocked`. */
  lemma LowerEmptyResponseTheModel()
    ensures Lower("\U{1F6AB} **Empty") == "\U{1F6AB} **empty"
    ensures Lower(" response.**") == " response.**"
    ensures Lower(" The model") == " the model"
  {
  }

  lemma LowerReturnedOutputThisMay()
    ensures Lower(" returned no") == " returned no"
    ensures Lower(" output.") == " output."
    ensures Lower(" This may") == " this may"
  {
  }

  lemma LowerHappenInputFlagged()
    ensures Lower(" happen if the") == " happen if the"
    ensures Lower(" input code was") == " input code was"
    ensures Lower(" flagged by") == " flagged by"
  {
  }

  lemma LowerSafetyFiltersTry()
    ensures Lower(" safety") == " safety"
    ensures Lower(" filters.") == " filters."
    ensures Lower(" Try removing") == " try removing"
  {
  }

  lemma LowerSensitiveDataCode()
    ensures Lower(" any sensitive") == " any sensitive"
    ensures Lower(" data from the") == " data from the"
    ensures Lower(" code.") == " code."
  {
  }

  /** Holds for a lower-cased text in which no word of the authentication, rate-limit or
      timeout branch can occur: each of those words has a letter or a pair of adjacent
      letters that the text lacks. */
  predicate Uncued(s: string) {
    && 'k' !in s && 'q' !in s && '4' !in s
    && !HasPair(s, 'l', 'i') && !HasPair(s, 'a', 'u') && !HasPair(s, 'r', 'a')
    && !HasPair(s, 's', 'o') && !HasPair(s, 'e', 'o')
  }

  /** Joining two such texts at a space keeps every missing letter and pair missing. */
  lemma UncuedJoin(a: string, b: string)
    requires Uncued(a) && Uncued(b) && b != [] && b[0] == ' '
    ensures Uncued(a + b)
  {
    NoPairConcat(a, b, 'l', 'i');
    NoPairConcat(a, b, 'a', 'u');
    NoPairConcat(a, b, 'r', 'a');
    NoPairConcat(a, b, 's', 'o');
    NoPairConcat(a, b, 'e', 'o');
  }

  /** `MentionsAny` is `any(w in text for w in words)`: some word of the list occurs. */
  lemma {:induction false} MentionsAnyIff(text: string, words: seq<string>)
    ensures MentionsAny(text, words) <==> exists i :: 0 <= i < |words| && Contains(text, words[i])
    decreases |words|
  {
    if words != [] {
      MentionsAnyIff(text, words[1..]);
      if MentionsAny(text, words[1..]) {
        var i :| 0 <= i < |words[1..]| && Contains(text, words[1..][i]);
        assert Contains(text, words[i + 1]);
      }
      forall i | 1 <= i < |words| && Contains(text, words[i])
        ensures MentionsAny(text, words[1..])
      {
        assert words[1..][i - 1] == words[i];
      }
    }
  }

  /** Such a text lands in none of the first three branches. */
  lemma UncuedSkipsFirstBranches(s: string)
    requires Uncued(s)
    ensures !MentionsAny(s, AuthWords) && !MentionsAny(s, RateWords) && !MentionsAny(s, TimeoutWords)
  {
    NoCharNoContains(s, "api key", 4);
    NoPairNoContains(s, "invalid", 4);
    NoPairNoContains(s, "authenticate", 0);
    NoCharNoContains(s, "quota", 0);
    NoPairNoContains(s, "rate", 0);
    NoCharNoContains(s, "429", 0);
    NoPairNoContains(s, "resource", 2);
    NoPairNoContains(s, "timeout", 3);
    NoPairNoContains(s, "deadline", 4);
    MentionsAnyIff(s, AuthWords);
    MentionsAnyIff(s, RateWords);
    MentionsAnyIff(s, TimeoutWords);
  }

  /** A text naming none of the earlier words but naming "safety" is blocked content. */
  lemma UncuedSafetyBlocked(s: string)
    requires Uncued(s) && Contains(s, "safety")
    ensures Categorize(s) == Blocked
  {
    UncuedSkipsFirstBranches(s);
    assert MentionsAny(s, SafetyWords);
    var rest := Branches[1..];
    assert FirstBranch(s, Branches) == FirstBranch(s, rest);
    assert FirstBranch(s, rest) == FirstBranch(s, rest[1..]);
    assert FirstBranch(s, rest[1..]) == FirstBranch(s, rest[1..][1..]);
    assert rest[1..][1..][0] == (SafetyWords, Blocked);
  }

  /** Each piece of the lower-cased message, named after its words, is `Uncued`. Like the
      lower-casing pieces, they exist only to prove `EmptyReplyBlocked`. */
  lemma UncuedEmpty() ensures Uncued("\U{1F6AB} **empty") {}
  lemma UncuedResponse() ensures Uncued(" response.**") {}
  lemma UncuedTheModel() ensures Uncued(" the model") {}
  lemma UncuedReturnedNo() ensures Uncued(" returned no") {}
  lemma UncuedOutput() ensures Uncued(" output.") {}
  lemma UncuedThisMay() ensures Uncued(" this may") {}
  lemma UncuedHappenIfThe() ensures Uncued(" happen if the") {}
  lemma UncuedInputCodeWas() ensures Uncued(" input code was") {}
  lemma UncuedFlaggedBy() ensures Uncued(" flagged by") {}
  lemma UncuedSafety() ensures Uncued(" safety") {}
  lemma UncuedFilters() ensures Uncued(" filters.") {}
  lemma UncuedTryRemoving() ensures Uncued(" try removing") {}
  lemma UncuedAnySensitive() ensures Uncued(" any sensitive") {}
  lemma UncuedDataFromThe() ensures Uncued(" data from the") {}
  lemma UncuedCode() ensures Uncued(" code.") {}

  /** The lower-cased empty-response message names no authentication, rate-limit or
      timeout word. */
  lemma EmptyResponseUncued()
    ensures Uncued(EmptyResponseLowered)
  {
    var p1 := "\U{1F6AB} **empty";
    var p2 := " response.**";
    var p3 := " the model";
    var p4 := " returned no";
    var p5 := " output.";
    var p6 := " this may";
    var p7 := " happen if the";
    var p8 := " input code was";
    var p9 := " flagged by";
    var p10 := " safety";
    var p11 := " filters.";
    var p12 := " try removing";
    var p13 := " any sensitive";
    var p14 := " data from the";
    var p15 := " code.";
    UncuedEmpty(); UncuedResponse(); UncuedTheModel(); UncuedReturnedNo(); UncuedOutput();
    UncuedThisMay(); UncuedHappenIfThe(); UncuedInputCodeWas(); UncuedFlaggedBy(); UncuedSafety();
    UncuedFilters(); UncuedTryRemoving(); UncuedAnySensitive(); UncuedDataFromThe(); UncuedCode();
    UncuedJoin(p1, p2);
    UncuedJoin(p1 + p2, p3);
    UncuedJoin(p1 + p2 + p3, p4);
    UncuedJoin(p1 + p2 + p3 + p4, p5);
    UncuedJoin(p1 + p2 + p3 + p4 + p5, p6);
    UncuedJoin(p1 + p2 + p3 + p4 + p5 + p6, p7);
    UncuedJoin(p1 + p2 + p3 + p4 + p5 + p6 + p7, p8);
    UncuedJoin(p1 + p2 + p3 + p4 + p5 + p6 + p7 + p8, p9);
    UncuedJoin(p1 + p2 + p3 + p4 + p5 + p6 + p7 + p8 + p9, p10);
    UncuedJoin(p1 + p2 + p3 + p4 + p5 + p6 + p7 + p8 + p9 + p10, p11);
    UncuedJoin(p1 + p2 + p3 + p4 + p5 + p6 + p7 + p8 + p9 + p10 + p11, p12);
    UncuedJoin(p1 + p2 + p3 + p4 + p5 + p6 + p7 + p8 + p9 + p10 + p11 + p12, p13);
    UncuedJoin(p1 + p2 + p3 + p4 + p5 + p6 + p7 + p8 + p9 + p10 + p11 + p12 + p13, p14);
    UncuedJoin(p1 + p2 + p3 + p4 + p5 + p6 + p7 + p8 + p9 + p10 + p11 + p12 + p13 + p14, p15);
  }

  /** Regrouping the lowered message around the word "safety". */
  lemma AroundSafety(x: string, w: string, a: string, b: string, c: string, d: string, e: string)
    ensures x + (" " + w) + a + b + c + d + e == (x + " ") + w + (a + b + c + d + e)
  {
  }

  /** The lowered empty-response message names the safety filters. */
  lemma EmptyResponseNamesSafety()
    ensures Contains(EmptyResponseLowered, "safety")
  {
    var front := "\U{1F6AB} **empty" + " response.**" + " the model" + " returned no"
      + " output." + " this may" + " happen if the" + " input code was" + " flagged by";
    assert " safety" == " " + "safety";
    AroundSafety(front, "safety", " filters.", " try removing", " any sensitive", " data from the", " code.");
    ContainsMiddle(front + " ", "safety", " filters." + " try removing" + " any sensitive" + " data from the" + " code.");
  }

  /** An empty response is classified by the message raised for it, and that message lands
      in the safety-filter branch: the call ends there on any attempt, with no retry. */
  lemma EmptyReplyBlocked(attempt: nat)
    ensures Decide(Reply(""), attempt) == Raise(ContentBlocked)
  {
    EmptyResponseUncued();
    EmptyResponseNamesSafety();
    UncuedSafetyBlocked(EmptyResponseLowered);
  }

  /** Classification ignores case: a message and its lower-cased form land in the same branch. */
  lemma ErrorTextIgnoresCase(message: string)
    ensures ErrorText(Raised(Lower(message))) == ErrorText(Raised(message))
  {
    LowerIdempotent(message);
  }

  /** A message naming the key is an authentication failure whatever else it names. */
  lemma AuthWordsWin(message: string)
    requires Contains(Lower(message), "api key")
    ensures Categorize(ErrorText(Raised(message))) == AuthFailure
  {
    assert AuthWords[0] == "api key";
  }

  /** A quota message is retried on the first two attempts and reported on the third. */
  lemma QuotaRetriedThenReported(message: string, attempt: nat)
    requires Categorize(Lower(message)) == RateLimited
    ensures 1 <= attempt <= MaxRetries ==> Decide(Raised(message), attempt) == Retry(5 * attempt)
    ensures attempt == MaxRetries + 1 ==> Decide(Raised(message), attempt) == Raise(RateLimitReached)
  {
  }

  /** The run from attempt `attempt` calls the SDK once per wait plus the last call, at most
      `MaxRetries + 2 - attempt` times, and never reaches the `raise` after the loop. */
  lemma {:induction false} RunFromShape(decide: (Outcome, nat) -> Step, generate: nat -> Outcome, attempt: nat, lastError: Option<string>)
    requires Policy(decide)
    requires 1 <= attempt <= MaxRetries + 1
    ensures var r := RunFrom(decide, generate, attempt, lastError);
      && r.calls == |r.waits| + 1
      && r.calls <= MaxRetries + 2 - attempt
      && !(r.result.Failure? && r.result.error.RetriesExhausted?)
    decreases MaxRetries + 2 - attempt
  {
    var o := generate(attempt);
    assert StepFits(o, attempt, decide(o, attempt));
    match decide(o, attempt)
    case Return(_) =>
    case Raise(_) =>
    case Retry(w) =>
      RunFromShape(decide, generate, attempt + 1, Some(CaughtMessage(o)));
  }

  /** Every wait of the run from `attempt` is a retry pause of that attempt or a later one,
      so the pauses add up to at most the two rate-limit pauses, 5 + 10 seconds. */
  lemma {:induction false} RunFromWaits(decide: (Outcome, nat) -> Step, generate: nat -> Outcome, attempt: nat, lastError: Option<string>)
    requires Policy(decide)
    requires 1 <= attempt <= MaxRetries + 1
    ensures var r := RunFrom(decide, generate, attempt, lastError);
      && |r.waits| <= MaxRetries + 1 - attempt
      && (attempt == 1 ==> Sum(r.waits) <= 15)
      && (attempt == 2 ==> Sum(r.waits) <= 10)
      && (attempt == 3 ==> Sum(r.waits) == 0)
    decreases MaxRetries + 2 - attempt
  {
    var o := generate(attempt);
    assert StepFits(o, attempt, decide(o, attempt));
    match decide(o, attempt)
    case Return(_) =>
    case Raise(_) =>
    case Retry(w) =>
      RunFromWaits(decide, generate, attempt + 1, Some(CaughtMessage(o)));
      var rest := RunFrom(decide, generate, attempt + 1, Some(CaughtMessage(o)));
      assert RunFrom(decide, generate, attempt, lastError).waits == [w] + rest.waits;
      assert ([w] + rest.waits)[1..] == rest.waits;
  }

  /** A whole call makes at most three SDK calls, pauses at most twice and at most 15 seconds
      in total, and never ends in the "failed after retries" error. */
  lemma CallBounds(sdkInstalled: bool, generate: nat -> Outcome)
    ensures var r := GeminiCall(sdkInstalled, generate);
      && r.calls <= MaxRetries + 1
      && |r.waits| <= MaxRetries
      && Sum(r.waits) <= 15
      && !(r.result.Failure? && r.result.error.RetriesExhausted?)
      && (sdkInstalled ==> r.calls == |r.waits| + 1)
  {
    if sdkInstalled {
      DecideFits();
      RunFromShape(Decide, generate, 1, None);
      RunFromWaits(Decide, generate, 1, None);
    }
  }

  /** A run that succeeds returns the text of its last SDK call, and that text is not empty. */
  lemma {:induction false} SuccessIsLastReply(decide: (Outcome, nat) -> Step, generate: nat -> Outcome, attempt: nat, lastError: Option<string>)
    requires Policy(decide)
    requires 1 <= attempt
    requires RunFrom(decide, generate, attempt, lastError).result.Success?
    ensures var r := RunFrom(decide, generate, attempt, lastError);
      generate(attempt + r.calls - 1) == Reply(r.result.value) && r.result.value != ""
    decreases MaxRetries + 2 - attempt
  {
    var o := generate(attempt);
    assert StepFits(o, attempt, decide(o, attempt));
    match decide(o, attempt)
    case Return(_) =>
    case Raise(_) =>
    case Retry(w) =>
      SuccessIsLastReply(decide, generate, attempt + 1, Some(CaughtMessage(o)));
  }

  /** A call that succeeds returns the non-empty text of its last SDK call. */
  lemma CallSuccessIsLastReply(sdkInstalled: bool, generate: nat -> Outcome)
    requires GeminiCall(sdkInstalled, generate).result.Success?
    ensures var r := GeminiCall(sdkInstalled, generate);
      sdkInstalled && generate(r.calls) == Reply(r.result.value) && r.result.value != ""
  {
    DecideFits();
    SuccessIsLastReply(Decide, generate, 1, None);
  }

  /** A non-empty first reply is returned as it is, after a single call and no pause. */
  lemma FirstReplyReturned(generate: nat -> Outcome)
    requires generate(1).Reply? && generate(1).text != ""
    ensures GeminiCall(true, generate) == Run(Success(generate(1).text), [], 1)
  {
  }

  /** An authentication failure on the first attempt is never retried. */
  lemma AuthNotRetried(generate: nat -> Outcome)
    requires generate(1).Raised? && Categorize(Lower(generate(1).message)) == AuthFailure
    ensures GeminiCall(true, generate) == Run(Failure(InvalidApiKey), [], 1)
  {
  }

  /** An empty first response ends the call in the safety-filter error after one call. */
  lemma EmptyFirstReplyBlocked(generate: nat -> Outcome)
    requires generate(1) == Reply("")
    ensures GeminiCall(true, generate) == Run(Failure(ContentBlocked), [], 1)
  {
    EmptyReplyBlocked(1);
  }

  /** When every retry from `attempt` on pauses for the timeout pause, the pauses of the run
      are all 2 seconds. */
  lemma {:induction false} RunFromTimeoutWaits(decide: (Outcome, nat) -> Step, generate: nat -> Outcome, attempt: nat, lastError: Option<string>)
    requires 1 <= attempt <= MaxRetries + 1
    requires forall a | attempt <= a <= MaxRetries + 1 ::
      decide(generate(a), a).Retry? ==> decide(generate(a), a).wait == TimeoutDelaySecs
    ensures var r := RunFrom(decide, generate, attempt, lastError);
      && (forall i | 0 <= i < |r.waits| :: r.waits[i] == TimeoutDelaySecs)
      && Sum(r.waits) == TimeoutDelaySecs * |r.waits|
    decreases MaxRetries + 2 - attempt
  {
    var o := generate(attempt);
    match decide(o, attempt)
    case Return(_) =>
    case Raise(_) =>
    case Retry(w) =>
      if attempt <= MaxRetries {
        RunFromTimeoutWaits(decide, generate, attempt + 1, Some(CaughtMessage(o)));
      }
      var rest := RunFrom(decide, generate, attempt + 1, Some(CaughtMessage(o)));
      assert RunFrom(decide, generate, attempt, lastError).waits == [w] + rest.waits;
      assert ([w] + rest.waits)[1..] == rest.waits;
  }

  /** A call that meets no rate limit pauses only for timeouts, at most twice 2 seconds. */
  lemma TimeoutPausesBound(generate: nat -> Outcome)
    requires forall a :: 1 <= a <= MaxRetries + 1 ==> Categorize(ErrorText(generate(a))) != RateLimited
    ensures Sum(GeminiCall(true, generate).waits) <= 2 * TimeoutDelaySecs
  {
    forall a | 1 <= a <= MaxRetries + 1
      ensures Decide(generate(a), a).Retry? ==> Decide(generate(a), a).wait == TimeoutDelaySecs
    {
      if Decide(generate(a), a).Retry? {
        RetryOnlyTransient(generate(a), a);
        RetryWait(generate(a), a);
      }
    }
    DecideFits();
    RunFromWaits(Decide, generate, 1, None);
    RunFromTimeoutWaits(Decide, generate, 1, None);
  }

  /** An SDK that keeps timing out is called three times, with two 2-second pauses. */
  lemma PersistentTimeout(generate: nat -> Outcome)
    requires forall a :: 1 <= a <= MaxRetries + 1 ==> generate(a).Raised? && Categorize(Lower(generate(a).message)) == TimedOut
    ensures GeminiCall(true, generate) == Run(Failure(RequestTimedOut), [2, 2], 3)
  {
    assert generate(1).Raised? && generate(2).Raised? && generate(3).Raised?;
    var r3 := RunFrom(Decide, generate, 3, Some(generate(2).message));
    assert r3 == Run(Failure(RequestTimedOut), [], 1);
    var r2 := RunFrom(Decide, generate, 2, Some(generate(1).message));
    assert r2 == After([2], 1, r3);
  }
}
