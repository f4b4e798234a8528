# LegacyLens request/response pipeline in Dafny

LegacyLens is a Streamlit app. It takes pasted legacy source code (RPGLE, COBOL, JCL and
others), asks a Gemini or Azure OpenAI model for three markdown sections (an executive
summary, technical documentation and a Python translation), and shows them. This project
models the logic between the UI and the model SDKs, all of it in `app.py`:

- **Input guards**: `estimate_tokens`, `validate_input` and the size warning. They are in
  `validation.dfy` (module `InputValidation`).
- **Prompt builders**: `build_system_prompt` and `build_user_prompt`, with the
  mode-to-instruction table and its fallback. They are in `prompts.dfy` (module `Prompts`).
- **Response parser**: `parse_llm_response` is in `parser.dfy` (module `ResponseParser`).
  - The method `ParseLlmResponse` follows the source step by step: it collects the found
    headings, sorts them, runs the slicing loop, then applies the fallbacks and the
    truncation flag.
  - It is proved equal to `ParseSpec`, a description of the result that needs no sorting.
    Each section's body ends at the nearest heading found after it.
  - The three heading regexes `##\s*W1\s+W2` with `re.IGNORECASE` are modelled as a matcher
    (`HeadingAt`). It is proved to agree with the regex's existential reading
    (`RegexMatchAt`).
- **Gemini call**: the exception classification and retry loop of `call_gemini_api` are in
  `gemini.dfy` (module `Gemini`).
  - The SDK is a function from the attempt number to an `Outcome`: a reply text, or the
    message of the exception raised.
  - The sleeps are returned as a list of seconds, and the SDK calls are counted.
  - The loop is the method `CallGeminiApi`. It is proved equal to the function
    `GeminiCall`.
- **Azure call**: the single-shot error classification of `call_azure_openai_api` is in
  `azure.dfy` (module `Azure`).
- **Dispatch**: `call_llm` is in `llm.dfy` (module `Llm`).
  - The session is a parameter. So are both SDKs and whether each package is installed.
  - The provider prefix and credential checks are modelled, and so is the Gemini model map.
- **Session result store**: `session.dfy` (module `Session`) covers the per-mode store
  after an analysis, the Clear button, the session defaults and the download gate. The
  session fields the source updates are the fields of a class.
- **Report**: `generate_report_markdown` is in `report.dfy` (module `Report`). The clock
  reading is a parameter.
- **Shared helpers**: `text.dfy` (module `Text`) models the Python string operations the
  code uses: `str.strip`, `str.lower`, `in`, `startswith` and `count`. `outcomes.dfy`
  (module `Outcomes`) holds `Option`, `Result` and `Outcome`.

Behaviour of the code worth noting:

- The code raises an empty Gemini response inside the `try` block, so the same `except`
  block classifies it. There is no separate "empty response" error. Its lower-cased
  message contains "safety", so it ends as the safety-filter error with no retry
  (`Gemini.EmptyReplyBlocked`).
- The truncation flag also requires that the Python section does not start with `_No`.
  It is absent rather than `False` when not raised. The model keeps a boolean that is
  `true` exactly when the source sets the key.
- Timeouts are retried up to `MAX_RETRIES` (2) times, as rate limits are, although the
  code's comment says "retry once".
- A missing SDK package is a runtime error of each caller (`SdkMissing`), not a
  credentials error.
- Both prompt builders pass their f-string through `textwrap.dedent`, and the pasted code is
  part of that f-string. When every code line starts with at least four spaces, as in
  fixed-format RPGLE, the common margin is four and every code line after the first
  reaches the model four columns further left. Whitespace-only lines of the code become
  empty. The model gives the value before dedent.
- The `call_llm` default provider is "Gemini 1.5 Pro". The session default set by
  `init_session_state` is "Gemini Flash (Latest)". After initialisation the first is never
  used (`Session.InitialisedSettings`), so a fresh session asks for `gemini-flash-latest`
  (`Session.FreshSessionModel`).

## Model

| member | source | states |
|---|---|---|
| InputValidation.EstimateTokens | app.py:615-617 | the estimate is the length divided by 4, rounded down: `4n <= len < 4n + 4` |
| InputValidation.ValidateInput | app.py:620-639 | accepted iff the code is not blank and at most 40000 characters; blank code gets the "no code" refusal, and only it does; a too-large refusal carries the length, the token estimate, 40000 and 10000 |
| InputValidation.SizeBoundary | app.py:609-639 | 40000 characters of real code are accepted; 40001 are refused with an estimate of 10000 tokens |
| InputValidation.AcceptedTokenBound | app.py:630-639 | accepted code is estimated at no more than 10000 tokens |
| InputValidation.WarningBetweenLimits | app.py:642-647 | for code that is not blank: a warned input of at most 40000 characters is accepted, and a refused input also warns |
| InputValidation.InputWarning | app.py:642-652 | definition: the advisory test `len(code) > INPUT_WARN_CHARS`, related to validation by `InputValidation.WarningBetweenLimits` |
| Prompts.ModeInstruction | app.py:691-698 | the instruction is always one of the table's three |
| Prompts.ModeInstructionFallback | app.py:691-698 | the three known modes get their own instruction; any other mode gets the "full" one |
| Prompts.CodeBetweenFences | app.py:696-703 | in the f-string's value before `textwrap.dedent`, the pasted code sits unchanged, right after the opening fence and its line break, and right before the line break of the closing fence |
| Prompts.CodeInPrompt | app.py:696-703 | in the f-string's value before `textwrap.dedent`, the pasted code occurs at an offset fixed by language and mode |
| Prompts.UserPromptInjective | app.py:696-703 | different code gives different f-string values before `textwrap.dedent`, for the same language and mode |
| Prompts.SystemPromptNamesHeadings | app.py:663-677 | the parser finds all three section headings in the system prompt, for every language |
| Prompts.SystemPrompt | app.py:658-677 | definition: the f-string value of `build_system_prompt`; its headings are stated by `Prompts.SystemPromptNamesHeadings` |
| Prompts.UserPrompt | app.py:680-703 | definition: the f-string value of `build_user_prompt`; where the code sits is stated by `Prompts.CodeBetweenFences` |
| ResponseParser.HeadingIsRegexMatch | app.py:724-735 | where the matcher accepts a heading, the regex `##\s*W1\s+W2` (ignoring case) matches there |
| ResponseParser.RegexMatchIsHeading | app.py:724-735 | every regex match at a position is accepted by the matcher |
| ResponseParser.HeadingKeysExclusive | app.py:724-727 | no position starts headings of two different sections |
| ResponseParser.SearchLeftmost | app.py:732-735 | `re.search` gives the first matching position; no earlier position matches, and nothing is found only when there is no match anywhere |
| ResponseParser.Search | app.py:731-735 | definition: `re.search` of one heading pattern, the first position the matcher accepts; stated by `ResponseParser.SearchLeftmost` |
| ResponseParser.LocateApart | app.py:731-735 | the first matches of the three patterns start at pairwise different offsets |
| ResponseParser.FoundStartsDiffer | app.py:731-738 | the first matches of two different sections start at different offsets |
| ResponseParser.LineEndFacts | app.py:743 | the heading's line end is one past the first newline at or after its start, or the text length when there is none |
| ResponseParser.LineEndAt | app.py:743 | when the first newline at or after the start is at `n`, the line ends at `n + 1` |
| ResponseParser.CutIsStrip | app.py:746 | the stored body is `str.strip()` of the slice `raw[heading_end:end]` |
| ResponseParser.Insert | app.py:738 | inserting into a list sorted by strictly increasing start keeps it sorted and adds exactly that element |
| ResponseParser.SortByStart | app.py:738 | the sort gives a list with strictly increasing starts that is a permutation of its input |
| ResponseParser.NextSectionInOrder | app.py:741-746 | in the sorted list, the next entry's start is the nearest heading found after this one; the last entry ends at the text length |
| ResponseParser.FindPositions | app.py:731-735 | the first loop collects each found heading once, in pattern order, with the offset of its first match |
| ResponseParser.ExtractBodies | app.py:741-746 | the slicing loop stores each listed section's cut text, as the spec function describes it after each step |
| ResponseParser.FilledIsSpec | app.py:741-764 | slicing the sorted positions gives every section the body it has in the order-free description |
| ResponseParser.PatchSections | app.py:748-762 | the stored sections are the bodies with empty ones replaced by their fallbacks, and the flag is set as the truncation test describes |
| ResponseParser.ParseLlmResponse | app.py:709-764 | the whole parser returns exactly the order-free description `ParseSpec` of its input |
| ResponseParser.ParseSpec | app.py:709-764 | definition: the parser's result described without sorting; the method is proved to return it, and its sections are stated by `ResponseParser.SectionsNeverEmpty` and `ResponseParser.TruncationFlag` |
| ResponseParser.Section | app.py:748-754 | definition: a found body, or the fallback when it is empty; stated by `ResponseParser.SectionShape` |
| ResponseParser.Truncated | app.py:756-762 | definition: the truncation test on the stored Python code; stated by `ResponseParser.TruncatedTest` |
| ResponseParser.TruncatedTest | app.py:757-761 | the source's extra non-emptiness test does not change when the flag is raised |
| ResponseParser.FallbacksDistinct | app.py:748-754 | all three fallbacks begin with `_No`, and no two are equal |
| ResponseParser.SectionShape | app.py:741-754 | a stored section is never empty; it is its fallback, or a found body with no whitespace at either end; a missing heading gives the fallback |
| ResponseParser.SectionsNeverEmpty | app.py:717-754 | for every input every section of the result is non-empty; a section whose heading is absent holds its own fallback |
| ResponseParser.SameLineHeadingFallback | app.py:741-754 | a heading followed on the same line by another found heading has an empty body, so its section holds the fallback |
| ResponseParser.TruncationFlag | app.py:756-762 | the flag is raised iff the Python heading was found, its body is stored, does not start with `_No` and has an odd number of fences; a fallback is never flagged |
| ResponseParser.HeadingTextMatches | app.py:724-727 | the heading spelled `## W1 W2` matches at the place it is written, inside any text |
| ResponseParser.HeadingTextFound | app.py:732-735 | a text holding a section's heading has that section found, no later than the heading |
| Gemini.Decide | app.py:805-861 | one attempt returns exactly a non-empty reply, unchanged; it retries only on attempts up to `MAX_RETRIES`, with a 5·attempt or a 2-second pause; it raises only the `except` block's own errors, which error for which branch being stated by `Gemini.DecideRaises` |
| Gemini.Categorize | app.py:818-861 | definition: the chain of word tests of the `except` block, first match wins; stated branch by branch by `Gemini.CategorizeBranches` |
| Gemini.CategorizeBranches | app.py:818-861 | a message lands in a branch iff it names a word of that branch and none of an earlier one; naming none of them, it is unrecognised |
| Gemini.DecideRaises | app.py:818-861 | a failed attempt raises the invalid-key error on authentication words, the safety-filter error on safety words and `ApiError` with the caught message in its original case otherwise; a rate limit or timeout past `MAX_RETRIES` raises its own error |
| Gemini.DecideFits | app.py:805-861 | the loop body meets the step policy that the loop lemmas assume |
| Gemini.CallGeminiApi | app.py:782-864 | the `for attempt` loop, with its waits, call count and `last_error`, gives exactly `GeminiCall` |
| Gemini.RunFrom | app.py:795-864 | definition: the loop from one attempt on, as recursion; its shape is stated by `Gemini.RunFromStep`, `Gemini.RunFromShape` and `Gemini.RunFromWaits` |
| Gemini.GeminiCall | app.py:770-864 | definition: the SDK check, then the loop from attempt 1; stated by `Gemini.CallBounds` and `Gemini.CallSuccessIsLastReply` |
| Gemini.RunFromStep | app.py:795-861 | one loop iteration: a return or raise ends the run after one call; a retry pauses and goes on from the next attempt with that error as the last one |
| Gemini.RetryOnlyTransient | app.py:818-861 | an attempt is retried iff it is not a non-empty reply, its message is a rate-limit or timeout one, and the attempt is at most `MAX_RETRIES` |
| Gemini.RetryWait | app.py:826-829 | a rate-limit retry pauses `RETRY_DELAY_SECS * attempt` seconds; a timeout retry (app.py:842-844) pauses 2 seconds |
| Gemini.MentionsAnyIff | app.py:819 | the word test of each branch holds iff some word of the branch occurs in the message |
| Gemini.ErrorTextIsLower | app.py:806-815 | the text classified is `str(e).lower()`, both for the SDK's exception and for the empty-response error |
| Gemini.ErrorTextIgnoresCase | app.py:815 | a message and its lower-cased form are classified alike |
| Gemini.EmptyReplyBlocked | app.py:806-858 | an empty reply raises the empty-response error inside `try`; its message names "safety" and none of the earlier words, so on any attempt it ends as the safety-filter error |
| Gemini.EmptyFirstReplyBlocked | app.py:795-858 | an empty first reply ends the call with the safety-filter error after one call and no pause |
| Gemini.AuthWordsWin | app.py:819-822 | a message naming the API key is an authentication failure whatever else it names |
| Gemini.QuotaRetriedThenReported | app.py:825-838 | a rate-limit message is retried after 5·attempt seconds on attempts 1 and 2, and reported as the rate-limit error on attempt 3 |
| Gemini.RunFromShape | app.py:795-864 | for any loop body that meets the step policy, from any attempt the run makes one more call than it pauses, at most the attempts left, and never reaches the `raise` after the loop |
| Gemini.RunFromWaits | app.py:824-845 | for any loop body that meets the step policy, the pauses from attempts 1, 2 and 3 add up to at most 15, 10 and 0 seconds |
| Gemini.CallBounds | app.py:782-864 | a call makes at most 3 SDK calls and pauses at most twice and at most 15 seconds in total; "failed after retries" is never raised; an installed SDK is called once more than the number of pauses |
| Gemini.SuccessIsLastReply | app.py:806-812 | for any loop body that meets the step policy, a successful run returns the non-empty text of its last SDK call |
| Gemini.CallSuccessIsLastReply | app.py:782-812 | a successful call had the SDK installed and returns the non-empty reply of its last call |
| Gemini.FirstReplyReturned | app.py:797-812 | a non-empty first reply is returned after one call and no pause |
| Gemini.AuthNotRetried | app.py:818-822 | an authentication failure on the first attempt ends the call at once with the invalid-key error |
| Gemini.RunFromTimeoutWaits | app.py:840-845 | when every retry from this attempt on pauses for the timeout delay, every pause is 2 seconds and the total is 2 times their number |
| Gemini.TimeoutPausesBound | app.py:840-845 | a call that meets no rate limit pauses at most 4 seconds in total |
| Gemini.PersistentTimeout | app.py:840-850 | an SDK that always times out is called three times, with two 2-second pauses, and the call ends as the timed-out error |
| Azure.CallAzure | app.py:881-923 | success iff the SDK is installed and replied, with the reply text unchanged; every other failure comes from the raised message's classification |
| Azure.Classify | app.py:904-923 | definition: the `elif` chain on the lower-cased message; stated branch by branch by `Azure.ClassifyBranches` |
| Azure.ReplyPassedThrough | app.py:893-902 | a reply is returned as it is |
| Azure.ClassifyRange | app.py:904-923 | a caught error is never the missing-package error, and an unrecognised one keeps its message |
| Azure.ClassifyBranches | app.py:904-923 | each branch is taken iff its words occur in the lower-cased message and no earlier branch's words do |
| Azure.ClassifyIgnoresCase | app.py:905 | a message and its lower-cased form land in the same branch |
| Azure.UnauthorizedWins | app.py:906-909 | a message naming 401 is an authentication failure whatever else it names |
| Llm.GeminiModel | app.py:950-955 | the model id is one of the map's ids or the fallback, and an unknown display name gets `gemini-flash-latest` |
| Llm.GeminiModelMap | app.py:950-954 | the three display names map to their model ids |
| Llm.ReadSettings | app.py:940-962 | definition: the `st.session_state.get` reads of `call_llm` with their defaults; stated by `Llm.EmptySessionDefaults` |
| Llm.Dispatch | app.py:940-971 | definition: prompt building, provider choice and credential checks; stated by `Llm.GeminiRoute`, `Llm.AzureRoute` and `Llm.OtherProviderRefused` |
| Llm.Call | app.py:945-969 | definition: the SDK call of the chosen route with its errors passed on; stated by `Llm.CallBounds` and `Llm.SuccessIsModelText` |
| Llm.CallLlm | app.py:929-971 | definition: `call_llm` as settings reading, dispatch and call; stated by `Llm.EmptySessionNeedsGeminiKey` |
| Llm.GeminiRoute | app.py:945-956 | a `Gemini` provider is refused iff the key is empty; otherwise the request carries both prompts, the key and the mapped model |
| Llm.AzureRoute | app.py:958-969 | an `Azure` provider is refused iff the key, endpoint or deployment is empty; otherwise the request carries both prompts and all the settings |
| Llm.OtherProviderRefused | app.py:970-971 | any other provider is an unknown-provider error naming it |
| Llm.EmptySessionDefaults | app.py:940-962 | an empty session reads as the `.get` defaults: "RPGLE / AS400", "Gemini 1.5 Pro", empty credentials, API version "2024-02-01" |
| Llm.EmptySessionNeedsGeminiKey | app.py:940-948 | with an empty session the call is refused for the missing Gemini key and no SDK is called |
| Llm.CallBounds | app.py:929-971 | a refused call makes no SDK call; an Azure call at most one, with no pause; every call makes at most 3 and pauses at most 15 seconds |
| Llm.CodeReachesModel | app.py:940-942 | whichever provider is used, the request's user prompt (the value before `textwrap.dedent`) holds the pasted code at the offset the builder puts it |
| Llm.SuccessIsModelText | app.py:956-969 | a successful call returns the model's text unchanged: for Gemini the non-empty reply to its last call, for Azure the reply to its only call |
| Session.InitSessionState | app.py:1021-1044 | the loop over the defaults gives the session with every missing default key added and every present value kept |
| Session.AddDefault | app.py:1042-1044 | one pass of that loop adds its key's default only where the key is missing |
| Session.InitKeepsAndFills | app.py:1042-1044 | after initialisation a key has a value iff it had one or has a default; present values stay, missing ones get their default |
| Session.InitIdempotent | app.py:1042-1044 | initialising an initialised session changes nothing |
| Session.InitialisedSettings | app.py:1021-1044 | `call_llm` reads an initialised session as the session itself, except that a missing model reads as "Gemini Flash (Latest)" |
| Session.FreshSessionModel | app.py:1021-1044 | a fresh session reads as the defaults, with "Gemini Flash (Latest)" as the model, mapped to `gemini-flash-latest` |
| Session.ResultStore.constructor | app.py:1021-1041 | the store starts with no input, empty sections and no finished analysis, and is valid: nothing is stored before an analysis finishes |
| Session.ResultStore.Clear | app.py:1226-1231 | Clear empties the input and the three sections, resets the finished flag, keeps the last action mode and leaves the store valid |
| Session.ResultStore.Store | app.py:1307-1321 | storing after an analysis sets the sections as the mode says, records the mode, marks the analysis finished, leaves the input alone and leaves the store valid |
| Session.StoreReplacesStale | app.py:1307-1318 | full stores all three sections; docs_only empties the Python code; python_only empties the summary and docs; a mode outside the table leaves the shown sections as they were |
| Session.StoreShown | app.py:1307-1318 | definition: the sections a finished analysis leaves stored, by mode; stated by `Session.StoreReplacesStale` |
| Session.ParseFilled | app.py:748-754 | every parse result has three non-empty sections |
| Session.StoredFilled | app.py:1307-1318 | storing three non-empty sections leaves a shown section empty iff the mode cleared it |
| Session.StoredParseNonEmpty | app.py:1303-1318 | after storing a parse result, a shown section is empty iff the mode cleared it |
| Session.FullGate | app.py:1442-1446 | after a full analysis, the download is offered iff some section does not start with `_No` |
| Session.FullAnalysisGate | app.py:1303-1310 | the gate after parsing a reply in full mode; a reply with none of the three headings offers no download |
| Session.EmptyStoreNoDownload | app.py:1442-1446 | an empty store offers no download |
| Session.CanDownload | app.py:1436-1445 | definition: `has_content` over the stored sections; stated by `Session.FullGate` and `Session.EmptyStoreNoDownload` |
| Session.ResultStore.HasContent | app.py:1341-1446 | the gate, shown only under a finished analysis; in a valid store it is `has_content` of the stored sections alone |
| Report.FillLayout | app.py:984-1014 | in an f-string's value every field sits whole right after its literal part, and the fields come in template order |
| Report.FillPlacesField | app.py:984-1014 | each field of an f-string's value sits right after its literal part, at the offset the parts before it give |
| Report.FieldsInOrder | app.py:984-1014 | an earlier field and the literal text after it end before a later field starts |
| Report.MissingShownAsNA | app.py:987-1010 | a missing model or section is shown as `N/A`, and a present one as itself |
| Report.ReportLayout | app.py:984-1015 | the f-string's value before `textwrap.dedent` holds the time, model, language, code, summary, docs and Python code, whole and in that order, each after its template text |
| Report.GenerateReport | app.py:977-1015 | definition: the report's f-string value before dedent; stated by `Report.ReportLayout` and `Report.MissingShownAsNA` |
| Text.StripFacts | app.py:627 | `strip()` is empty iff the text is all whitespace; it is the slice between the leading and the trailing whitespace runs |
| Text.Lower | app.py:815 | definition: `str.lower()` on ASCII letters; stated by `Text.LowerIdempotent` and `Gemini.ErrorTextIgnoresCase` |
| Text.LowerIdempotent | app.py:815 | lower-casing twice is lower-casing once |
| Text.ContainsIffOccurs | app.py:819 | Python's `pat in s` holds iff `pat` occurs at some offset of `s` |
| Text.CountZero | app.py:760 | the fence count is zero iff the text holds no fence |

## Left out

- The Streamlit UI is not modelled: CSS, sidebar, tabs, captions, spinners, toasts and widgets. The "Load sample" button and the sample code constants are left out with it.
- The SDK calls are parameters: `genai.configure`, `GenerativeModel`, `generate_content` and the `AzureOpenAI` client. Errors raised by `genai.configure` or `GenerativeModel`, outside the `try` block, are not modelled. Neither are temperature and the output-token limit.
- `time.sleep` is not performed; each pause is recorded as a number of seconds in the run.
- `datetime.now()` is a parameter of the report.
- Message texts are not modelled. Errors and refusals are tags carrying the values their messages are built from. The comma formatting of numbers is left out.
- `st.session_state` is a map from names to strings, passed in and returned. Non-string values are not modelled: `analysis_complete` is a field of `Session.ResultStore`, and the map and the class are not tied together.
- Prompts.SystemPrompt: gives the f-string's value before `textwrap.dedent`, with its four-space source indentation. Dedent is a library call whose result for interpolated multi-line text is not modelled.
- Prompts.UserPrompt: gives the f-string's value before `textwrap.dedent`, for the same reason.
- Report.GenerateReport: gives the f-string's value before `textwrap.dedent`, for the same reason.
- Prompts.CodeBetweenFences: holds of the value before `textwrap.dedent` only. Dedent empties whitespace-only lines of the code and removes the common margin, so code whose lines all start with at least four spaces reaches the model with lines 2 onwards shifted left.
- Prompts.CodeInPrompt: holds of the value before `textwrap.dedent` only, for the reasons given for `Prompts.CodeBetweenFences`.
- Prompts.UserPromptInjective: holds of the value before `textwrap.dedent` only. The dedented prompt is not injective: the code "a\n \nb" and the code "a\n\nb" give the same prompt.
- Llm.CodeReachesModel: holds of the value before `textwrap.dedent` only; the model receives the dedented prompt, with the changes named for `Prompts.CodeBetweenFences`.
- Report.ReportLayout: holds of the value before `textwrap.dedent` only. Dedent empties whitespace-only lines of the code and of the sections, so they are not "whole" in the source's report.
- Text.Lower: maps only the ASCII letters `A`-`Z`. Python's `str.lower` and `re.IGNORECASE` also fold other Unicode letters, some onto ASCII ones: the Kelvin sign lower-cases to `k`, and `re.IGNORECASE` matches the long s `ſ` against `s`. Such inputs are classified and parsed differently: a Gemini message "bad api \u212Aey" is an authentication failure in the source and an unrecognised error in the model, and a heading spelled with `ſ` is found only by the source.
- Azure.CallAzure: a reply whose `message.content` is `None` is not distinguished from a text reply. The source would return `None` to its caller.
- ResponseParser.SortByStart: the in-place `list.sort` is modelled as an insertion sort on values. The starts are distinct, so every sort gives the same list.
- Session.ResultStore: models only the session fields the analysis, Clear and download code touch. Widget state is not modelled.
