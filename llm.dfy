/**
 * `call_llm`: read the settings from the session, build both prompts, pick the provider by
 * the prefix of the selected model's display name, check its credentials and call it.
 *
 * The session is a map from setting names to strings; the two SDKs are parameters.
 */
module Llm {
  import opened Outcomes
  import opened Text
  import opened Prompts
  import Gemini
  import Azure

  /** The settings `call_llm` reads, as a map from key to value. */
  type Session = map<string, string>

  /** `st.session_state.get(key, default)`. */
  function Get(session: Session, key: string, default: string): string {
    if key in session then session[key] else default
  }

  const DefaultModel := "Gemini 1.5 Pro"
  const DefaultApiVersion := "2024-02-01"
  /** The model used for a Gemini display name the map does not know. */
  const FallbackGeminiModel := "gemini-flash-latest"

  /** `model_map`: Gemini display names to model identifiers. */
  const GeminiModels: map<string, string> := map[
    "Gemini Flash (Latest)" := "gemini-flash-latest",
    "Gemini 1.5 Pro" := "gemini-1.5-pro",
    "Gemini 1.5 Flash" := "gemini-1.5-flash"]

  /** `model_map.get(provider, "gemini-flash-latest")`. */
  function GeminiModel(provider: string): (id: string)
    ensures id == FallbackGeminiModel || id in GeminiModels.Values
    ensures provider !in GeminiModels ==> id == FallbackGeminiModel
  {
    if provider in GeminiModels then GeminiModels[provider] else FallbackGeminiModel
  }

  /** The arguments of `call_gemini_api`. */
  datatype GeminiRequest = GeminiRequest(userPrompt: string, systemPrompt: string, apiKey: string, modelName: string)

  /** The arguments of `call_azure_openai_api`. */
  datatype AzureRequest = AzureRequest(userPrompt: string, systemPrompt: string, apiKey: string,
                                       endpoint: string, deployment: string, apiVersion: string)

  /** The `RuntimeError`s a caller of `call_llm` sees. */
  datatype LlmError =
    | MissingGeminiKey                      // "Please enter your Gemini API Key"
    | MissingAzureCredentials               // "Please enter your Azure OpenAI credentials"
    | UnknownProvider(name: string)         // "Unknown model provider: {provider}"
    | FromGemini(gemini: Gemini.GeminiError)
    | FromAzure(azure: Azure.AzureError)

  /** Where `call_llm` sends the request, or why it refuses before calling anything. */
  datatype Route = ToGemini(gemini: GeminiRequest) | ToAzure(azure: AzureRequest) | Refused(why: LlmError)

  /** The SDKs as seen by `call_llm`: whether each is installed, and what each gives for a
      request (Gemini also by attempt). */
  datatype Sdks = Sdks(
    geminiInstalled: bool, gemini: (GeminiRequest, nat) -> Outcome,
    azureInstalled: bool, azure: AzureRequest -> Outcome)

  /** The session values `call_llm` reads, each with the default of its `.get`. */
  datatype Settings = Settings(language: string, provider: string, geminiKey: string,
                               azureKey: string, endpoint: string, deployment: string, apiVersion: string)

  function ReadSettings(session: Session): Settings {
    Settings(
      Get(session, "selected_language", DefaultLanguage),
      Get(session, "selected_model", DefaultModel),
      Get(session, "gemini_api_key", ""),
      Get(session, "azure_api_key", ""),
      Get(session, "azure_endpoint", ""),
      Get(session, "azure_deployment", ""),
      Get(session, "azure_api_version", DefaultApiVersion))
  }

  /** The body of `call_llm` up to the SDK call. */
  function Dispatch(settings: Settings, legacyCode: string, mode: string): Route {
    var systemPrompt := SystemPrompt(settings.language);
    var userPrompt := UserPrompt(legacyCode, settings.language, mode);
    if StartsWith(settings.provider, "Gemini") then
      if settings.geminiKey == "" then Refused(MissingGeminiKey)
      else ToGemini(GeminiRequest(userPrompt, systemPrompt, settings.geminiKey, GeminiModel(settings.provider)))
    else if StartsWith(settings.provider, "Azure") then
      if settings.azureKey == "" || settings.endpoint == "" || settings.deployment == "" then Refused(MissingAzureCredentials)
      else ToAzure(AzureRequest(userPrompt, systemPrompt, settings.azureKey, settings.endpoint,
                                settings.deployment, settings.apiVersion))
    else Refused(UnknownProvider(settings.provider))
  }

  /** What a call gives, every pause slept, and how many SDK calls it made. */
  datatype LlmRun = LlmRun(result: Result<string, LlmError>, waits: seq<nat>, calls: nat)

  /** The Gemini SDK answering one request, attempt by attempt. */
  function GeminiAttempts(sdks: Sdks, request: GeminiRequest): nat -> Outcome {
    (attempt: nat) => sdks.gemini(request, attempt)
  }

  /** The SDK call at the end of `call_llm`, its errors passed on to the caller. */
  function Call(route: Route, sdks: Sdks): LlmRun {
    match route
    case Refused(why) => LlmRun(Failure(why), [], 0)
    case ToGemini(request) =>
      var run := Gemini.GeminiCall(sdks.geminiInstalled, GeminiAttempts(sdks, request));
      var result := match run.result
        case Success(text) => Success(text)
        case Failure(e) => Failure(FromGemini(e));
      LlmRun(result, run.waits, run.calls)
    case ToAzure(request) =>
      var result := match Azure.CallAzure(sdks.azureInstalled, sdks.azure(request))
        case Success(text) => Success(text)
        case Failure(e) => Failure(FromAzure(e));
      LlmRun(result, [], if sdks.azureInstalled then 1 else 0)
  }

  /** `call_llm(legacy_code, mode)`. */
  function CallLlm(session: Session, legacyCode: string, mode: string, sdks: Sdks): LlmRun {
    Call(Dispatch(ReadSettings(session), legacyCode, mode), sdks)
  }

  // ---------------------------------------------------------------------------
  // Properties
  // ---------------------------------------------------------------------------

  /** The known display names map to their own models; everything else falls back. */
  lemma GeminiModelMap()
    ensures GeminiModel("Gemini Flash (Latest)") == "gemini-flash-latest"
    ensures GeminiModel("Gemini 1.5 Pro") == "gemini-1.5-pro"
    ensures GeminiModel("Gemini 1.5 Flash") == "gemini-1.5-flash"
  {
  }

  /** A provider starting with "Gemini" needs a non-empty key; the request then carries the
      two prompts for the session's language, the key, and the mapped model. */
  lemma GeminiRoute(s: Settings, legacyCode: string, mode: string)
    requires StartsWith(s.provider, "Gemini")
    ensures s.geminiKey == "" <==> Dispatch(s, legacyCode, mode) == Refused(MissingGeminiKey)
    ensures s.geminiKey != "" ==> Dispatch(s, legacyCode, mode) == ToGemini(GeminiRequest(
      UserPrompt(legacyCode, s.language, mode), SystemPrompt(s.language), s.geminiKey, GeminiModel(s.provider)))
  {
  }

  /** A provider starting with "Azure" needs a key, an endpoint and a deployment, none empty. */
  lemma AzureRoute(s: Settings, legacyCode: string, mode: string)
    requires StartsWith(s.provider, "Azure")
    ensures s.azureKey == "" || s.endpoint == "" || s.deployment == "" <==>
      Dispatch(s, legacyCode, mode) == Refused(MissingAzureCredentials)
    ensures s.azureKey != "" && s.endpoint != "" && s.deployment != "" ==>
      Dispatch(s, legacyCode, mode) == ToAzure(AzureRequest(UserPrompt(legacyCode, s.language, mode),
        SystemPrompt(s.language), s.azureKey, s.endpoint, s.deployment, s.apiVersion))
  {
    PrefixesExclude(s.provider, "Azure", "Gemini");
  }

  /** Any other provider is refused by name. */
  lemma OtherProviderRefused(s: Settings, legacyCode: string, mode: string)
    requires !StartsWith(s.provider, "Gemini") && !StartsWith(s.provider, "Azure")
    ensures Dispatch(s, legacyCode, mode) == Refused(UnknownProvider(s.provider))
  {
  }

  /** A missing setting takes its default: the Gemini 1.5 Pro model with no key, the RPGLE
      language, and API version 2024-02-01. */
  lemma EmptySessionDefaults()
    ensures ReadSettings(map[]) == Settings(DefaultLanguage, "Gemini 1.5 Pro", "", "", "", "", "2024-02-01")
  {
  }

  /** With nothing in the session the default provider is Gemini, and its key is missing. */
  lemma EmptySessionNeedsGeminiKey(legacyCode: string, mode: string, sdks: Sdks)
    ensures CallLlm(map[], legacyCode, mode, sdks) == LlmRun(Failure(MissingGeminiKey), [], 0)
  {
    assert StartsWith(DefaultModel, "Gemini");
  }

  /** A refused request calls no SDK and sleeps not at all; an Azure request is tried once
      and never waits; a Gemini request calls at most three times and sleeps at most 15
      seconds. */
  lemma CallBounds(route: Route, sdks: Sdks)
    ensures var r := Call(route, sdks);
      && (route.Refused? ==> r.calls == 0 && r.waits == [])
      && (route.ToAzure? ==> r.calls <= 1 && r.waits == [])
      && r.calls <= Gemini.MaxRetries + 1
      && Gemini.Sum(r.waits) <= 15
  {
    if route.ToGemini? {
      Gemini.CallBounds(sdks.geminiInstalled, GeminiAttempts(sdks, route.gemini));
    }
  }

  /** The code reaching either SDK sits in the user prompt between its two fences. */
  lemma CodeReachesModel(s: Settings, legacyCode: string, mode: string)
    ensures var i := CodeOffset(s.language, mode);
      match Dispatch(s, legacyCode, mode)
      case ToGemini(request) => OccursAt(request.userPrompt, legacyCode, i)
      case ToAzure(request) => OccursAt(request.userPrompt, legacyCode, i)
      case Refused(_) => true
  {
    CodeInPrompt(legacyCode, s.language, mode);
  }

  /** A successful call returns the model's text unchanged: for Gemini a non-empty reply to
      its last call, for Azure the reply to its only call. */
  lemma SuccessIsModelText(route: Route, sdks: Sdks)
    requires Call(route, sdks).result.Success?
    ensures var r := Call(route, sdks);
      match route
      case ToGemini(request) => r.result.value != "" && sdks.gemini(request, r.calls) == Reply(r.result.value)
      case ToAzure(request) => sdks.azure(request) == Reply(r.result.value)
      case Refused(_) => false
  {
    if route.ToGemini? {
      Gemini.CallSuccessIsLastReply(sdks.geminiInstalled, GeminiAttempts(sdks, route.gemini));
    }
  }
}
