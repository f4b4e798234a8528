/**
 * `call_azure_openai_api`: a single call of the Azure OpenAI SDK. A failed call is never
 * retried; the exception's lower-cased message picks the error reported.
 *
 * The SDK is a parameter: `outcome` is what creating the client and the chat completion
 * give, the reply's content or a raised exception's message.
 */
module Azure {
  import opened Outcomes
  import opened Text

  /** The `RuntimeError`s `call_azure_openai_api` raises, by the message they carry. */
  datatype AzureError =
    | SdkMissing                      // the package is not installed
    | AuthenticationFailed            // "Authentication failed."
    | RateLimitExceeded               // "Rate limit exceeded."
    | RequestTimedOut                 // "Request timed out."
    | DeploymentNotFound              // "Deployment not found."
    | AzureApiError(detail: string)   // "Azure OpenAI Error: {e}"

  /** The `if`/`elif` chain over `str(e).lower()`, first match wins. */
  function Classify(message: string): AzureError {
    var e := Lower(message);
    if Contains(e, "authentication") || Contains(e, "401") then AuthenticationFailed
    else if Contains(e, "429") || Contains(e, "rate") then RateLimitExceeded
    else if Contains(e, "timeout") then RequestTimedOut
    else if Contains(e, "404") || Contains(e, "not found") then DeploymentNotFound
    else AzureApiError(message)
  }

  /** `call_azure_openai_api` as a value. */
  function CallAzure(sdkInstalled: bool, outcome: Outcome): (r: Result<string, AzureError>)
    ensures r.Success? <==> sdkInstalled && outcome.Reply?
    ensures r.Success? ==> r.value == outcome.text
    ensures r.Failure? && r.error != SdkMissing ==> outcome.Raised? && r.error == Classify(outcome.message)
  {
    if !sdkInstalled then Failure(SdkMissing)
    else match outcome
      case Reply(text) => Success(text)
      case Raised(message) => Failure(Classify(message))
  }

  // ---------------------------------------------------------------------------
  // Properties
  // ---------------------------------------------------------------------------

  /** A reply is handed back as it is, an empty one included: unlike the Gemini call,
      nothing turns an empty reply into an error. */
  lemma ReplyPassedThrough(text: string)
    ensures CallAzure(true, Reply(text)) == Success(text)
  {
  }

  /** The raised error never reports a missing SDK, and only the catch-all keeps the message. */
  lemma ClassifyRange(message: string)
    ensures Classify(message) != SdkMissing
    ensures Classify(message).AzureApiError? ==> Classify(message).detail == message
  {
  }

  /** Each branch is taken exactly when its words occur and no earlier branch's words do. */
  lemma ClassifyBranches(message: string)
    ensures var e := Lower(message);
      var auth := Contains(e, "authentication") || Contains(e, "401");
      var rate := Contains(e, "429") || Contains(e, "rate");
      var timeout := Contains(e, "timeout");
      var missing := Contains(e, "404") || Contains(e, "not found");
      && (Classify(message) == AuthenticationFailed <==> auth)
      && (Classify(message) == RateLimitExceeded <==> !auth && rate)
      && (Classify(message) == RequestTimedOut <==> !auth && !rate && timeout)
      && (Classify(message) == DeploymentNotFound <==> !auth && !rate && !timeout && missing)
      && (Classify(message).AzureApiError? <==> !auth && !rate && !timeout && !missing)
  {
  }

  /** Case does not matter: a message and its lower-cased form land in the same branch. */
  lemma ClassifyIgnoresCase(message: string)
    ensures Classify(Lower(message)).AzureApiError? == Classify(message).AzureApiError?
    ensures !Classify(message).AzureApiError? ==> Classify(Lower(message)) == Classify(message)
  {
    LowerIdempotent(message);
  }

  /** An HTTP 401 that also mentions a rate or a timeout is still an authentication failure. */
  lemma UnauthorizedWins(message: string)
    requires Contains(Lower(message), "401")
    ensures CallAzure(true, Raised(message)) == Failure(AuthenticationFailed)
  {
  }
}
