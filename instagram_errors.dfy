/**
 * The error type of the Instagram import (ios/KinexFit/Services/InstagramFetchError.swift):
 * its user-facing texts and the two classifications the UI acts on, retrying
 * and offering an upgrade. An underlying `Error` is kept as its description.
 */
module InstagramErrors {
  import opened Wrappers
  import opened Text

  datatype InstagramFetchError =
    | InvalidURL
    | QuotaExceeded(used: int, limit: int)
    | RateLimited
    | PostNotFound
    | NetworkError(cause: string)
    | ParsingFailed
    | Unauthorized
    | ServerError(statusCode: int)
    | DecodingError(cause: string)

  /** `errorDescription`: the quota and status figures are interpolated. */
  function ErrorDescription(e: InstagramFetchError): (d: Option<string>)
    ensures d.Some? && |d.value| > 0
    ensures e.QuotaExceeded? ==> Contains(d.value, IntToString(e.used) + "/" + IntToString(e.limit))
    ensures e.ServerError? ==> Contains(d.value, IntToString(e.statusCode))
  {
    match e
    case InvalidURL => Some("Invalid Instagram URL")
    case QuotaExceeded(used, limit) =>
      ContainsMiddle("Monthly scan quota exceeded (", IntToString(used) + "/" + IntToString(limit), " used)");
      Some("Monthly scan quota exceeded (" + (IntToString(used) + "/" + IntToString(limit)) + " used)")
    case RateLimited => Some("Too many requests. Please try again later")
    case PostNotFound => Some("Instagram post not found")
    case NetworkError(_) => Some("Network connection error")
    case ParsingFailed => Some("Failed to parse workout content")
    case Unauthorized => Some("Authentication required")
    case ServerError(statusCode) =>
      ContainsMiddle("Server error (Status: ", IntToString(statusCode), ")");
      Some("Server error (Status: " + IntToString(statusCode) + ")")
    case DecodingError(_) => Some("Failed to decode server response")
  }

  const QuotaSuggestionHead := "You've used all "
  const QuotaSuggestionTail := " of your monthly scans. Upgrade your plan for more scans."

  /** `recoverySuggestion`: the quota limit is interpolated. */
  function RecoverySuggestion(e: InstagramFetchError): (s: Option<string>)
    ensures s.Some?
  {
    match e
    case InvalidURL => Some("Please enter a valid Instagram post or reel URL (e.g., https://instagram.com/p/abc123)")
    case QuotaExceeded(_, limit) =>
      Some(QuotaSuggestionHead + IntToString(limit) + QuotaSuggestionTail)
    case RateLimited => Some("You've made too many requests. Wait a few minutes and try again.")
    case PostNotFound => Some("The post may be private, deleted, or the URL may be incorrect. Please verify the URL and try again.")
    case NetworkError(_) => Some("Check your internet connection and try again.")
    case ParsingFailed => Some("The workout content couldn't be parsed automatically. Try manual entry instead.")
    case Unauthorized => Some("Please log in to continue.")
    case ServerError(_) => Some("Our servers are experiencing issues. Please try again later.")
    case DecodingError(_) => Some("There was a problem processing the response. Please try again.")
  }

  /** `isRetryable`. */
  predicate IsRetryable(e: InstagramFetchError)
    ensures IsRetryable(e) ==> !e.QuotaExceeded?
  {
    match e
    case NetworkError(_) => true
    case ServerError(_) => true
    case RateLimited => true
    case _ => false
  }

  /** `shouldShowUpgradePrompt`. */
  predicate ShouldShowUpgradePrompt(e: InstagramFetchError)
    ensures ShouldShowUpgradePrompt(e) ==> !IsRetryable(e)
  {
    e.QuotaExceeded?
  }

  // ---------------------------------------------------------------------------
  // Properties

  /**
   * Every error is exactly one of: retryable (network, server, rate limit), an
   * upgrade prompt (quota), or final (invalid URL, not found, parsing,
   * unauthorized, decoding); no error both invites a retry and an upgrade.
   */
  lemma ErrorClassification(e: InstagramFetchError)
    ensures !(IsRetryable(e) && ShouldShowUpgradePrompt(e))
    ensures IsRetryable(e) <==> e.NetworkError? || e.ServerError? || e.RateLimited?
    ensures ShouldShowUpgradePrompt(e) <==> e.QuotaExceeded?
    ensures !IsRetryable(e) && !ShouldShowUpgradePrompt(e) <==>
            e.InvalidURL? || e.PostNotFound? || e.ParsingFailed? || e.Unauthorized? || e.DecodingError?
  {
  }

  /** The quota suggestion names the monthly limit. */
  lemma QuotaSuggestionShowsLimit(used: int, limit: int)
    ensures Contains(RecoverySuggestion(QuotaExceeded(used, limit)).value, IntToString(limit))
  {
    ContainsMiddle(QuotaSuggestionHead, IntToString(limit), QuotaSuggestionTail);
  }

  /** The quota description shows "used/limit": "Monthly scan quota exceeded (12/12 used)". */
  lemma QuotaDescriptionExample()
    ensures ErrorDescription(QuotaExceeded(12, 12)) == Some("Monthly scan quota exceeded (12/12 used)")
  {
    assert IntToString(12) == "12" by {
      assert NatToString(1) == ['1'];
      assert NatToString(12) == ['1'] + ['2'];
    }
    var shown := "Monthly scan quota exceeded (" + ("12" + "/" + "12") + " used)";
    assert ErrorDescription(QuotaExceeded(12, 12)).value == shown;
    assert shown == "Monthly scan quota exceeded (12/12 used)";
  }
}
