/** The YouTube API key check (lib/youtube-api-validator.ts): one search request with
    the key decides whether it is valid, over its quota, or unusable, and the outcome
    is turned into the message shown to the user. The request is an oracle: its
    outcome is a parameter. */
module ApiKeyValidator {
  import opened Wrappers
  import Text

  /** The parts of an error body the check reads: `error.errors[0].reason` and
      `error.message`. */
  datatype ErrorBody = ErrorBody(reason: Option<string>, message: Option<string>)

  /** What the request gave: it threw (network failure, or a body that is not JSON),
      or it answered with a status and a parsed body. */
  datatype Outcome = Threw | Responded(status: nat, body: ErrorBody)

  datatype ErrorKind = Invalid | QuotaExceeded | NetworkError | UnknownError

  /** `YouTubeApiValidationResult`. */
  datatype Verdict = Verdict(isValid: bool, error: Option<ErrorKind>, errorMessage: Option<string>)

  /** `response.ok`. */
  predicate Ok(status: nat)
  {
    200 <= status <= 299
  }

  /** `a || b` on an optional string: an absent or empty message gives the default. */
  function OrDefault(s: Option<string>, default: string): (r: string)
    ensures s.Some? && s.value != "" ==> r == s.value
    ensures s.None? || s.value == "" ==> r == default
  {
    if s.Some? && s.value != "" then s.value else default
  }

  /** What marks a 403 as a quota problem: one of three reasons, or a message that
      mentions a quota or a limit in any letter case. */
  predicate QuotaSignal(body: ErrorBody)
  {
    var message := Text.Lower(OrDefault(body.message, "Access forbidden"));
    body.reason == Some("quotaExceeded") || body.reason == Some("dailyLimitExceeded")
    || body.reason == Some("rateLimitExceeded")
    || Text.Contains(message, "quota") || Text.Contains(message, "limit")
  }

  function Failed(kind: ErrorKind, message: string): Verdict
  {
    Verdict(false, Some(kind), Some(message))
  }

  /** `validateYouTubeApiKey`. */
  function Validate(outcome: Outcome): Verdict
  {
    match outcome
    case Threw => Failed(NetworkError, "Network error occurred while validating API key")
    case Responded(status, body) =>
      if Ok(status) then Verdict(true, None, None)
      else if status == 400 then Failed(Invalid, OrDefault(body.message, "Invalid API key format"))
      else if status == 401 then Failed(Invalid, "API key is invalid or has been revoked")
      else if status == 403 then
        if QuotaSignal(body) then Failed(QuotaExceeded, "API quota has been exceeded")
        else Failed(Invalid, OrDefault(body.message, "Access forbidden"))
      else if status == 429 then Failed(QuotaExceeded, "Too many requests - quota exceeded")
      else Failed(UnknownError, "HTTP " + Text.NatToString(status) + ": " + OrDefault(body.message, "Unknown error"))
  }

  /** The decision table: a key is valid exactly on a 2xx answer; a failure always
      has a kind and a message; a throw is a network error; a 429, or a 403 with a
      quota signal, is a quota error; a 400, a 401 or any other 403 means an invalid
      key; every other status is an unknown error. */
  lemma ValidateDecides(outcome: Outcome)
    ensures var v := Validate(outcome);
      (v.isValid <==> outcome.Responded? && Ok(outcome.status))
      && (v.isValid <==> v.error.None?) && (v.isValid <==> v.errorMessage.None?)
      && (v.error == Some(NetworkError) <==> outcome.Threw?)
      && (v.error == Some(QuotaExceeded) <==>
            outcome.Responded? && (outcome.status == 429 || (outcome.status == 403 && QuotaSignal(outcome.body))))
      && (v.error == Some(Invalid) <==>
            outcome.Responded? && (outcome.status in {400, 401} || (outcome.status == 403 && !QuotaSignal(outcome.body))))
      && (v.error == Some(UnknownError) <==>
            outcome.Responded? && !Ok(outcome.status) && outcome.status !in {400, 401, 403, 429})
  {
  }

  /** A 400 or a non-quota 403 passes the API's own message on when it has one. */
  lemma ValidatePassesMessage(outcome: Outcome)
    requires outcome.Responded? && outcome.body.message.Some? && outcome.body.message.value != ""
    requires outcome.status == 400 || (outcome.status == 403 && !QuotaSignal(outcome.body))
    ensures Validate(outcome).errorMessage == outcome.body.message
  {
  }

  /** An unknown error names the status, and the status reads back from its digits. */
  lemma UnknownNamesStatus(outcome: Outcome)
    requires outcome.Responded? && !Ok(outcome.status) && outcome.status !in {400, 401, 403, 429}
    ensures Validate(outcome).error == Some(UnknownError)
    ensures var digits := Text.NatToString(outcome.status);
      var text := Validate(outcome).errorMessage.value;
      |text| > 5 + |digits| && text[..5] == "HTTP " && text[5..5 + |digits|] == digits
      && Text.DigitsToNat(digits) == outcome.status
  {
    var digits := Text.NatToString(outcome.status);
    var text := "HTTP " + digits + ": " + OrDefault(outcome.body.message, "Unknown error");
    assert text[5..5 + |digits|] == digits;
    Text.DigitsRoundTrip(outcome.status);
  }

  /** A message holding the word "quota" in any letter case (any `w` that
      lower-cases to it) counts as a quota signal on a 403 without a reason. */
  lemma QuotaWordSignals(prefix: string, w: string, suffix: string)
    requires Text.Lower(w) == "quota"
    ensures QuotaSignal(ErrorBody(None, Some(prefix + w + suffix)))
  {
    var s := prefix + w + suffix;
    var low := Text.Lower(s);
    forall i | 0 <= i < 5 ensures low[|prefix| + i] == "quota"[i] {
      assert s[|prefix| + i] == w[i];
      assert Text.Lower(w)[i] == Text.LowerChar(w[i]);
    }
    assert low[|prefix|..|prefix| + 5] == "quota";
    Text.ContainsAt(low, "quota", |prefix|);
  }

  /** `getValidationErrorMessage`. */
  function ErrorMessage(v: Verdict): string
  {
    if v.isValid then ""
    else match v.error
      case Some(Invalid) => "입력하신 API 키가 올바르지 않아요."
      case Some(QuotaExceeded) => "오늘 API 키 할당량을 모두 소진했어요. 다른 API 키를 사용해주세요."
      case Some(NetworkError) => "네트워크 오류가 발생했어요. 잠시 후 다시 시도해주세요."
      case _ => "API 키 검증 중 오류가 발생했어요. 잠시 후 다시 시도해주세요."
  }

  /** The user sees no message exactly for a valid key. */
  lemma ErrorMessageEmptyIffValid(outcome: Outcome)
    ensures ErrorMessage(Validate(outcome)) == "" <==> Validate(outcome).isValid
  {
  }

  /** Each failure kind has its own message, the unknown kind sharing the fallback
      for a missing kind. */
  lemma ErrorMessagesDistinct(a: ErrorKind, b: ErrorKind)
    ensures a != b ==> ErrorMessage(Failed(a, "")) != ErrorMessage(Failed(b, ""))
    ensures ErrorMessage(Verdict(false, None, None)) == ErrorMessage(Failed(UnknownError, ""))
  {
  }
}
