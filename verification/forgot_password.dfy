/** ForgotPasswordScreen: the email check and the forgotPassword request. */
module ForgotPassword {
  import opened Wrappers
  import opened Text
  import opened FirstMatch
  import opened Ui

  datatype EmailError = NoEmail | BadEmail

  function ErrorMessage(e: EmailError): string {
    match e
    case NoEmail => "Please enter your email"
    case BadEmail => "Please enter a valid email address"
  }

  /** Every character is in the class [^\s@]. */
  predicate Plain(t: string) {
    forall k :: 0 <= k < |t| ==> !IsWhitespace(t[k]) && t[k] != '@'
  }

  /** The regular expression /^[^\s@]+@[^\s@]+\.[^\s@]+$/ matches `s`: three
      non-empty runs of [^\s@], the first two separated by '@' at index `a`,
      the last two by '.' at index `d`. */
  predicate EmailRegexMatches(s: string) {
    exists a, d | 0 < a < |s| && a + 1 < d < |s| - 1 ::
      s[a] == '@' && s[d] == '.' && Plain(s[..a]) && Plain(s[a + 1..d]) && Plain(s[d + 1..])
  }

  /** The shape the regular expression accepts, said plainly: no whitespace;
      exactly one '@', not the first character; and after the '@' a '.' that
      is neither the first nor the last character of that part. */
  predicate ShapedLikeEmail(s: string) {
    && (forall k :: 0 <= k < |s| ==> !IsWhitespace(s[k]))
    && exists a :: 0 < a < |s| && s[a] == '@'
         && (forall k :: 0 <= k < |s| && s[k] == '@' ==> k == a)
         && (exists d :: a + 1 < d < |s| - 1 && s[d] == '.')
  }

  lemma RegexMatchIsShaped(s: string)
    requires EmailRegexMatches(s)
    ensures ShapedLikeEmail(s)
  {
    var a, d :| 0 < a < |s| && a + 1 < d < |s| - 1 && s[a] == '@' && s[d] == '.'
      && Plain(s[..a]) && Plain(s[a + 1..d]) && Plain(s[d + 1..]);
    forall k | 0 <= k < |s| ensures !IsWhitespace(s[k]) && (s[k] == '@' ==> k == a) {
      if k < a {
        assert s[k] == s[..a][k];
      } else if a < k < d {
        assert s[k] == s[a + 1..d][k - a - 1];
      } else if d < k {
        assert s[k] == s[d + 1..][k - d - 1];
      }
    }
  }

  lemma ShapedIsRegexMatch(s: string)
    requires ShapedLikeEmail(s)
    ensures EmailRegexMatches(s)
  {
    var a :| 0 < a < |s| && s[a] == '@'
      && (forall k :: 0 <= k < |s| && s[k] == '@' ==> k == a)
      && (exists d :: a + 1 < d < |s| - 1 && s[d] == '.');
    var d :| a + 1 < d < |s| - 1 && s[d] == '.';
    assert Plain(s[..a]);
    assert Plain(s[a + 1..d]);
    assert Plain(s[d + 1..]);
  }

  /** The regular expression accepts exactly the email-shaped strings. */
  lemma EmailRegexIff(s: string)
    ensures EmailRegexMatches(s) <==> ShapedLikeEmail(s)
  {
    if EmailRegexMatches(s) {
      RegexMatchIsShaped(s);
    }
    if ShapedLikeEmail(s) {
      ShapedIsRegexMatch(s);
    }
  }

  /** validateForm: the empty check on the trimmed email, then the regular
      expression on the email as typed. */
  function ValidateForm(email: string): Outcome<EmailError> {
    if Trim(email) == [] then Fail(NoEmail)
    else if !EmailRegexMatches(email) then Fail(BadEmail)
    else Pass
  }

  /** A blank email gets the empty-email error and never the format error;
      a non-blank one passes exactly when it is email-shaped. */
  lemma ValidateFormOutcomes(email: string)
    ensures ValidateForm(email) == Fail(NoEmail) <==> IsBlank(email)
    ensures ValidateForm(email) == Fail(BadEmail) <==> !IsBlank(email) && !ShapedLikeEmail(email)
    ensures ValidateForm(email) == Pass <==> ShapedLikeEmail(email)
  {
    TrimEmptyIffBlank(email);
    EmailRegexIff(email);
    if ShapedLikeEmail(email) {
      assert !IsWhitespace(email[0]);
    }
  }

  /** The same checks as a table, first failure wins. */
  function EmailChecks(email: string): seq<Rule<EmailError>> {
    [ Rule(Trim(email) == [], NoEmail),
      Rule(!EmailRegexMatches(email), BadEmail) ]
  }

  /** validateForm reports the first failing check of the table, and passes
      only when both checks pass. */
  lemma ValidateFormIsFirstFailure(email: string)
    ensures ValidateForm(email)
        == match First(EmailChecks(email))
           case Some(e) => Fail(e)
           case None => Pass
  {
    var checks := EmailChecks(email);
    assert First(checks) == if checks[0].fires then Some(NoEmail) else First(checks[1..]);
    assert First(checks[1..]) == if checks[1].fires then Some(BadEmail) else First(checks[2..]);
    assert checks[2..] == [];
  }

  /** The format check sees the untrimmed email: a leading or trailing space
      makes validation fail. */
  lemma PaddedEmailRejected(email: string)
    requires |email| > 0 && (IsWhitespace(email[0]) || IsWhitespace(email[|email| - 1]))
    ensures ValidateForm(email) != Pass
  {
    ValidateFormOutcomes(email);
  }

  function Submit(checked: Outcome<EmailError>, email: string): Submission<string> {
    match checked
    case Fail(e) => Blocked(ErrorAlert(ErrorMessage(e)))
    case Pass => Requested(email)
  }

  const SuccessAlert := Alert("Success", "Password reset link has been sent to your email!")
  const FailureAlert := ErrorAlert("Failed to send reset link. Please try again.")

  /** Local state of ForgotPasswordScreen. */
  class Screen {
    var email: string
    var loading: bool

    constructor ()
      ensures email == [] && !loading
    {
      email, loading := [], false;
    }

    /** onChangeText of the email box. */
    method ChangeEmail(text: string)
      modifies this
      ensures email == text && loading == old(loading)
    {
      email := text;
    }

    /** handleResetPassword up to the awaited request: forgotPassword is
        called, with the email as typed, only when validation passes. The
        button is disabled while loading. */
    method HandleResetPassword() returns (outcome: Submission<string>)
      requires !loading
      modifies this
      ensures email == old(email)
      ensures outcome == Submit(ValidateForm(email), email)
      ensures loading == outcome.Requested?
    {
      var checked := ValidateForm(email);
      outcome := Submit(checked, email);
      if outcome.Requested? {
        loading := true;
      }
    }

    /** The forgotPassword request settles: the finally block clears loading
        whether it resolved or threw. */
    method FinishReset(succeeded: bool) returns (alert: Alert)
      requires loading
      modifies this
      ensures !loading && email == old(email)
      ensures alert == Settled(succeeded, SuccessAlert, FailureAlert)
    {
      alert := Settled(succeeded, SuccessAlert, FailureAlert);
      loading := false;
    }
  }
}
