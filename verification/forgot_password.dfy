/**
 * The password-reset screen (ForgotPasswordActivity.kt): checks one email
 * field, asks for a reset email and maps failures without revealing
 * whether an account exists.
 */
module ForgotPasswordActivity {

  import opened Wrappers
  import opened Text
  import opened Backend
  import opened Screens

  const EmailFormatError := "Enter a valid email address"
  // each joined from two literals so that the verifier can read their single characters
  const ResetSent := "Password reset email sent. " + "Please check your inbox."
  const IfRegistered := "If this email is registered, " + "you will receive a password reset link."
  const ResetFailed := "Failed to send reset email. " + "Please try again."

  /**
   * `validateEmail` on the trimmed email: `None` exactly when the email
   * is accepted; the empty check comes first.
   */
  function ValidateEmail(email: string, isEmail: EmailPattern): (r: Option<string>)
    ensures r.None? <==> email != [] && isEmail(email)
    ensures r == Some(EmailRequired) <==> email == []
    ensures r == Some(EmailFormatError) <==> email != [] && !isEmail(email)
  {
    EmailError(email, isEmail, EmailFormatError)
  }

  /**
   * `handleFirebaseError`: an invalid-user failure, whatever its code,
   * gets the neutral "if registered" wording; any other failure gets the
   * network message or a fixed failure message. The provider's own
   * message text is never shown.
   */
  function AuthFailureMessage(f: AuthFailure): (r: string)
    ensures r in {IfRegistered, NetworkError, ResetFailed}
    ensures r == IfRegistered <==> f.InvalidUser?
    ensures r == NetworkError <==> !f.InvalidUser? && Mentions(f.message, "network")
  {
    if f.InvalidUser? then IfRegistered
    else if Mentions(f.message, "network") then NetworkError
    else ResetFailed
  }

  /**
   * The message never says that the account is missing, and it does not
   * depend on the failure's code or text beyond the "network" test.
   */
  lemma FailureMessageHidesAccount(f: AuthFailure, g: AuthFailure)
    requires f.InvalidUser? == g.InvalidUser?
    requires Mentions(f.message, "network") == Mentions(g.message, "network")
    ensures AuthFailureMessage(f) == AuthFailureMessage(g)
    ensures AuthFailureMessage(f) != "No account found with this email."
  {
    assert IfRegistered[0] == 'I' && NetworkError[0] == 'N' && ResetFailed[0] == 'F';
  }

  class Screen {
    const isEmail: EmailPattern

    var emailError: Option<string>

    // the progress bar, and whether each control is enabled
    var loading: bool
    var sendEnabled: bool
    var emailEnabled: bool
    var backLinkEnabled: bool

    /** The latest message shown to the user. */
    var message: Option<string>
    var navigation: Navigation
    /** Whether a reset request is outstanding. */
    var sending: bool
    /** The backend calls issued so far, oldest first. */
    var requests: seq<Request>

    /** Every control is enabled exactly when the progress bar is hidden. */
    ghost predicate ControlsFollowLoading()
      reads this
    {
      sendEnabled == !loading && emailEnabled == !loading && backLinkEnabled == !loading
    }

    /** The screen shows progress exactly while a reset request is outstanding. */
    ghost predicate Valid()
      reads this
    {
      ControlsFollowLoading() && (loading <==> sending)
    }

    /** `onCreate`: an empty form, nothing outstanding. */
    constructor (isEmail: EmailPattern)
      ensures Valid() && this.isEmail == isEmail
      ensures emailError == None && !loading && message == None
      ensures navigation == Stay && requests == []
    {
      this.isEmail := isEmail;
      emailError := None;
      loading, sending := false, false;
      sendEnabled, emailEnabled, backLinkEnabled := true, true, true;
      message, navigation, requests := None, Stay, [];
    }

    /** `showLoading`: the progress bar and the three controls' `isEnabled`. */
    method ShowLoading(isLoading: bool)
      modifies this`loading, this`sendEnabled, this`emailEnabled, this`backLinkEnabled
      ensures loading == isLoading && ControlsFollowLoading()
    {
      loading := isLoading;
      sendEnabled := !isLoading;
      emailEnabled := !isLoading;
      backLinkEnabled := !isLoading;
    }

    /** `validateEmail`: sets or clears the email error and says whether it is clear. */
    method ValidateEmailField(email: string) returns (ok: bool)
      modifies this`emailError
      ensures emailError == ValidateEmail(email, isEmail)
      ensures ok <==> emailError.None?
    {
      if email == [] {
        emailError := Some(EmailRequired);
        ok := false;
      } else if !isEmail(email) {
        emailError := Some(EmailFormatError);
        ok := false;
      } else {
        emailError := None;
        ok := true;
      }
    }

    /**
     * The send button: only an accepted (trimmed) email starts a reset
     * request. A disabled button delivers no click.
     */
    method SendResetClicked(emailText: string)
      requires Valid()
      modifies this
      ensures Valid()
      ensures !old(sendEnabled) ==> unchanged(this)
      ensures old(sendEnabled) ==> emailError == ValidateEmail(Trim(emailText), isEmail)
      ensures old(sendEnabled) && emailError.None? ==>
                loading && sending && requests == old(requests) + [SendPasswordReset(Trim(emailText))]
      ensures old(sendEnabled) && emailError.Some? ==>
                loading == old(loading) && sending == old(sending) && requests == old(requests)
      ensures message == old(message) && navigation == old(navigation)
    {
      if !sendEnabled {
        return;
      }
      var email := Trim(emailText);
      var ok := ValidateEmailField(email);
      if ok {
        SendPasswordResetEmail(email);
      }
    }

    /** `sendPasswordResetEmail`: show progress and ask for the reset email. */
    method SendPasswordResetEmail(email: string)
      modifies this`loading, this`sendEnabled, this`emailEnabled, this`backLinkEnabled,
               this`sending, this`requests
      ensures loading && sending && ControlsFollowLoading()
      ensures requests == old(requests) + [SendPasswordReset(email)]
    {
      ShowLoading(true);
      requests := requests + [SendPasswordReset(email)];
      sending := true;
    }

    /** The reset email was sent: progress off, confirm, and return to the login screen. */
    method OnResetSent()
      requires Valid() && sending
      modifies this
      ensures Valid()
      ensures !loading && !sending && requests == old(requests) && emailError == old(emailError)
      ensures message == Some(ResetSent) && navigation == Back
    {
      ShowLoading(false);
      sending := false;
      message := Some(ResetSent);
      navigation := Back;
    }

    /** The reset request failed: progress off, the mapped message, and the user stays. */
    method OnResetFailed(failure: AuthFailure)
      requires Valid() && sending
      modifies this
      ensures Valid()
      ensures !loading && !sending && requests == old(requests) && emailError == old(emailError)
      ensures message == Some(AuthFailureMessage(failure)) && navigation == old(navigation)
    {
      ShowLoading(false);
      sending := false;
      message := Some(AuthFailureMessage(failure));
    }

    /** "Back to login": return to the login screen. */
    method BackToLoginClicked()
      requires Valid()
      modifies this`navigation
      ensures Valid()
      ensures navigation == if old(backLinkEnabled) then Back else old(navigation)
    {
      if backLinkEnabled {
        navigation := Back;
      }
    }
  }

  /**
   * The message after a reset request for an unknown account (an
   * invalid-user failure) is not the one a sent email shows; with
   * `OnResetSent` and `OnResetFailed` also navigating differently, the
   * wording is neutral but the outcome still tells the two cases apart.
   */
  lemma UnknownAccountOutcomeDiffersFromSent(code: string, text: Option<string>)
    ensures AuthFailureMessage(InvalidUser(code, text)) != ResetSent
  {
    assert IfRegistered[0] == 'I' && ResetSent[0] == 'P';
  }
}
