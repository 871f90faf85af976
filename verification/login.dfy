/**
 * The login screen (LoginActivity.kt): redirects a signed-in user, checks
 * the email and password, signs in and maps sign-in failures to messages.
 */
module LoginActivity {

  import opened Wrappers
  import opened Text
  import opened Backend
  import opened Screens

  const EmailFormatError := "Enter a valid email address"
  const PasswordRequired := "Password is required"

  const NoAccount := "No account found with this email."
  const AccountDisabled := "This account has been disabled."
  const InvalidUserCredentials := "Invalid user credentials."
  const InvalidEmailFormat := "Invalid email format."
  const WrongPassword := "Incorrect password. Please try again."
  const InvalidCredentialsMessage := "Invalid credentials."
  const LoginFailedPrefix := "Login failed: "
  const LoginSucceeded := "Login successful!"

  /** The error each input layout shows; `None` is a cleared error. */
  datatype FieldErrors = FieldErrors(email: Option<string>, password: Option<string>)
  {
    /** What `validateInputs` returns: neither field has an error. */
    predicate IsValid()
    {
      email.None? && password.None?
    }
  }

  /**
   * `validateInputs` on the already trimmed email and the password as
   * typed. Both fields are checked; the password has no length rule.
   */
  function Validate(email: string, password: string, isEmail: EmailPattern): (r: FieldErrors)
    ensures r.password == (if password == [] then Some(PasswordRequired) else None)
    ensures r.IsValid() <==> email != [] && isEmail(email) && password != []
  {
    FieldErrors(
      EmailError(email, isEmail, EmailFormatError),
      if password == [] then Some(PasswordRequired) else None)
  }

  /** The email's rule chain: the empty check comes before the format check. */
  lemma EmailRule(email: string, password: string, isEmail: EmailPattern)
    ensures var r := Validate(email, password, isEmail);
            && (r.email == Some(EmailRequired) <==> email == [])
            && (r.email == Some(EmailFormatError) <==> email != [] && !isEmail(email))
            && (r.email.None? <==> email != [] && isEmail(email))
  {
  }

  /** The failures this screen tells apart by exception class. */
  predicate Classified(f: AuthFailure)
  {
    f.InvalidUser? || IsInvalidCredentials(f)
  }

  /**
   * `handleFirebaseError`: an invalid-user or invalid-credentials failure
   * is told apart by its error code; only any other failure is looked at
   * for "network", and only such a failure shows the provider's message.
   */
  function AuthFailureMessage(f: AuthFailure): (r: string)
    ensures f.InvalidUser? ==>
              && r in {NoAccount, AccountDisabled, InvalidUserCredentials}
              && (r == NoAccount <==> f.code == "ERROR_USER_NOT_FOUND")
              && (r == AccountDisabled <==> f.code == "ERROR_USER_DISABLED")
    ensures IsInvalidCredentials(f) ==>
              && r in {InvalidEmailFormat, WrongPassword, InvalidCredentialsMessage}
              && (r == InvalidEmailFormat <==> f.code == "ERROR_INVALID_EMAIL")
              && (r == WrongPassword <==> f.code == "ERROR_WRONG_PASSWORD")
    ensures r == NetworkError <==> !Classified(f) && Mentions(f.message, "network")
    ensures !Classified(f) && !Mentions(f.message, "network") ==>
              r == LoginFailedPrefix + Interpolate(f.message)
  {
    if f.InvalidUser? then
      if f.code == "ERROR_USER_NOT_FOUND" then NoAccount
      else if f.code == "ERROR_USER_DISABLED" then AccountDisabled
      else InvalidUserCredentials
    else if IsInvalidCredentials(f) then
      if f.code == "ERROR_INVALID_EMAIL" then InvalidEmailFormat
      else if f.code == "ERROR_WRONG_PASSWORD" then WrongPassword
      else InvalidCredentialsMessage
    else if Mentions(f.message, "network") then
      NetworkError
    else
      var r := LoginFailedPrefix + Interpolate(f.message);
      assert r[0] == 'L' && NetworkError[0] == 'N';
      r
  }

  class Screen {
    const isEmail: EmailPattern

    // the error of each input layout
    var emailError: Option<string>
    var passwordError: Option<string>

    // the progress bar, and whether each control is enabled
    var loading: bool
    var loginEnabled: bool
    var emailEnabled: bool
    var passwordEnabled: bool
    var createAccountEnabled: bool
    var forgotPasswordEnabled: bool

    /** Whether the click listeners are installed. */
    var listening: bool
    /** The latest message shown to the user. */
    var message: Option<string>
    var navigation: Navigation
    /** Whether a sign-in call is outstanding. */
    var signingIn: bool
    /** The backend calls issued so far, oldest first. */
    var requests: seq<Request>

    function ShownErrors(): FieldErrors
      reads this
    {
      FieldErrors(emailError, passwordError)
    }

    /** Every control is enabled exactly when the progress bar is hidden. */
    ghost predicate ControlsFollowLoading()
      reads this
    {
      && loginEnabled == !loading && emailEnabled == !loading && passwordEnabled == !loading
      && createAccountEnabled == !loading && forgotPasswordEnabled == !loading
    }

    /** The screen shows progress exactly while a sign-in is outstanding. */
    ghost predicate Valid()
      reads this
    {
      ControlsFollowLoading() && (loading <==> signingIn)
    }

    /**
     * `onCreate`: a present session sends the user on to the main screen,
     * and the screen still installs its listeners, because `onCreate`
     * carries on after the session check.
     */
    constructor (session: Option<string>, isEmail: EmailPattern)
      ensures Valid() && this.isEmail == isEmail
      ensures navigation == (if session.Some? then ToMain else Stay)
      ensures listening
      ensures ShownErrors().IsValid() && !loading && message == None && requests == []
    {
      this.isEmail := isEmail;
      emailError, passwordError := None, None;
      loading, signingIn := false, false;
      loginEnabled, emailEnabled, passwordEnabled := true, true, true;
      createAccountEnabled, forgotPasswordEnabled := true, true;
      message, navigation, requests := None, Stay, [];
      listening := false;
      new;
      CheckUserSession(session);
      listening := true;
    }

    /** `checkUserSession`: a signed-in user goes straight to the main screen. */
    method CheckUserSession(session: Option<string>)
      modifies this`navigation
      ensures navigation == if session.Some? then ToMain else old(navigation)
    {
      if session.Some? {
        navigation := ToMain;
      }
    }

    /** `showLoading`: the progress bar and every control's `isEnabled`. */
    method ShowLoading(isLoading: bool)
      modifies this`loading, this`loginEnabled, this`emailEnabled, this`passwordEnabled,
               this`createAccountEnabled, this`forgotPasswordEnabled
      ensures loading == isLoading && ControlsFollowLoading()
    {
      loading := isLoading;
      loginEnabled := !isLoading;
      emailEnabled := !isLoading;
      passwordEnabled := !isLoading;
      createAccountEnabled := !isLoading;
      forgotPasswordEnabled := !isLoading;
    }

    /** `validateInputs`: sets or clears both errors, then reports whether both are clear. */
    method ValidateInputs(email: string, password: string) returns (isValid: bool)
      modifies this`emailError, this`passwordError
      ensures ShownErrors() == Validate(email, password, isEmail)
      ensures isValid == ShownErrors().IsValid()
    {
      isValid := true;

      if email == [] {
        emailError := Some(EmailRequired);
        isValid := false;
      } else if !isEmail(email) {
        emailError := Some(EmailFormatError);
        isValid := false;
      } else {
        emailError := None;
      }

      if password == [] {
        passwordError := Some(PasswordRequired);
        isValid := false;
      } else {
        passwordError := None;
      }
    }

    /**
     * The login button: the email is trimmed, the password is not; only a
     * valid pair starts a sign-in. A disabled button delivers no click.
     */
    method LoginClicked(emailText: string, passwordText: string)
      requires Valid()
      modifies this
      ensures Valid()
      ensures !old(loginEnabled) ==> unchanged(this)
      ensures old(loginEnabled) ==> ShownErrors() == Validate(Trim(emailText), passwordText, isEmail)
      ensures old(loginEnabled) && ShownErrors().IsValid() ==>
                && loading && signingIn
                && requests == old(requests) + [SignIn(Trim(emailText), passwordText)]
      ensures old(loginEnabled) && !ShownErrors().IsValid() ==>
                loading == old(loading) && signingIn == old(signingIn) && requests == old(requests)
      ensures message == old(message) && navigation == old(navigation) && listening == old(listening)
    {
      if !loginEnabled {
        return;
      }
      var email := Trim(emailText);
      var password := passwordText;
      var ok := ValidateInputs(email, password);
      if ok {
        LoginWithFirebase(email, password);
      }
    }

    /** `loginWithFirebase`: show progress and ask for a sign-in. */
    method LoginWithFirebase(email: string, password: string)
      modifies this`loading, this`loginEnabled, this`emailEnabled, this`passwordEnabled,
               this`createAccountEnabled, this`forgotPasswordEnabled, this`signingIn,
               this`requests
      ensures loading && signingIn && ControlsFollowLoading()
      ensures requests == old(requests) + [SignIn(email, password)]
    {
      ShowLoading(true);
      requests := requests + [SignIn(email, password)];
      signingIn := true;
    }

    /** Sign-in succeeded: progress off, go to the main screen. */
    method OnSignInSucceeded()
      requires Valid() && signingIn
      modifies this
      ensures Valid()
      ensures !loading && !signingIn && requests == old(requests)
      ensures message == Some(LoginSucceeded) && navigation == ToMain
      ensures ShownErrors() == old(ShownErrors()) && listening == old(listening)
    {
      ShowLoading(false);
      signingIn := false;
      message := Some(LoginSucceeded);
      navigation := ToMain;
    }

    /** Sign-in failed: progress off, the mapped message, and the user stays. */
    method OnSignInFailed(failure: AuthFailure)
      requires Valid() && signingIn
      modifies this
      ensures Valid()
      ensures !loading && !signingIn && requests == old(requests)
      ensures message == Some(AuthFailureMessage(failure)) && navigation == old(navigation)
      ensures ShownErrors() == old(ShownErrors()) && listening == old(listening)
    {
      ShowLoading(false);
      signingIn := false;
      message := Some(AuthFailureMessage(failure));
    }

    /** "Create new account": open the signup screen on top of this one. */
    method CreateAccountClicked()
      requires Valid()
      modifies this`navigation
      ensures Valid()
      ensures navigation == if old(createAccountEnabled) then ToSignup else old(navigation)
    {
      if createAccountEnabled {
        navigation := ToSignup;
      }
    }

    /** "Forgot password?": open the reset screen on top of this one. */
    method ForgotPasswordClicked()
      requires Valid()
      modifies this`navigation
      ensures Valid()
      ensures navigation == if old(forgotPasswordEnabled) then ToForgotPassword else old(navigation)
    {
      if forgotPasswordEnabled {
        navigation := ToForgotPassword;
      }
    }
  }
}
