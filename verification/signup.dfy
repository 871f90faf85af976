/**
 * The signup screen (SignupActivity.kt): validates four fields, creates
 * the account, then writes the profile record under `users/{uid}`.
 */
module SignupActivity {

  import opened Wrappers
  import opened Text
  import opened UserModel
  import opened Backend
  import opened Screens

  const FullNameRequired := "Full name is required"
  const EmailFormatError := "Enter a valid email"
  const PasswordRequired := "Password is required"
  const PasswordTooShort := "Password must be at least 6 characters"
  const ConfirmRequired := "Please confirm your password"
  const PasswordsDiffer := "Passwords do not match"
  /** Counted in UTF-16 code units, like Kotlin's `String.length`. */
  const MinPasswordLength := 6

  const WeakPasswordMessage := "Password is too weak. Use at least 6 characters."
  const InvalidEmailMessage := "Invalid email format."
  const EmailTakenMessage := "This email is already registered. Please login."
  const SignupFailedPrefix := "Signup failed: "

  const AccountCreated := "Account created successfully!"
  const UserNotCreated := "Failed to create user"
  const ProfileNotSaved := "Account created but failed to save "
  const ProfilePermissionWarning := ProfileNotSaved + "profile due to database permissions.\n"
    + "Please deploy the Realtime Database rules and ensure authenticated users can write to /users/{uid}."
  const ProfileSaveFailedPrefix := ProfileNotSaved + "data: "

  /** The error each input layout shows; `None` is a cleared error. */
  datatype FieldErrors = FieldErrors(
    fullName: Option<string>,
    email: Option<string>,
    password: Option<string>,
    confirmPassword: Option<string>)
  {
    /** What `validateInputs` returns: no field has an error. */
    predicate IsValid()
    {
      fullName.None? && email.None? && password.None? && confirmPassword.None?
    }
  }

  function FullNameError(fullName: string): Option<string>
  {
    if fullName == [] then Some(FullNameRequired) else None
  }

  function PasswordError(password: string): Option<string>
  {
    if password == [] then Some(PasswordRequired)
    else if Utf16Length(password) < MinPasswordLength then Some(PasswordTooShort)
    else None
  }

  function ConfirmPasswordError(password: string, confirmPassword: string): Option<string>
  {
    if confirmPassword == [] then Some(ConfirmRequired)
    else if password != confirmPassword then Some(PasswordsDiffer)
    else None
  }

  /**
   * `validateInputs` as a function of the four text fields as typed: the
   * name and email are trimmed, the two passwords are not. Every field is
   * checked, whatever the others give.
   */
  function Validate(fullNameText: string, emailText: string, passwordText: string,
                    confirmText: string, isEmail: EmailPattern): (r: FieldErrors)
    ensures r.fullName == (if IsBlank(fullNameText) then Some(FullNameRequired) else None)
    ensures r.IsValid() <==>
              && !IsBlank(fullNameText)
              && !IsBlank(emailText) && isEmail(Trim(emailText))
              && Utf16Length(passwordText) >= MinPasswordLength
              && confirmText == passwordText
  {
    FieldErrors(
      FullNameError(Trim(fullNameText)),
      EmailError(Trim(emailText), isEmail, EmailFormatError),
      PasswordError(passwordText),
      ConfirmPasswordError(passwordText, confirmText))
  }

  /**
   * Each field's rule chain: the empty check comes first, then the format,
   * length or match check; the email is judged after trimming, the
   * passwords as typed.
   */
  lemma FieldRules(fullNameText: string, emailText: string, passwordText: string,
                   confirmText: string, isEmail: EmailPattern)
    ensures var r := Validate(fullNameText, emailText, passwordText, confirmText, isEmail);
            && (r.email == Some(EmailRequired) <==> IsBlank(emailText))
            && (r.email == Some(EmailFormatError) <==> !IsBlank(emailText) && !isEmail(Trim(emailText)))
            && (r.email.None? <==> !IsBlank(emailText) && isEmail(Trim(emailText)))
    ensures var r := Validate(fullNameText, emailText, passwordText, confirmText, isEmail);
            && (r.password == Some(PasswordRequired) <==> passwordText == [])
            && (r.password == Some(PasswordTooShort) <==> 0 < Utf16Length(passwordText) < MinPasswordLength)
            && (r.password.None? <==> Utf16Length(passwordText) >= MinPasswordLength)
    ensures var r := Validate(fullNameText, emailText, passwordText, confirmText, isEmail);
            && (r.confirmPassword == Some(ConfirmRequired) <==> confirmText == [])
            && (r.confirmPassword == Some(PasswordsDiffer) <==> confirmText != [] && confirmText != passwordText)
            && (r.confirmPassword.None? <==> confirmText != [] && confirmText == passwordText)
  {
  }

  /** Whitespace around the name and the email never changes the verdict. */
  lemma PaddingIgnoredForNameAndEmail(pre: string, post: string, fullNameText: string,
                                      emailText: string, passwordText: string,
                                      confirmText: string, isEmail: EmailPattern)
    requires IsBlank(pre) && IsBlank(post)
    ensures Validate(pre + fullNameText + post, pre + emailText + post, passwordText, confirmText, isEmail)
         == Validate(fullNameText, emailText, passwordText, confirmText, isEmail)
  {
    TrimIgnoresPadding(pre, fullNameText, post);
    TrimIgnoresPadding(pre, emailText, post);
  }

  /** Spaces typed into the passwords count: toward the length and toward equality. */
  lemma SpacesCountInPasswords(isEmail: EmailPattern)
    ensures Validate("Jane Doe", "jane@example.com", "12345", "12345", isEmail).password
         == Some(PasswordTooShort)
    ensures Validate("Jane Doe", "jane@example.com", " 12345", " 12345", isEmail).password.None?
    ensures Validate("Jane Doe", "jane@example.com", "abc123", "abc123 ", isEmail).confirmPassword
         == Some(PasswordsDiffer)
  {
  }

  /**
   * The length rule counts UTF-16 code units, as Kotlin's `length` does:
   * three emoji are six units and pass, two are four units and do not.
   */
  lemma LengthCountsUtf16Units(isEmail: EmailPattern)
    ensures Validate("Jane Doe", "jane@example.com", "\U{1F600}\U{1F600}\U{1F600}",
                     "\U{1F600}\U{1F600}\U{1F600}", isEmail).password.None?
    ensures Validate("Jane Doe", "jane@example.com", "\U{1F600}\U{1F600}",
                     "\U{1F600}\U{1F600}", isEmail).password == Some(PasswordTooShort)
  {
  }

  /** The account-creation failures `handleFirebaseError` recognises by exception class. */
  predicate Classified(f: AuthFailure)
  {
    f.WeakPassword? || IsInvalidCredentials(f) || f.UserCollision?
  }

  /**
   * `handleFirebaseError`: the exception class decides first; only an
   * unclassified failure is looked at for "network", and only such a
   * failure shows the provider's own message.
   */
  function AuthFailureMessage(f: AuthFailure): (r: string)
    ensures f.WeakPassword? ==> r == WeakPasswordMessage
    ensures f.InvalidCredentials? ==> r == InvalidEmailMessage
    ensures f.UserCollision? ==> r == EmailTakenMessage
    ensures r == NetworkError <==> !Classified(f) && Mentions(f.message, "network")
    ensures !Classified(f) && !Mentions(f.message, "network") ==>
              r == SignupFailedPrefix + Interpolate(f.message)
  {
    match f
    case WeakPassword(_, _) => WeakPasswordMessage
    case InvalidCredentials(_, _) => InvalidEmailMessage
    case UserCollision(_, _) => EmailTakenMessage
    case _ =>
      if Mentions(f.message, "network") then NetworkError
      else
        var r := SignupFailedPrefix + Interpolate(f.message);
        assert r[0] == 'S' && NetworkError[0] == 'N';
        r
  }

  /**
   * The warning after the account exists but its profile write failed:
   * the permission wording exactly when the error message mentions
   * "permission" or "PERMISSION_DENIED" (ignoring case).
   */
  function ProfileWriteFailureMessage(message: Option<string>): (r: string)
    ensures ProfileNotSaved <= r
    ensures r == ProfilePermissionWarning <==> Mentions(message, "permission")
    ensures !Mentions(message, "permission") ==> r == ProfileSaveFailedPrefix + Interpolate(message)
  {
    MentionsOfPermissionDenied(message);
    if Mentions(message, "permission") || Mentions(message, "PERMISSION_DENIED") then
      ProfilePermissionWarning
    else
      var r := ProfileSaveFailedPrefix + Interpolate(message);
      assert r[|ProfileNotSaved|] != ProfilePermissionWarning[|ProfileNotSaved|];
      r
  }

  /** What the screen's outstanding backend call captured. */
  datatype Pending =
    | Idle
    | AwaitingAccount(fullName: string, email: string)
    | AwaitingProfileWrite(record: User)

  class Screen {
    const isEmail: EmailPattern

    // the error of each input layout
    var fullNameError: Option<string>
    var emailError: Option<string>
    var passwordError: Option<string>
    var confirmPasswordError: Option<string>

    // the progress bar, and whether each control is enabled
    var loading: bool
    var signupEnabled: bool
    var fullNameEnabled: bool
    var emailEnabled: bool
    var passwordEnabled: bool
    var confirmPasswordEnabled: bool
    var loginLinkEnabled: bool

    /** The latest message shown to the user. */
    var message: Option<string>
    var navigation: Navigation
    var pending: Pending
    /** The backend calls issued so far, oldest first. */
    var requests: seq<Request>

    function ShownErrors(): FieldErrors
      reads this
    {
      FieldErrors(fullNameError, emailError, passwordError, confirmPasswordError)
    }

    /** Every control is enabled exactly when the progress bar is hidden. */
    ghost predicate ControlsFollowLoading()
      reads this
    {
      && signupEnabled == !loading && fullNameEnabled == !loading && emailEnabled == !loading
      && passwordEnabled == !loading && confirmPasswordEnabled == !loading
      && loginLinkEnabled == !loading
    }

    /** The screen shows progress exactly while a backend call is outstanding. */
    ghost predicate Valid()
      reads this
    {
      ControlsFollowLoading() && (loading <==> !pending.Idle?)
    }

    /** `onCreate`: an empty form, nothing outstanding. */
    constructor (isEmail: EmailPattern)
      ensures Valid() && this.isEmail == isEmail
      ensures ShownErrors().IsValid() && !loading
      ensures message == None && navigation == Stay && pending == Idle && requests == []
    {
      this.isEmail := isEmail;
      fullNameError, emailError, passwordError, confirmPasswordError := None, None, None, None;
      loading := false;
      signupEnabled, fullNameEnabled, emailEnabled := true, true, true;
      passwordEnabled, confirmPasswordEnabled, loginLinkEnabled := true, true, true;
      message, navigation, pending, requests := None, Stay, Idle, [];
    }

    /** `showLoading`: the progress bar and every control's `isEnabled`. */
    method ShowLoading(isLoading: bool)
      modifies this`loading, this`signupEnabled, this`fullNameEnabled, this`emailEnabled,
               this`passwordEnabled, this`confirmPasswordEnabled, this`loginLinkEnabled
      ensures loading == isLoading && ControlsFollowLoading()
    {
      loading := isLoading;
      signupEnabled := !isLoading;
      fullNameEnabled := !isLoading;
      emailEnabled := !isLoading;
      passwordEnabled := !isLoading;
      confirmPasswordEnabled := !isLoading;
      loginLinkEnabled := !isLoading;
    }

    /** `validateInputs`: sets or clears every field's error, then reports whether all are clear. */
    method ValidateInputs(fullNameText: string, emailText: string, passwordText: string,
                          confirmText: string) returns (isValid: bool)
      modifies this`fullNameError, this`emailError, this`passwordError, this`confirmPasswordError
      ensures ShownErrors() == Validate(fullNameText, emailText, passwordText, confirmText, isEmail)
      ensures isValid == ShownErrors().IsValid()
    {
      isValid := true;
      var fullName := Trim(fullNameText);
      var email := Trim(emailText);
      var password := passwordText;
      var confirmPassword := confirmText;

      if fullName == [] {
        fullNameError := Some(FullNameRequired);
        isValid := false;
      } else {
        fullNameError := None;
      }

      if email == [] {
        emailError := Some(EmailRequired);
        isValid := false;
      } else if !isEmail(email) {
        emailError := Some(EmailFormatError);
        isValid := false;
      } else {
        emailError := None;
      }

      if password == [] {
        passwordError := Some(PasswordRequired);
        isValid := false;
      } else if Utf16Length(password) < MinPasswordLength {
        passwordError := Some(PasswordTooShort);
        isValid := false;
      } else {
        passwordError := None;
      }

      if confirmPassword == [] {
        confirmPasswordError := Some(ConfirmRequired);
        isValid := false;
      } else if password != confirmPassword {
        confirmPasswordError := Some(PasswordsDiffer);
        isValid := false;
      } else {
        confirmPasswordError := None;
      }
    }

    /**
     * The sign-up button: validate, and only a valid form starts account
     * creation with the trimmed email and the untrimmed password. A
     * disabled button delivers no click.
     */
    method SignUpClicked(fullNameText: string, emailText: string, passwordText: string,
                         confirmText: string)
      requires Valid()
      modifies this
      ensures Valid()
      ensures !old(signupEnabled) ==> unchanged(this)
      ensures old(signupEnabled) ==>
                ShownErrors() == Validate(fullNameText, emailText, passwordText, confirmText, isEmail)
      ensures old(signupEnabled) && ShownErrors().IsValid() ==>
                && loading
                && pending == AwaitingAccount(Trim(fullNameText), Trim(emailText))
                && requests == old(requests) + [CreateAccount(Trim(emailText), passwordText)]
      ensures old(signupEnabled) && !ShownErrors().IsValid() ==>
                loading == old(loading) && pending == old(pending) && requests == old(requests)
      ensures message == old(message) && navigation == old(navigation)
    {
      if !signupEnabled {
        return;
      }
      var ok := ValidateInputs(fullNameText, emailText, passwordText, confirmText);
      if ok {
        CreateUserWithFirebase(Trim(fullNameText), Trim(emailText), passwordText);
      }
    }

    /** `createUserWithFirebase`: show progress and ask for the account. */
    method CreateUserWithFirebase(fullName: string, email: string, password: string)
      modifies this`loading, this`signupEnabled, this`fullNameEnabled, this`emailEnabled,
               this`passwordEnabled, this`confirmPasswordEnabled, this`loginLinkEnabled,
               this`requests, this`pending
      ensures loading && ControlsFollowLoading()
      ensures pending == AwaitingAccount(fullName, email)
      ensures requests == old(requests) + [CreateAccount(email, password)]
    {
      ShowLoading(true);
      requests := requests + [CreateAccount(email, password)];
      pending := AwaitingAccount(fullName, email);
    }

    /**
     * Account creation succeeded; `createdUid` is `authResult.user?.uid`.
     * A missing or empty uid ends the flow with an error and no profile
     * write; otherwise the profile is written and progress stays on.
     */
    method OnAccountCreated(createdUid: Option<string>, now: Long)
      requires Valid() && pending.AwaitingAccount?
      modifies this
      ensures Valid()
      ensures navigation == old(navigation)
      ensures ShownErrors() == old(ShownErrors())
      ensures var uid := if createdUid.Some? then createdUid.value else "";
              if uid == [] then
                && !loading && pending == Idle && requests == old(requests)
                && message == Some(UserNotCreated)
              else
                var record := User(uid, old(pending.fullName), old(pending.email), now);
                && loading && pending == AwaitingProfileWrite(record)
                && requests == old(requests) + [WriteProfile(ProfilePath(uid), record)]
                && message == old(message)
    {
      var uid := if createdUid.Some? then createdUid.value else "";
      if uid != [] {
        SaveUserToDatabase(uid, pending.fullName, pending.email, now);
      } else {
        ShowLoading(false);
        pending := Idle;
        message := Some(UserNotCreated);
      }
    }

    /** Account creation failed: progress off, the mapped message, no navigation. */
    method OnAccountCreationFailed(failure: AuthFailure)
      requires Valid() && pending.AwaitingAccount?
      modifies this
      ensures Valid()
      ensures !loading && pending == Idle && requests == old(requests)
      ensures message == Some(AuthFailureMessage(failure))
      ensures navigation == old(navigation) && ShownErrors() == old(ShownErrors())
    {
      ShowLoading(false);
      pending := Idle;
      message := Some(AuthFailureMessage(failure));
    }

    /** `saveUserToDatabase`: the record built from the new uid, the form's name and email, and the time. */
    method SaveUserToDatabase(uid: string, name: string, email: string, now: Long)
      modifies this`requests, this`pending
      ensures pending == AwaitingProfileWrite(User(uid, name, email, now))
      ensures requests == old(requests) + [WriteProfile(ProfilePath(uid), User(uid, name, email, now))]
    {
      var user := User(uid, name, email, now);
      requests := requests + [WriteProfile(ProfilePath(uid), user)];
      pending := AwaitingProfileWrite(user);
    }

    /** The profile write succeeded: progress off, go to the main screen. */
    method OnProfileSaved()
      requires Valid() && pending.AwaitingProfileWrite?
      modifies this
      ensures Valid()
      ensures !loading && pending == Idle && requests == old(requests)
      ensures message == Some(AccountCreated) && navigation == ToMain
      ensures ShownErrors() == old(ShownErrors())
    {
      ShowLoading(false);
      pending := Idle;
      message := Some(AccountCreated);
      navigation := ToMain;
    }

    /**
     * The profile write failed: the account exists, so the screen warns
     * and still goes to the main screen.
     */
    method OnProfileSaveFailed(errorMessage: Option<string>)
      requires Valid() && pending.AwaitingProfileWrite?
      modifies this
      ensures Valid()
      ensures !loading && pending == Idle && requests == old(requests)
      ensures message == Some(ProfileWriteFailureMessage(errorMessage)) && navigation == ToMain
      ensures ShownErrors() == old(ShownErrors())
    {
      ShowLoading(false);
      pending := Idle;
      message := Some(ProfileWriteFailureMessage(errorMessage));
      navigation := ToMain;
    }

    /** "Already have an account": back to the login screen. */
    method AlreadyHaveAccountClicked()
      requires Valid()
      modifies this`navigation
      ensures Valid()
      ensures navigation == if old(loginLinkEnabled) then Back else old(navigation)
    {
      if loginLinkEnabled {
        navigation := Back;
      }
    }
  }
}
