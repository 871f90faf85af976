# AuthFlowApp in Dafny

A model of the decision logic of AuthFlowApp, an Android client for
email/password sign-up, login, password reset and a one-record profile
screen, with Firebase Authentication and the Firebase Realtime Database as
its backends. What the app decides for itself is small: which form fields
are in error, which message a backend failure becomes, what the profile
record looks like, and how each screen's progress state, navigation and
backend calls follow from user events and backend callbacks.

Modules, one per source file or shared vocabulary:

- `Text` (text.dfy): Kotlin's `trim()`, `isWhitespace()`,
  `String.length` in UTF-16 code units (`Utf16Length`),
  `contains(…, ignoreCase = true)` (through an `indexOf` search) and the
  rendering of a null string in a template.
- `UserModel` (user.dfy): the `User` record, its no-argument constructor,
  `toMap()` and the inverse `FromMap`.
- `Backend` (backend.dfy): authentication failures as a closed datatype
  (one variant per Firebase exception class, carrying the error code and
  the nullable message), database errors, the calls a screen issues
  (`Request`), and the profile path `users/{uid}`.
- `Screens` (screens.dfy): navigation targets, the email rule every screen
  shares, and the shared messages.
- `SignupActivity`, `LoginActivity`, `ForgotPasswordActivity`,
  `MainActivity`: for each screen, the validation and message functions,
  and a class `Screen` whose fields are the screen's view state (error
  slots, progress bar, each control's `enabled`), the latest message, the
  navigation target, what the outstanding callback captured, and the
  backend calls issued so far. Each event (`onCreate`, a click, a success
  or failure callback) is a method. `Valid()` states that every control
  is enabled exactly when no progress is shown, and that progress is shown
  exactly while a backend call is outstanding.

The email pattern (`Patterns.EMAIL_ADDRESS`) is a parameter
`isEmail: string -> bool`, so every property holds for any pattern. Backend
results, the current session and the current time are inputs to the
callback and constructor methods.

One fact about the Firebase SDK is built into the failure datatype:
`FirebaseAuthWeakPasswordException` is a subclass of
`FirebaseAuthInvalidCredentialsException` (`Backend.IsInvalidCredentials`),
so the login screen's invalid-credentials branch also catches a weak-password
failure, and the signup screen tests the weak-password class first.

The password-reset screen's comment says it does not reveal whether an
email is registered. Its invalid-user message is neutral, but the code
still treats that failure differently from a sent email: a different
message, and the user stays on the screen instead of returning to login
(`ForgotPasswordActivity.UnknownAccountOutcomeDiffersFromSent`,
`OnResetSent`, `OnResetFailed`). The model follows the code.

## Model

| member | source | states |
|---|---|---|
| `Text.TrimStartSpec` | app/src/main/java/com/example/authflowapp/SignupActivity.kt:69-70 | the start of `trim()`: it keeps the longest suffix that does not begin with whitespace, and everything dropped is whitespace |
| `Text.TrimEndSpec` | app/src/main/java/com/example/authflowapp/SignupActivity.kt:69-70 | the end of `trim()`: it keeps the longest prefix that does not end with whitespace, and everything dropped is whitespace |
| `Text.Trim` | app/src/main/java/com/example/authflowapp/SignupActivity.kt:69-70 | `trim()` gives the empty string exactly for blank input, and otherwise a string that neither starts nor ends with whitespace |
| `Text.TrimKeepsMiddle` | app/src/main/java/com/example/authflowapp/SignupActivity.kt:69-70 | `trim()` returns a contiguous slice of its input, and everything before and after that slice is whitespace |
| `Text.TrimIgnoresPadding` | app/src/main/java/com/example/authflowapp/LoginActivity.kt:86 | whitespace added around a string never changes what `trim()` returns |
| `Text.Utf16Length` | app/src/main/java/com/example/authflowapp/SignupActivity.kt:97 | Kotlin's `length` counts UTF-16 code units: at least one and at most two per character |
| `Text.Utf16LengthOfBmp` | app/src/main/java/com/example/authflowapp/SignupActivity.kt:97 | the UTF-16 length equals the character count exactly when no character lies outside the Basic Multilingual Plane |
| `Text.IndexOfIgnoreCase` | app/src/main/java/com/example/authflowapp/LoginActivity.kt:189 | the case-insensitive search returns the first match at or after the start index, or -1 exactly when there is none |
| `Text.PermissionDeniedMentionsPermission` | app/src/main/java/com/example/authflowapp/SignupActivity.kt:181-182 | any text containing "PERMISSION_DENIED" (ignoring case) also contains "permission", so the second test adds nothing |
| `Backend.MentionsOfPermissionDenied` | app/src/main/java/com/example/authflowapp/SignupActivity.kt:181-182 | the same fact for a nullable exception message |
| `Backend.ProfilePathInjective` | app/src/main/java/com/example/authflowapp/SignupActivity.kt:168-170 | two uids share a profile location `users/{uid}` only when they are the same uid |
| `Backend.ReadMatchesWrite` | app/src/main/java/com/example/authflowapp/MainActivity.kt:102-104 | the main screen's read for a signed-in uid targets the location where signup wrote a record exactly when the record's uid is that uid |
| `UserModel.EmptyUser` | app/src/main/java/com/example/authflowapp/model/User.kt:24 | the no-argument constructor gives empty uid, name and email and `createdAt` 0 |
| `UserModel.ToMap` | app/src/main/java/com/example/authflowapp/model/User.kt:30-37 | `toMap()` has exactly the keys uid, name, email and createdAt, each holding the matching field |
| `UserModel.ToMapRoundTrip` | app/src/main/java/com/example/authflowapp/model/User.kt:14-37 | a record is recovered from its map |
| `UserModel.FromMapOnlyImages` | app/src/main/java/com/example/authflowapp/model/User.kt:30-37 | the only maps that read back as a record are the maps `toMap()` produces |
| `UserModel.ToMapInjective` | app/src/main/java/com/example/authflowapp/model/User.kt:14-37 | equal maps come from equal records |
| `SignupActivity.Validate` | app/src/main/java/com/example/authflowapp/SignupActivity.kt:66-115 | the name error appears exactly for a blank name; the form is valid exactly when the name is not blank, the trimmed email is non-empty and matches the pattern, the untrimmed password has at least 6 UTF-16 code units and the confirmation equals it |
| `SignupActivity.FieldRules` | app/src/main/java/com/example/authflowapp/SignupActivity.kt:83-113 | each field's rule chain in order: the empty check wins over the format, length (in UTF-16 code units) or match check, in both directions |
| `SignupActivity.PaddingIgnoredForNameAndEmail` | app/src/main/java/com/example/authflowapp/SignupActivity.kt:69-72 | whitespace around the name and email never changes any field's error |
| `SignupActivity.SpacesCountInPasswords` | app/src/main/java/com/example/authflowapp/SignupActivity.kt:94-113 | the passwords are not trimmed: "12345" is too short, " 12345" is long enough, and "abc123 " does not match "abc123" |
| `SignupActivity.LengthCountsUtf16Units` | app/src/main/java/com/example/authflowapp/SignupActivity.kt:94-102 | three emoji (six code units) pass the length rule, two emoji (four code units) do not |
| `SignupActivity.AuthFailureMessage` | app/src/main/java/com/example/authflowapp/SignupActivity.kt:206-227 | weak password, invalid credentials (any code) and email collision get fixed messages whatever their text; the network message appears exactly for an other failure that mentions "network"; any other failure shows "Signup failed: " and its message |
| `SignupActivity.ProfileWriteFailureMessage` | app/src/main/java/com/example/authflowapp/SignupActivity.kt:177-189 | the warning always starts by saying the account was created; it is the permission warning exactly when the message mentions "permission", otherwise it carries the message |
| `SignupActivity.Screen.constructor` | app/src/main/java/com/example/authflowapp/SignupActivity.kt:31-41 | a fresh screen: no errors, no progress, nothing outstanding |
| `SignupActivity.Screen.ShowLoading` | app/src/main/java/com/example/authflowapp/SignupActivity.kt:237-245 | the progress bar follows the flag and all six controls are enabled exactly when it is off |
| `SignupActivity.Screen.ValidateInputs` | app/src/main/java/com/example/authflowapp/SignupActivity.kt:66-115 | the four error slots become those of `Validate`, and the result is true exactly when all are clear |
| `SignupActivity.Screen.SignUpClicked` | app/src/main/java/com/example/authflowapp/SignupActivity.kt:45-53 | a disabled button changes nothing; otherwise the errors are shown and only a valid form starts account creation with the trimmed email and the untrimmed password, remembering the trimmed name and email |
| `SignupActivity.Screen.CreateUserWithFirebase` | app/src/main/java/com/example/authflowapp/SignupActivity.kt:126-129 | progress on, one account-creation call issued |
| `SignupActivity.Screen.OnAccountCreated` | app/src/main/java/com/example/authflowapp/SignupActivity.kt:130-146 | a missing or empty uid clears progress and shows "Failed to create user" with no write and no navigation; otherwise one write of the record (uid, captured name and email, current time) to `users/{uid}` is issued and progress stays on |
| `SignupActivity.Screen.OnAccountCreationFailed` | app/src/main/java/com/example/authflowapp/SignupActivity.kt:147-150 | progress off, the mapped message, no write and no navigation |
| `SignupActivity.Screen.SaveUserToDatabase` | app/src/main/java/com/example/authflowapp/SignupActivity.kt:160-171 | the record written has the given uid, name, email and timestamp, at the path of that uid |
| `SignupActivity.Screen.OnProfileSaved` | app/src/main/java/com/example/authflowapp/SignupActivity.kt:172-176 | progress off, the success message, navigation to the main screen |
| `SignupActivity.Screen.OnProfileSaveFailed` | app/src/main/java/com/example/authflowapp/SignupActivity.kt:177-198 | progress off, the write-failure warning, and still navigation to the main screen |
| `SignupActivity.Screen.AlreadyHaveAccountClicked` | app/src/main/java/com/example/authflowapp/SignupActivity.kt:56-58 | an enabled link returns to the login screen |
| `LoginActivity.Validate` | app/src/main/java/com/example/authflowapp/LoginActivity.kt:113-140 | the password has only the empty check (no length rule); the pair is valid exactly when the email is non-empty and matches and the password is non-empty |
| `LoginActivity.EmailRule` | app/src/main/java/com/example/authflowapp/LoginActivity.kt:117-129 | "Email is required" exactly for an empty email, the format error exactly for a non-empty email that does not match |
| `LoginActivity.AuthFailureMessage` | app/src/main/java/com/example/authflowapp/LoginActivity.kt:169-197 | invalid-user failures map by code (not found, disabled, otherwise generic) and invalid-credentials failures by code (invalid email, wrong password, otherwise generic), each code test in both directions; the network message appears exactly for an other failure that mentions "network"; any other failure shows "Login failed: " and its message |
| `LoginActivity.Screen.constructor` | app/src/main/java/com/example/authflowapp/LoginActivity.kt:40-56 | a present session requests navigation to the main screen, and the listeners are installed either way |
| `LoginActivity.Screen.CheckUserSession` | app/src/main/java/com/example/authflowapp/LoginActivity.kt:62-68 | navigation to the main screen exactly when a session is present |
| `LoginActivity.Screen.ShowLoading` | app/src/main/java/com/example/authflowapp/LoginActivity.kt:207-214 | the progress bar follows the flag and all five controls are enabled exactly when it is off |
| `LoginActivity.Screen.ValidateInputs` | app/src/main/java/com/example/authflowapp/LoginActivity.kt:113-140 | both error slots become those of `Validate`, and the result is true exactly when both are clear |
| `LoginActivity.Screen.LoginClicked` | app/src/main/java/com/example/authflowapp/LoginActivity.kt:85-92 | a disabled button changes nothing; otherwise the trimmed email and untrimmed password are validated and only a valid pair starts one sign-in call |
| `LoginActivity.Screen.LoginWithFirebase` | app/src/main/java/com/example/authflowapp/LoginActivity.kt:149-152 | progress on, one sign-in call issued |
| `LoginActivity.Screen.OnSignInSucceeded` | app/src/main/java/com/example/authflowapp/LoginActivity.kt:153-157 | progress off, the success message, navigation to the main screen |
| `LoginActivity.Screen.OnSignInFailed` | app/src/main/java/com/example/authflowapp/LoginActivity.kt:158-161 | progress off, the mapped message, no navigation |
| `LoginActivity.Screen.CreateAccountClicked` | app/src/main/java/com/example/authflowapp/LoginActivity.kt:95-97 | an enabled link opens the signup screen |
| `LoginActivity.Screen.ForgotPasswordClicked` | app/src/main/java/com/example/authflowapp/LoginActivity.kt:100-102 | an enabled link opens the reset screen |
| `ForgotPasswordActivity.ValidateEmail` | app/src/main/java/com/example/authflowapp/ForgotPasswordActivity.kt:65-80 | the email is accepted exactly when it is non-empty and matches; "Email is required" exactly when empty; the format error exactly when non-empty and not matching |
| `ForgotPasswordActivity.AuthFailureMessage` | app/src/main/java/com/example/authflowapp/ForgotPasswordActivity.kt:114-130 | the result is one of three fixed messages, so the provider's text is never shown; the "if registered" wording exactly for an invalid-user failure; the network message exactly for another failure that mentions "network" |
| `ForgotPasswordActivity.FailureMessageHidesAccount` | app/src/main/java/com/example/authflowapp/ForgotPasswordActivity.kt:114-128 | failures alike in class and in the "network" test get the same message, whatever their code, and none says the account was not found |
| `ForgotPasswordActivity.UnknownAccountOutcomeDiffersFromSent` | app/src/main/java/com/example/authflowapp/ForgotPasswordActivity.kt:91-119 | the message for an unknown account differs from the message for a sent email |
| `ForgotPasswordActivity.Screen.constructor` | app/src/main/java/com/example/authflowapp/ForgotPasswordActivity.kt:30-39 | a fresh screen: no error, no progress, nothing outstanding |
| `ForgotPasswordActivity.Screen.ShowLoading` | app/src/main/java/com/example/authflowapp/ForgotPasswordActivity.kt:140-145 | the progress bar follows the flag; the button, email field and back link are enabled exactly when it is off |
| `ForgotPasswordActivity.Screen.ValidateEmailField` | app/src/main/java/com/example/authflowapp/ForgotPasswordActivity.kt:65-80 | the error slot becomes that of `ValidateEmail`, and the result is true exactly when it is cleared |
| `ForgotPasswordActivity.Screen.SendResetClicked` | app/src/main/java/com/example/authflowapp/ForgotPasswordActivity.kt:43-48 | a disabled button changes nothing; otherwise only an accepted trimmed email starts one reset request |
| `ForgotPasswordActivity.Screen.SendPasswordResetEmail` | app/src/main/java/com/example/authflowapp/ForgotPasswordActivity.kt:88-91 | progress on, one reset call issued |
| `ForgotPasswordActivity.Screen.OnResetSent` | app/src/main/java/com/example/authflowapp/ForgotPasswordActivity.kt:92-101 | progress off, the confirmation, and return to the login screen |
| `ForgotPasswordActivity.Screen.OnResetFailed` | app/src/main/java/com/example/authflowapp/ForgotPasswordActivity.kt:102-105 | progress off, the mapped message, no navigation |
| `ForgotPasswordActivity.Screen.BackToLoginClicked` | app/src/main/java/com/example/authflowapp/ForgotPasswordActivity.kt:51-53 | an enabled link returns to the login screen |
| `MainActivity.ReadCancelledMessage` | app/src/main/java/com/example/authflowapp/MainActivity.kt:121-130 | the `/users/{uid}` permission message exactly for `PERMISSION_DENIED`; any other code gives "Database error: " and the error's message |
| `MainActivity.Screen.constructor` | app/src/main/java/com/example/authflowapp/MainActivity.kt:39-56 | without a session: navigation to login, no read and no logout listener; with one: the profile read of that uid starts and the listener is installed |
| `MainActivity.Screen.CheckUserSession` | app/src/main/java/com/example/authflowapp/MainActivity.kt:63-71 | true exactly for a present session; an absent one requests navigation to login |
| `MainActivity.Screen.ShowLoading` | app/src/main/java/com/example/authflowapp/MainActivity.kt:168-172 | progress follows the flag; the card is visible and logout enabled exactly when it is off |
| `MainActivity.Screen.LoadUserData` | app/src/main/java/com/example/authflowapp/MainActivity.kt:96-105 | progress on and one read of `users/{uid}` issued |
| `MainActivity.Screen.OnDataChange` | app/src/main/java/com/example/authflowapp/MainActivity.kt:106-119 | progress off; a missing record gives "User data not found", one that does not deserialise gives "Failed to load user data", and a record puts its own name and email on the card; the logout listener, navigation and calls are untouched |
| `MainActivity.Screen.OnCancelled` | app/src/main/java/com/example/authflowapp/MainActivity.kt:121-131 | progress off and the mapped database message; the card's contents, the logout listener, navigation and calls are untouched |
| `MainActivity.Screen.DisplayUserInfo` | app/src/main/java/com/example/authflowapp/MainActivity.kt:144-148 | the card shows the record's name and email and is visible |
| `MainActivity.Screen.LogoutClicked` | app/src/main/java/com/example/authflowapp/MainActivity.kt:86-90 | without the listener or with the button disabled nothing happens; otherwise a logout; either way progress, the card and its contents, and the listener are untouched |
| `MainActivity.LogoutAfterProfileLoads` | app/src/main/java/com/example/authflowapp/MainActivity.kt:52-56 | a signed-in user whose profile loads sees it on the card, and logout then signs out and opens the login screen; the calls issued are the read of `users/{uid}` and the sign-out |
| `MainActivity.Screen.PerformLogout` | app/src/main/java/com/example/authflowapp/MainActivity.kt:154-162 | one sign-out call, the confirmation, navigation to login; no failure path |

## Left out

- Android mechanics: layouts, Toast durations, Intents and back-stack flags. Navigation is the value `navigation`, and a toast is the latest `message`. The initial view state comes from layout files that are not part of this model; the constructors start with progress hidden, controls enabled and the profile card hidden.
- The Firebase SDKs: each call is a `Request` appended to `requests`, and its outcome is the argument of a callback method. How the database deserialiser turns a snapshot into a `User` is not modelled; `MainActivity.Snapshot` says only whether that gave a record.
- `Patterns.EMAIL_ADDRESS` is not part of this model; it is the parameter `isEmail`.
- `System.currentTimeMillis()` (the default of `User.createdAt` and the signup timestamp) is the parameter `now`.
- `Text.CharEqualsIgnoreCase`: case folding is ASCII only; Kotlin also folds other letters, such as the Kelvin sign to "k", which would count as part of "network".
- Callback timing and callbacks that arrive after a screen is finished or destroyed: the model is sequential, and a callback method requires the matching call to be outstanding.
- `MainActivity.Screen.LoadUserData`: the second `auth.currentUser ?: return` is not re-queried; the sequential model uses the session that `onCreate` checked.
- The debug-only sanity write and all logging in SignupActivity.kt and MainActivity.kt, and the AdMob set-up in LoginActivity.kt and MainActivity.kt.
