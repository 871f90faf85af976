/** Vocabulary the four screens share. */
module Screens {

  import opened Wrappers

  /**
   * Where a screen sends the user. `Back` is `finish()`, which returns to
   * the screen underneath (the login screen); `ToMain` and `ToLogin` start
   * that screen on a cleared back stack.
   */
  datatype Navigation = Stay | ToMain | ToLogin | ToSignup | ToForgotPassword | Back

  /** `Patterns.EMAIL_ADDRESS.matcher(s).matches()`, supplied from outside. */
  type EmailPattern = string -> bool

  const EmailRequired := "Email is required"
  /** Joined from two literals so that the verifier can read its single characters. */
  const NetworkError := "Network error. " + "Check your internet connection."

  /**
   * The email rule every screen applies: empty first, then the address
   * pattern; `formatError` is the screen's own wording of the format error.
   */
  function EmailError(email: string, isEmail: EmailPattern, formatError: string): Option<string>
  {
    if email == [] then Some(EmailRequired)
    else if !isEmail(email) then Some(formatError)
    else None
  }
}
