/** The email and password checks of the login and registration screens.
    LoginViewModel.kt and RegisterViewModel.kt each declare a private copy
    of validateEmail and validatePassword with the same branches and
    messages; this module models them once. */
module ClientValidation {
  import opened Wrappers
  import opened Ascii

  const EmailRequiredMessage := "Email is required"
  const InvalidEmailFormatMessage := "Invalid email format"
  const PasswordRequiredMessage := "Password is required"
  const PasswordTooShortMessage := "Password must be at least 6 characters"

  /** validateEmail: an error unless the email is non-blank and contains '@'. */
  function ValidateEmail(email: string): (r: Option<string>)
    ensures r.None? <==> !IsBlank(email) && '@' in email
    ensures IsBlank(email) ==> r == Some(EmailRequiredMessage)
    ensures !IsBlank(email) && '@' !in email ==> r == Some(InvalidEmailFormatMessage)
  {
    if IsBlank(email) then Some(EmailRequiredMessage)
    else if '@' !in email then Some(InvalidEmailFormatMessage)
    else None
  }

  /** validatePassword: an error unless the password is non-blank and has
      at least 6 characters; blankness is checked first. */
  function ValidatePassword(password: string): (r: Option<string>)
    ensures r.None? <==> !IsBlank(password) && |password| >= 6
    ensures IsBlank(password) ==> r == Some(PasswordRequiredMessage)
    ensures !IsBlank(password) && |password| < 6 ==> r == Some(PasswordTooShortMessage)
  {
    if IsBlank(password) then Some(PasswordRequiredMessage)
    else if |password| < 6 then Some(PasswordTooShortMessage)
    else None
  }

  /** Six spaces are reported as missing, not as too short or accepted. */
  lemma WhitespacePasswordIsRequired()
    ensures ValidatePassword("      ") == Some(PasswordRequiredMessage)
  {
  }
}
