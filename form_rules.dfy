/** The email and password rules that registration and sign-in apply alike. */
module FormRules {
  import opened Text

  const EmailRequired := "Email is required"
  const EmailInvalid := "Email is invalid"
  const PasswordRequired := "Password is required"
  const PasswordTooShort := "Password must be at least 8 characters"
  const MinPasswordLength := 8

  /** Required first, then the pattern: the error is empty exactly when the address matches. */
  function EmailError(email: string): (e: string)
    ensures e == "" <==> MatchesEmailPattern(email)
    ensures email == "" ==> e == EmailRequired
    ensures email != "" && !MatchesEmailPattern(email) ==> e == EmailInvalid
  {
    if email == "" then EmailRequired
    else if !MatchesEmailPattern(email) then EmailInvalid
    else ""
  }

  /** Required first, then the length: the error is empty exactly when there are at least 8 characters. */
  function PasswordError(password: string): (e: string)
    ensures e == "" <==> |password| >= MinPasswordLength
    ensures password == "" ==> e == PasswordRequired
    ensures 0 < |password| < MinPasswordLength ==> e == PasswordTooShort
  {
    if password == "" then PasswordRequired
    else if |password| < MinPasswordLength then PasswordTooShort
    else ""
  }
}
