/**
 * The forgot-password page (src/pages/auth/ForgotPassword.tsx): one email
 * input, checked for presence and then against the email pattern, and a
 * simulated request that ends by showing the "sent" panel.
 */
module ForgotPassword {
  import opened Text
  import FormRules

  const EmailRequired := "Email is required"
  const EmailInvalid := "Please enter a valid email address"

  /** `validateEmail`: the unanchored `\S+@\S+\.\S+` test. */
  predicate ValidateEmail(email: string) {
    MatchesEmailPattern(email)
  }

  /** The message a submit leaves: presence is checked before the pattern, and a valid address leaves none. */
  function SubmitError(email: string): (e: string)
    ensures e == "" <==> ValidateEmail(email)
    ensures email == "" ==> e == EmailRequired
    ensures email != "" && !ValidateEmail(email) ==> e == EmailInvalid
  {
    if email == "" then EmailRequired
    else if !ValidateEmail(email) then EmailInvalid
    else ""
  }

  /** This page accepts exactly the addresses registration and sign-in accept; only the wording of a malformed address differs. */
  lemma SameRuleAsSignIn(email: string)
    ensures SubmitError(email) == "" <==> FormRules.EmailError(email) == ""
    ensures email == "" ==> SubmitError(email) == FormRules.EmailError(email)
    ensures email != "" && !ValidateEmail(email) ==> SubmitError(email) != FormRules.EmailError(email)
  {
  }

  /** The state of the page. */
  class ForgotPasswordPage {
    var email: string
    var isSubmitting: bool
    var submitted: bool
    var error: string

    constructor()
      ensures email == "" && !isSubmitting && !submitted && error == ""
    {
      email := "";
      isSubmitting := false;
      submitted := false;
      error := "";
    }

    /**
     * Submitting: an empty or malformed address sets its message and returns
     * early; a valid one clears the message and starts the request. The
     * result says whether the request was started.
     */
    method HandleSubmit() returns (started: bool)
      modifies this`error, this`isSubmitting
      ensures started <==> ValidateEmail(email)
      ensures error == SubmitError(email)
      ensures started ==> isSubmitting
      ensures !started ==> isSubmitting == old(isSubmitting)
    {
      if email == "" {
        error := EmailRequired;
        return false;
      }
      if !ValidateEmail(email) {
        error := EmailInvalid;
        return false;
      }
      isSubmitting := true;
      error := "";
      started := true;
    }

    /** The step run when the simulated delay ends: the "sent" panel shows and submission ends. */
    method CompleteRequest()
      modifies this`submitted, this`isSubmitting
      ensures submitted && !isSubmitting
    {
      submitted := true;
      isSubmitting := false;
    }

    /** Typing replaces the address and clears any message. */
    method HandleEmailChange(value: string)
      modifies this`email, this`error
      ensures email == value && error == ""
    {
      email := value;
      if error != "" {
        error := "";
      }
    }

    /** "Try Another Email": back to the form, with the address kept (it is outside the frame). */
    method TryAnotherEmail()
      modifies this`submitted
      ensures !submitted
    {
      submitted := false;
    }
  }
}
