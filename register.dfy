/**
 * The registration page (src/pages/auth/Register.tsx): a form record, an error
 * record with one message per field, validation, the change handlers that
 * clear a field's error, and the submit step that calls signup.
 */
module Register {
  import opened Wrappers
  import opened Text
  import opened FormRules
  import opened Browser
  import AuthContext

  datatype RegisterForm = RegisterForm(firstName: string, lastName: string, email: string, phone: string,
                                       password: string, confirmPassword: string, role: string,
                                       acceptTerms: bool)

  /** The nine keys of the error record; the first six are also the names of the text inputs. */
  datatype Key = FirstName | LastName | Email | Phone | Password | ConfirmPassword | Role | AcceptTerms | General {
    predicate IsTextInput() {
      !(Role? || AcceptTerms? || General?)
    }
  }

  datatype RegisterErrors = RegisterErrors(firstName: string, lastName: string, email: string, phone: string,
                                           password: string, confirmPassword: string, role: string,
                                           acceptTerms: string, general: string)
  {
    function Get(k: Key): string {
      match k
      case FirstName => firstName
      case LastName => lastName
      case Email => email
      case Phone => phone
      case Password => password
      case ConfirmPassword => confirmPassword
      case Role => role
      case AcceptTerms => acceptTerms
      case General => general
    }

    /** No message is set: the form passed. */
    predicate AllEmpty() {
      && firstName == "" && lastName == "" && email == "" && phone == "" && password == ""
      && confirmPassword == "" && role == "" && acceptTerms == "" && general == ""
    }

    /** The record with the message under `k` emptied and every other message kept. */
    function Cleared(k: Key): (r: RegisterErrors)
      ensures r.Get(k) == ""
      ensures forall other: Key :: other != k ==> r.Get(other) == Get(other)
    {
      match k
      case FirstName => this.(firstName := "")
      case LastName => this.(lastName := "")
      case Email => this.(email := "")
      case Phone => this.(phone := "")
      case Password => this.(password := "")
      case ConfirmPassword => this.(confirmPassword := "")
      case Role => this.(role := "")
      case AcceptTerms => this.(acceptTerms := "")
      case General => this.(general := "")
    }
  }

  const NoErrors := RegisterErrors("", "", "", "", "", "", "", "", "")
  const InitialForm := RegisterForm("", "", "", "", "", "", "patient", false)

  const FirstNameRequired := "First name is required"
  const LastNameRequired := "Last name is required"
  const PhoneInvalid := "Please enter a valid 10-digit phone number"
  const PasswordsDiffer := "Passwords do not match"
  const TermsRequired := "You must accept the terms and conditions"
  const RegistrationFailed := "Registration failed. Please try again."

  /** The input named `k` set to `value`. */
  function WithText(f: RegisterForm, k: Key, value: string): RegisterForm
    requires k.IsTextInput()
  {
    match k
    case FirstName => f.(firstName := value)
    case LastName => f.(lastName := value)
    case Email => f.(email := value)
    case Phone => f.(phone := value)
    case Password => f.(password := value)
    case ConfirmPassword => f.(confirmPassword := value)
  }

  /** The optional phone: empty, or exactly ten digits once everything else is stripped. */
  predicate PhoneAcceptable(phone: string) {
    phone == "" || IsTenDigits(Digits(phone))
  }

  /** The error record validation produces for a form, one independent rule per field. */
  function ExpectedErrors(f: RegisterForm): RegisterErrors {
    RegisterErrors(
      firstName := if IsBlank(f.firstName) then FirstNameRequired else "",
      lastName := if IsBlank(f.lastName) then LastNameRequired else "",
      email := EmailError(f.email),
      phone := if PhoneAcceptable(f.phone) then "" else PhoneInvalid,
      password := PasswordError(f.password),
      confirmPassword := if f.password != f.confirmPassword then PasswordsDiffer else "",
      role := "",
      acceptTerms := if f.acceptTerms then "" else TermsRequired,
      general := "")
  }

  /** A form passes exactly when every rule holds; the role and general messages are always emptied. */
  lemma RegisterAcceptance(f: RegisterForm)
    ensures ExpectedErrors(f).AllEmpty() <==>
      && !IsBlank(f.firstName) && !IsBlank(f.lastName)
      && MatchesEmailPattern(f.email)
      && (f.phone == "" || |Digits(f.phone)| == 10)
      && |f.password| >= MinPasswordLength
      && f.password == f.confirmPassword
      && f.acceptTerms
    ensures ExpectedErrors(f).role == "" && ExpectedErrors(f).general == ""
  {
    TenDigitsAfterStripping(f.phone);
  }

  /** A phone number is judged by its digits alone: separators between them do not matter. */
  lemma PhoneIgnoresSeparators(a: string, sep: string, b: string)
    requires a + b != []
    requires forall i :: 0 <= i < |sep| ==> !IsDigit(sep[i])
    ensures PhoneAcceptable(a + sep + b) <==> PhoneAcceptable(a + b)
  {
    DigitsIgnoreSeparators(a, sep, b);
  }

  /** The data sent to signup: the form without the confirmation, the role and the terms box. */
  datatype SignupData = SignupData(firstName: string, lastName: string, email: string, phone: string,
                                   password: string)

  /** The state of the registration page. */
  class RegisterPage {
    var formData: RegisterForm
    var errors: RegisterErrors
    var isSubmitting: bool

    constructor()
      ensures formData == InitialForm && errors == NoErrors && !isSubmitting
    {
      formData := InitialForm;
      errors := NoErrors;
      isSubmitting := false;
    }

    /** Typing into the input named `k`: its value changes and only its own error is cleared. */
    method HandleChange(k: Key, value: string)
      requires k.IsTextInput()
      modifies this`formData, this`errors
      ensures formData == WithText(old(formData), k, value)
      ensures errors == old(errors).Cleared(k)
    {
      formData := WithText(formData, k, value);
      if errors.Get(k) != "" {
        errors := errors.Cleared(k);
      } else {
        assert errors == errors.Cleared(k) by {
          assert forall other: Key :: errors.Get(other) == errors.Cleared(k).Get(other);
        }
      }
    }

    /** Choosing a role clears only the role error. */
    method HandleSelectChange(role: string)
      modifies this`formData, this`errors
      ensures formData == old(formData).(role := role)
      ensures errors == old(errors).(role := "")
    {
      formData := formData.(role := role);
      if errors.role != "" {
        errors := errors.(role := "");
      }
    }

    /** Ticking the terms box clears only the terms error. */
    method HandleCheckboxChange(checked: bool)
      modifies this`formData, this`errors
      ensures formData == old(formData).(acceptTerms := checked)
      ensures errors == old(errors).(acceptTerms := "")
    {
      formData := formData.(acceptTerms := checked);
      if errors.acceptTerms != "" {
        errors := errors.(acceptTerms := "");
      }
    }

    /** Validation fills a fresh error record rule by rule and reports whether it stayed empty. */
    method ValidateForm() returns (isValid: bool)
      modifies this`errors
      ensures errors == ExpectedErrors(formData)
      ensures isValid <==> errors.AllEmpty()
    {
      var f := formData;
      isValid := true;
      var newErrors := NoErrors;
      TrimEmptyIffBlank(f.firstName);
      TrimEmptyIffBlank(f.lastName);

      if Trim(f.firstName) == "" {
        newErrors := newErrors.(firstName := FirstNameRequired);
        isValid := false;
      }
      if Trim(f.lastName) == "" {
        newErrors := newErrors.(lastName := LastNameRequired);
        isValid := false;
      }
      // Required, then the pattern (FormRules.EmailError).
      var emailError := EmailError(f.email);
      if emailError != "" {
        newErrors := newErrors.(email := emailError);
        isValid := false;
      }
      if f.phone != "" && !IsTenDigits(Digits(f.phone)) {
        newErrors := newErrors.(phone := PhoneInvalid);
        isValid := false;
      }
      // Required, then the length (FormRules.PasswordError).
      var passwordError := PasswordError(f.password);
      if passwordError != "" {
        newErrors := newErrors.(password := passwordError);
        isValid := false;
      }
      if f.password != f.confirmPassword {
        newErrors := newErrors.(confirmPassword := PasswordsDiffer);
        isValid := false;
      }
      if !f.acceptTerms {
        newErrors := newErrors.(acceptTerms := TermsRequired);
        isValid := false;
      }
      errors := newErrors;
    }

    /**
     * Submitting: nothing is sent unless validation passes. Otherwise signup is
     * called with the role's endpoint; `signupFailure` is the message of the
     * error the backend call throws, if it throws. Success leads to the
     * verification page carrying the email; a failure shows its message, or a
     * default when the message is empty. Submission ends in every case.
     */
    method HandleSubmit(signupFailure: Option<string>)
      returns (call: Option<AuthContext.SignupCall<SignupData>>, nav: Option<Navigation>)
      modifies this`errors, this`isSubmitting
      ensures var data := SignupData(formData.firstName, formData.lastName, formData.email,
                                     formData.phone, formData.password);
              var signup := AuthContext.Signup(data, formData.role);
        && (!ExpectedErrors(formData).AllEmpty() ==>
              call == None && nav == None && errors == ExpectedErrors(formData)
              && isSubmitting == old(isSubmitting))
        && (ExpectedErrors(formData).AllEmpty() ==>
              && !isSubmitting
              && call == (if signup.Success? then Some(signup.value) else None)
              && (signup.Failure? ==>
                    nav == None && errors == ExpectedErrors(formData).(general := signup.message))
              && (signup.Success? && signupFailure.None? ==>
                    nav == Some(Navigation(VerifyEmailPath, Some(formData.email)))
                    && errors == ExpectedErrors(formData))
              && (signup.Success? && signupFailure.Some? ==>
                    nav == None
                    && errors == ExpectedErrors(formData).(general := FailureText(signupFailure.value))))
    {
      call, nav := None, None;
      var isValid := ValidateForm();
      if !isValid {
        return;
      }
      isSubmitting := true;
      var data := SignupData(formData.firstName, formData.lastName, formData.email,
                             formData.phone, formData.password);
      var signup := AuthContext.Signup(data, formData.role);
      if signup.Failure? {
        errors := errors.(general := FailureText(signup.message));
      } else {
        call := Some(signup.value);
        if signupFailure.Some? {
          errors := errors.(general := FailureText(signupFailure.value));
        } else {
          nav := Some(Navigation(VerifyEmailPath, Some(formData.email)));
        }
      }
      isSubmitting := false;
    }
  }

  /** `error.message || default`: an empty message gives way to the default. */
  function FailureText(message: string): (r: string)
    ensures r != ""
    ensures message != "" ==> r == message
    ensures message == "" ==> r == RegistrationFailed
  {
    if message == "" then RegistrationFailed else message
  }
}
