/**
 * The demo sign-in page (src/pages/auth/SignIn.tsx): validation by the shared
 * email and password rules, then, one simulated second later, a lookup among
 * three hard-coded demo accounts and a session kept under the `user` key.
 */
module SignIn {
  import opened Wrappers
  import opened Text
  import opened FormRules
  import opened Browser
  import opened Seqs

  datatype Credentials = Credentials(email: string, password: string)

  /** The keys of the error record; the first two are also the names of the inputs. */
  datatype Key = Email | Password | General

  datatype SignInErrors = SignInErrors(email: string, password: string, general: string) {
    predicate AllEmpty() {
      email == "" && password == "" && general == ""
    }
  }

  /** A hard-coded demo account. */
  datatype DemoUser = DemoUser(email: string, password: string, role: string, name: string, verified: bool)

  /** What the session under the `user` key holds: no password. */
  datatype SessionUser = SessionUser(email: string, role: string, name: string)

  const DemoUsers: seq<DemoUser> := [
    DemoUser("admin@mindfulcare.com", "admin123", "admin", "Admin User", true),
    DemoUser("doctor@mindfulcare.com", "doctor123", "doctor", "Doctor User", true),
    DemoUser("patient@mindfulcare.com", "patient123", "patient", "Patient User", false)
  ]

  const UserKey := "user"
  const AdminDashboardPath := "/admin/dashboard"
  const HomePath := "/"
  const NoMatch := "Invalid email or password. Try one of the demo accounts: admin@mindfulcare.com/admin123, doctor@mindfulcare.com/doctor123, or patient@mindfulcare.com/patient123 (unverified)"

  const NoErrors := SignInErrors("", "", "")

  /** The error record validation produces: the registration rules for email and password. */
  function ExpectedErrors(c: Credentials): SignInErrors {
    SignInErrors(EmailError(c.email), PasswordError(c.password), "")
  }

  /** Sign-in accepts exactly the addresses that match the pattern and passwords of at least 8 characters. */
  lemma SignInAcceptance(c: Credentials)
    ensures ExpectedErrors(c).AllEmpty() <==> MatchesEmailPattern(c.email) && |c.password| >= MinPasswordLength
    ensures ExpectedErrors(c).general == ""
  {
  }

  /** The demo account with this email AND this password, the first in table order. */
  function FindDemoUser(c: Credentials): (r: Option<DemoUser>)
    ensures r.Some? ==> r.value in DemoUsers && r.value.email == c.email && r.value.password == c.password
    ensures r.None? <==> forall i :: 0 <= i < |DemoUsers| ==>
                           !(DemoUsers[i].email == c.email && DemoUsers[i].password == c.password)
  {
    Find(DemoUsers, (u: DemoUser) => u.email == c.email && u.password == c.password)
  }

  /** Each demo account signs in with its own password only; one account's email with another's password finds nothing. */
  lemma DemoLookup()
    ensures FindDemoUser(Credentials("admin@mindfulcare.com", "admin123")) == Some(DemoUsers[0])
    ensures FindDemoUser(Credentials("doctor@mindfulcare.com", "doctor123")) == Some(DemoUsers[1])
    ensures FindDemoUser(Credentials("patient@mindfulcare.com", "patient123")) == Some(DemoUsers[2])
    ensures FindDemoUser(Credentials("admin@mindfulcare.com", "doctor123")) == None
  {
    var mixed := Credentials("admin@mindfulcare.com", "doctor123");
    assert DemoUsers[0].password != mixed.password;
    assert DemoUsers[1].email != mixed.email && DemoUsers[2].email != mixed.email;
  }

  /** Where a verified user lands: the admin dashboard for an admin, the home page for anyone else. */
  function LandingPath(role: string): (path: string)
    ensures path == AdminDashboardPath <==> role == "admin"
    ensures path == HomePath <==> role != "admin"
  {
    if role == "admin" then AdminDashboardPath else HomePath
  }

  /** The state of the sign-in page over the browser's storage. */
  class SignInPage {
    var formData: Credentials
    var errors: SignInErrors
    var isSubmitting: bool
    const storage: LocalStorage<SessionUser>

    constructor(storage: LocalStorage<SessionUser>)
      ensures this.storage == storage
      ensures formData == Credentials("", "") && errors == NoErrors && !isSubmitting
    {
      this.storage := storage;
      formData := Credentials("", "");
      errors := NoErrors;
      isSubmitting := false;
    }

    /** Typing into an input changes its value and clears only its own error. */
    method HandleChange(k: Key, value: string)
      requires k != General
      modifies this`formData, this`errors
      ensures k == Email ==> formData == old(formData).(email := value) && errors == old(errors).(email := "")
      ensures k == Password ==> formData == old(formData).(password := value) && errors == old(errors).(password := "")
    {
      if k == Email {
        formData := formData.(email := value);
        if errors.email != "" {
          errors := errors.(email := "");
        }
      } else {
        formData := formData.(password := value);
        if errors.password != "" {
          errors := errors.(password := "");
        }
      }
    }

    /** Validation fills a fresh error record (so `general` is cleared) and reports whether it stayed empty. */
    method ValidateForm() returns (isValid: bool)
      modifies this`errors
      ensures errors == ExpectedErrors(formData)
      ensures isValid <==> errors.AllEmpty()
    {
      isValid := true;
      var newErrors := NoErrors;
      // Required, then the pattern (FormRules.EmailError).
      var emailError := EmailError(formData.email);
      if emailError != "" {
        newErrors := newErrors.(email := emailError);
        isValid := false;
      }
      // Required, then the length (FormRules.PasswordError).
      var passwordError := PasswordError(formData.password);
      if passwordError != "" {
        newErrors := newErrors.(password := passwordError);
        isValid := false;
      }
      errors := newErrors;
    }

    /**
     * Submitting: a form that fails validation stops there, with no lookup and
     * no storage written (storage is outside this method's frame). A valid one
     * starts submitting and hands the credentials, as they are now, to the step
     * that runs when the simulated delay ends.
     */
    method HandleSubmit() returns (pending: Option<Credentials>)
      modifies this`errors, this`isSubmitting
      ensures errors == ExpectedErrors(formData)
      ensures pending.Some? <==> errors.AllEmpty()
      ensures pending.Some? ==> pending.value == formData && isSubmitting
      ensures pending.None? ==> isSubmitting == old(isSubmitting)
    {
      var isValid := ValidateForm();
      if !isValid {
        return None;
      }
      isSubmitting := true;
      pending := Some(formData);
    }

    /**
     * The delayed step, with the credentials captured at submit time. A match
     * that is not verified goes to the verification page with the email and
     * stores nothing; a verified match stores its email, role and name under
     * `user` and lands by role; no match shows the demo-account hint and stores
     * nothing. Submission ends in every case.
     */
    method CompleteSignIn(creds: Credentials) returns (nav: Option<Navigation>)
      modifies this`errors, this`isSubmitting, storage
      ensures !isSubmitting
      ensures FindDemoUser(creds).None? ==>
        && nav == None
        && errors == old(errors).(general := NoMatch)
        && storage.entries == old(storage.entries)
      ensures FindDemoUser(creds).Some? && !FindDemoUser(creds).value.verified ==>
        && nav == Some(Navigation(VerifyEmailPath, Some(creds.email)))
        && errors == old(errors)
        && storage.entries == old(storage.entries)
      ensures FindDemoUser(creds).Some? && FindDemoUser(creds).value.verified ==>
        var u := FindDemoUser(creds).value;
        && nav == Some(Navigation(LandingPath(u.role), None))
        && errors == old(errors)
        && storage.entries == old(storage.entries)[UserKey := Json(SessionUser(u.email, u.role, u.name))]
    {
      nav := None;
      var user := FindDemoUser(creds);
      if user.Some? {
        var u := user.value;
        if !u.verified {
          nav := Some(Navigation(VerifyEmailPath, Some(creds.email)));
        } else {
          storage.SetItem(UserKey, Json(SessionUser(u.email, u.role, u.name)));
          if u.role == "admin" {
            nav := Some(Navigation(AdminDashboardPath, None));
          } else {
            nav := Some(Navigation(HomePath, None));
          }
        }
      } else {
        errors := errors.(general := NoMatch);
      }
      isSubmitting := false;
    }
  }

  /** Only the admin demo account is sent to the admin dashboard, and the unverified patient is never stored. */
  lemma DemoLandings()
    ensures LandingPath(DemoUsers[0].role) == AdminDashboardPath
    ensures LandingPath(DemoUsers[1].role) == HomePath
    ensures !DemoUsers[2].verified
  {
  }
}
