/**
 * The admin area's frame (src/components/admin/AdminLayout.tsx): the gate
 * that admits only a stored session whose role is "admin", sign-out, and the
 * highlighting of the current navigation item.
 */
module AdminLayout {
  import opened Wrappers
  import opened Browser
  import opened SignIn

  const NavPaths: seq<string> := ["/admin/dashboard", "/admin/users", "/admin/settings"]

  /** `isActive(path)`: the current location is exactly `path`. */
  predicate IsActive(pathname: string, path: string) {
    pathname == path
  }

  /** At most one navigation item is highlighted, whatever the location. */
  lemma AtMostOneActive(pathname: string)
    ensures forall i, j :: 0 <= i < j < |NavPaths| ==> !(IsActive(pathname, NavPaths[i]) && IsActive(pathname, NavPaths[j]))
  {
    assert NavPaths[0] != NavPaths[1] && NavPaths[0] != NavPaths[2] && NavPaths[1] != NavPaths[2];
  }

  /** What the gate does besides setting the user: nothing, a redirect, or the error `JSON.parse` throws. */
  datatype GateOutcome = Admitted | Redirected(nav: Navigation) | ParseError

  /** The layout's state over the browser's storage. */
  class Layout {
    var user: Option<SessionUser>
    var sidebarOpen: bool
    const storage: LocalStorage<SessionUser>

    constructor(storage: LocalStorage<SessionUser>)
      ensures this.storage == storage && user == None && !sidebarOpen
    {
      this.storage := storage;
      user := None;
      sidebarOpen := false;
    }

    /**
     * The mount effect: no session (or an empty one) redirects to sign-in; a
     * session whose role is exactly "admin" becomes the user; any other role
     * redirects to sign-in; stored text that is not a record makes the parse
     * throw. Only the admitted case sets the user, and storage is only read.
     */
    method Gate() returns (outcome: GateOutcome)
      modifies this`user
      ensures !storage.Has(UserKey) ==> outcome == Redirected(Navigation(SignInPath, None)) && user == old(user)
      ensures storage.Has(UserKey) && storage.entries[UserKey].Text? ==> outcome == ParseError && user == old(user)
      ensures storage.Has(UserKey) && storage.entries[UserKey].Json? ==>
        var stored := storage.entries[UserKey].value;
        && (stored.role == "admin" ==> outcome == Admitted && user == Some(stored))
        && (stored.role != "admin" ==> outcome == Redirected(Navigation(SignInPath, None)) && user == old(user))
    {
      if !storage.Has(UserKey) {
        return Redirected(Navigation(SignInPath, None));
      }
      var parsed := storage.entries[UserKey].Parse();
      if parsed.None? {
        return ParseError;
      }
      if parsed.value.role == "admin" {
        user := parsed;
        outcome := Admitted;
      } else {
        outcome := Redirected(Navigation(SignInPath, None));
      }
    }

    /** Sign-out: the session key goes and the browser is sent to sign-in. */
    method HandleLogout() returns (nav: Navigation)
      modifies storage
      ensures storage.entries == old(storage.entries) - {UserKey}
      ensures UserKey !in storage.entries
      ensures nav == Navigation(SignInPath, None)
    {
      storage.RemoveItem(UserKey);
      nav := Navigation(SignInPath, None);
    }

    method ToggleSidebar()
      modifies this`sidebarOpen
      ensures sidebarOpen == !old(sidebarOpen)
    {
      sidebarOpen := !sidebarOpen;
    }
  }

  /**
   * The two sessions meet in one storage: a sign-in by the admin demo account
   * stores a session that the admin gate lets in.
   */
  method AdminDemoSignInPassesGate(storage: LocalStorage<SessionUser>) returns (outcome: GateOutcome)
    modifies storage
    ensures outcome == Admitted
  {
    var creds := Credentials("admin@mindfulcare.com", "admin123");
    var account := DemoUsers[0];
    assert FindDemoUser(creds) == Some(account) && account.verified by {
      DemoLookup();
    }
    var signIn := new SignInPage(storage);
    var _ := signIn.CompleteSignIn(creds);
    var session := SessionUser(account.email, account.role, account.name);
    assert storage.entries[UserKey] == Json(session) && session.role == "admin";
    var layout := new Layout(storage);
    outcome := layout.Gate();
  }

  /** A sign-in by the doctor demo account stores a session that the admin gate turns away to sign-in. */
  method DoctorDemoSignInIsTurnedAway(storage: LocalStorage<SessionUser>) returns (outcome: GateOutcome)
    modifies storage
    ensures outcome == Redirected(Navigation(SignInPath, None))
  {
    var creds := Credentials("doctor@mindfulcare.com", "doctor123");
    var account := DemoUsers[1];
    assert FindDemoUser(creds) == Some(account) && account.verified by {
      DemoLookup();
    }
    var signIn := new SignInPage(storage);
    var _ := signIn.CompleteSignIn(creds);
    var session := SessionUser(account.email, account.role, account.name);
    assert storage.entries[UserKey] == Json(session) && session.role == "doctor";
    var layout := new Layout(storage);
    outcome := layout.Gate();
  }
}
