/**
 * The authentication context: the session kept under the `authToken` and
 * `userData` keys, login, logout, the signup dispatch by role and the guard
 * that `useAuth` puts on its callers (src/contexts/AuthContext.tsx).
 */
module AuthContext {
  import opened Wrappers
  import opened Browser

  /** The user record the backend returns. */
  datatype AuthUser = AuthUser(id: string, email: string, role: string, fullName: string,
                               phone: Option<string>, isActive: bool, isVerified: bool)

  /** What `authAPI.login` gives back: a token and a user, or a thrown error. */
  datatype LoginResponse = LoginOk(token: string, user: AuthUser) | LoginFailed(message: string)

  const TokenKey := "authToken"
  const UserKey := "userData"
  const NotVerified := "Please verify your email before signing in"
  const NotActive := "Your account is not active. Please contact support."
  const InvalidRole := "Invalid role"
  const NoProvider := "useAuth must be used within an AuthProvider"

  /** The three signup endpoints. */
  datatype Endpoint = SignupAdmin | SignupDoctor | SignupPatient

  /** One signup request: the endpoint and the data sent to it. */
  datatype SignupCall<D> = SignupCall(endpoint: Endpoint, userData: D)

  /** `signup(userData, role)`: one endpoint per role; any other role throws before any call. */
  function Signup<D>(userData: D, role: string): (r: Result<SignupCall<D>>)
    ensures r.Success? <==> role == "admin" || role == "doctor" || role == "patient"
    ensures r.Success? ==> r.value.userData == userData
    ensures r.Failure? ==> r.message == InvalidRole
    ensures role == "admin" ==> r == Success(SignupCall(SignupAdmin, userData))
    ensures role == "doctor" ==> r == Success(SignupCall(SignupDoctor, userData))
    ensures role == "patient" ==> r == Success(SignupCall(SignupPatient, userData))
  {
    match role
    case "admin" => Success(SignupCall(SignupAdmin, userData))
    case "doctor" => Success(SignupCall(SignupDoctor, userData))
    case "patient" => Success(SignupCall(SignupPatient, userData))
    case _ => Failure(InvalidRole)
  }

  /** Different roles never reach the same endpoint. */
  lemma SignupEndpointPerRole<D>(userData: D, role1: string, role2: string)
    requires Signup(userData, role1).Success? && Signup(userData, role2).Success?
    ensures Signup(userData, role1).value.endpoint == Signup(userData, role2).value.endpoint <==> role1 == role2
  {
  }

  /** `useAuth`: outside a provider there is no context, and the hook throws. */
  function UseAuth<C>(context: Option<C>): (r: Result<C>)
    ensures r.Success? <==> context.Some?
    ensures r.Success? ==> r.value == context.value
    ensures r.Failure? ==> r.message == NoProvider
  {
    match context
    case Some(c) => Success(c)
    case None => Failure(NoProvider)
  }

  /** The `AuthProvider` component's state over its storage. */
  class AuthProvider {
    var user: Option<AuthUser>
    var isLoading: bool
    const storage: LocalStorage<AuthUser>

    constructor(storage: LocalStorage<AuthUser>)
      ensures this.storage == storage
      ensures user == None && isLoading
    {
      this.storage := storage;
      user := None;
      isLoading := true;
    }

    /**
     * The start-up effect: with both keys present the stored user is restored; if
     * it does not parse, both keys are removed; with either key missing nothing
     * happens. Loading ends in every case.
     */
    method Restore()
      modifies this`user, this`isLoading, storage
      ensures !isLoading
      ensures var both := old(storage.Has(TokenKey)) && old(storage.Has(UserKey));
        && (both && old(storage.entries[UserKey]).Json? ==>
              user == Some(old(storage.entries[UserKey]).value) && storage.entries == old(storage.entries))
        && (both && old(storage.entries[UserKey]).Text? ==>
              user == old(user) && storage.entries == old(storage.entries) - {TokenKey, UserKey})
        && (!both ==> user == old(user) && storage.entries == old(storage.entries))
    {
      if storage.Has(TokenKey) && storage.Has(UserKey) {
        var parsed := storage.entries[UserKey].Parse();
        if parsed.Some? {
          user := parsed;
        } else {
          storage.RemoveItem(TokenKey);
          storage.RemoveItem(UserKey);
        }
      }
      isLoading := false;
    }

    /**
     * `login`: an unverified user is refused first, then an inactive one, and a
     * refused or failed login stores nothing and leaves the user as it was. A
     * successful one stores the token and the user and signs the user in.
     */
    method Login(response: LoginResponse) returns (outcome: Outcome)
      modifies this`user, storage
      ensures response.LoginFailed? ==> outcome == Thrown(response.message)
      ensures response.LoginOk? && !response.user.isVerified ==> outcome == Thrown(NotVerified)
      ensures response.LoginOk? && response.user.isVerified && !response.user.isActive ==>
                outcome == Thrown(NotActive)
      ensures outcome.Thrown? ==> user == old(user) && storage.entries == old(storage.entries)
      ensures outcome.Completed? <==> response.LoginOk? && response.user.isVerified && response.user.isActive
      ensures outcome.Completed? ==>
        && user == Some(response.user)
        && storage.entries == old(storage.entries)[TokenKey := Text(response.token)][UserKey := Json(response.user)]
    {
      if response.LoginFailed? {
        return Thrown(response.message);
      }
      if !response.user.isVerified {
        return Thrown(NotVerified);
      }
      if !response.user.isActive {
        return Thrown(NotActive);
      }
      storage.SetItem(TokenKey, Text(response.token));
      storage.SetItem(UserKey, Json(response.user));
      user := Some(response.user);
      outcome := Completed;
    }

    /** `logout`: both keys go and the user is signed out. */
    method Logout()
      modifies this`user, storage
      ensures user == None
      ensures storage.entries == old(storage.entries) - {TokenKey, UserKey}
      ensures TokenKey !in storage.entries && UserKey !in storage.entries
    {
      storage.RemoveItem(TokenKey);
      storage.RemoveItem(UserKey);
      user := None;
    }
  }

  /** Logging out twice leaves the same state as logging out once. */
  method LogoutTwice(provider: AuthProvider)
    modifies provider, provider.storage
    ensures provider.user == None
    ensures provider.storage.entries == old(provider.storage.entries) - {TokenKey, UserKey}
  {
    provider.Logout();
    ghost var once := provider.storage.entries;
    provider.Logout();
    assert provider.storage.entries == once;
  }
}
