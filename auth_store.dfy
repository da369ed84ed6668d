/**
 * The hosted backend as the client sees it: the database tables the admin
 * pages touch and the identity provider's sign-in state, as an in-memory
 * store; and the registration and login sequences of the auth service,
 * whose calls into that store are recorded in order. Replies of the
 * provider and of each insert are inputs, since the backend decides them.
 */
module AuthStore {
  import opened Base
  import opened Campus

  /** An identity-provider account as the client receives it. */
  datatype AuthUser = AuthUser(id: string, email: string)

  datatype UniversityRow = UniversityRow(id: string, name: string, city: string, adminEmail: string)

  /** A row of `admins`; `universityId` is null for the super admin. */
  datatype AdminRow = AdminRow(id: string, email: string, universityId: Option<string>, isSuperAdmin: bool)

  /** A row of `super_admin_keys`; `expiresAt` and `usedAt` in milliseconds. */
  datatype KeyRow = KeyRow(id: nat, secretKey: string, expiresAt: int, used: bool, usedAt: Option<int>)

  /** A row of `key_offices`; empty inputs are stored as null. */
  datatype OfficeRow = OfficeRow(buildingId: string, name: string, purpose: Option<string>,
                                 hours: Option<string>, roomNumber: Option<string>)

  class Store {
    var universities: map<string, UniversityRow>
    var accounts: map<string, AuthUser>
    var admins: map<string, AdminRow>
    var keys: seq<KeyRow>
    var buildings: seq<Building>
    var offices: seq<OfficeRow>
    /** The provider's current sign-in, which `signInWithPassword` sets and `signOut` clears. */
    var signedIn: Option<AuthUser>

    constructor ()
      ensures universities == map[] && accounts == map[] && admins == map[]
      ensures keys == [] && buildings == [] && offices == [] && signedIn == None
    {
      universities := map[];
      accounts := map[];
      admins := map[];
      keys := [];
      buildings := [];
      offices := [];
      signedIn := None;
    }
  }

  // ---------------------------------------------------------------------
  // Registration
  // ---------------------------------------------------------------------

  /** The provider's answer to `signUp`: an error, or data whose user may lack an id. */
  datatype SignUpReply = SignUpFailed(message: string) | SignedUp(userId: Option<string>)

  /** The store calls registration makes, in order. */
  datatype RegisterCall = InsertUniversity | SignUp | InsertAdmin | DeleteUniversity | SignIn

  datatype RegisterResult =
    | Registered(requiresEmailConfirmation: bool, message: string, userId: string, university: UniversityRow)
    | RegisterFailed(error: string)

  const ConfirmMessage := "Registration successful! Please check your email to confirm your account before logging in."
  const LoggedInMessage := "Registration successful! You are now logged in."

  /**
   * `registerAdmin`: university row first, then the account, then the admin
   * record linking the two, then an automatic sign-in. A failure after the
   * university exists deletes it again; an account already created stays.
   * `uniId` is the id the database gives the new university row.
   */
  method RegisterAdmin(store: Store, email: string, password: string, universityName: string, city: string,
                       uniId: string, uniInsert: WriteReply, signUp: SignUpReply, adminInsert: WriteReply,
                       autoSignIn: bool)
    returns (result: RegisterResult, calls: seq<RegisterCall>)
    requires uniId !in store.universities
    modifies store`universities, store`accounts, store`admins, store`signedIn
    ensures |calls| >= 1 && calls[0] == InsertUniversity
    ensures result.RegisterFailed? ==> store.universities == old(store.universities) && store.admins == old(store.admins)
    ensures uniInsert.WriteFailed? ==>
      calls == [InsertUniversity] && store.accounts == old(store.accounts)
      && result == RegisterFailed("Failed to create university: " + uniInsert.error)
    ensures uniInsert.WriteOk? && signUp.SignUpFailed? ==>
      calls == [InsertUniversity, SignUp, DeleteUniversity] && store.accounts == old(store.accounts)
      && result == RegisterFailed("Auth signup failed: " + signUp.message)
    ensures uniInsert.WriteOk? && signUp == SignedUp(None) ==>
      calls == [InsertUniversity, SignUp, DeleteUniversity] && store.accounts == old(store.accounts)
      && result == RegisterFailed("User creation failed - no user ID returned")
    ensures uniInsert.WriteOk? && signUp.SignedUp? && signUp.userId.Some? ==>
      var uid := signUp.userId.value;
      store.accounts == old(store.accounts)[uid := AuthUser(uid, email)]
      && (adminInsert.WriteFailed? ==>
            calls == [InsertUniversity, SignUp, InsertAdmin, DeleteUniversity]
            && result == RegisterFailed("Failed to create admin record: " + adminInsert.error))
      && (adminInsert.WriteOk? ==>
            var row := UniversityRow(uniId, universityName, city, email);
            calls == [InsertUniversity, SignUp, InsertAdmin, SignIn]
            && store.universities == old(store.universities)[uniId := row]
            && store.admins == old(store.admins)[uid := AdminRow(uid, email, Some(uniId), false)]
            && result == Registered(!autoSignIn, if autoSignIn then LoggedInMessage else ConfirmMessage, uid, row)
            && store.signedIn == if autoSignIn then Some(AuthUser(uid, email)) else old(store.signedIn))
    ensures result.RegisterFailed? ==> store.signedIn == old(store.signedIn)
    ensures uniId in store.universities <==> result.Registered?
    ensures result.Registered? ==> result.userId in store.admins && store.admins[result.userId].universityId == Some(uniId)
  {
    if uniInsert.WriteFailed? {
      return RegisterFailed("Failed to create university: " + uniInsert.error), [InsertUniversity];
    }
    var row := UniversityRow(uniId, universityName, city, email);
    store.universities := store.universities[uniId := row];
    calls := [InsertUniversity, SignUp];
    if signUp.SignUpFailed? {
      store.universities := store.universities - {uniId};
      assert store.universities == old(store.universities);
      return RegisterFailed("Auth signup failed: " + signUp.message), calls + [DeleteUniversity];
    }
    if signUp.userId.None? {
      store.universities := store.universities - {uniId};
      assert store.universities == old(store.universities);
      return RegisterFailed("User creation failed - no user ID returned"), calls + [DeleteUniversity];
    }
    var uid := signUp.userId.value;
    store.accounts := store.accounts[uid := AuthUser(uid, email)];
    calls := calls + [InsertAdmin];
    if adminInsert.WriteFailed? {
      store.universities := store.universities - {uniId};
      assert store.universities == old(store.universities);
      return RegisterFailed("Failed to create admin record: " + adminInsert.error), calls + [DeleteUniversity];
    }
    store.admins := store.admins[uid := AdminRow(uid, email, Some(uniId), false)];
    calls := calls + [SignIn];
    if autoSignIn {
      store.signedIn := Some(AuthUser(uid, email));
      result := Registered(false, LoggedInMessage, uid, row);
    } else {
      result := Registered(true, ConfirmMessage, uid, row);
    }
  }

  // ---------------------------------------------------------------------
  // Login and role check
  // ---------------------------------------------------------------------

  /** The provider's answer to `signInWithPassword`. */
  datatype SignInReply = SignInError(message: string) | SignedIn(user: Option<AuthUser>)

  datatype LoginResult =
    | LoggedIn(user: AuthUser, admin: AdminRow, university: Option<UniversityRow>)
    | LoginFailed(error: string, requiresEmailConfirmation: bool)

  const ConfirmEmailFirst := "Please confirm your email address before logging in. Check your inbox for the confirmation link."

  /** `error.message || fallback`. */
  function MessageOr(message: string, fallback: string): (r: string)
    ensures r != [] <== fallback != []
    ensures message != [] ==> r == message
  {
    if message == [] then fallback else message
  }

  /**
   * `loginAdmin`: sign in, then look the admin record up with its
   * university. An unconfirmed email is reported as such; a sign-in
   * without a user id or without an admin record fails.
   */
  method LoginAdmin(store: Store, email: string, password: string, reply: SignInReply) returns (result: LoginResult)
    modifies store`signedIn
    ensures reply.SignInError? ==>
      store.signedIn == old(store.signedIn)
      && result == if Contains(reply.message, "Email not confirmed") then LoginFailed(ConfirmEmailFirst, true)
                   else LoginFailed(MessageOr(reply.message, "Invalid email or password"), false)
    ensures reply == SignedIn(None) ==>
      store.signedIn == old(store.signedIn) && result == LoginFailed("Login failed - no user data returned", false)
    ensures reply.SignedIn? && reply.user.Some? ==>
      var u := reply.user.value;
      store.signedIn == Some(u)
      && (u.id !in store.admins ==> result == LoginFailed("Admin record not found", false))
      && (u.id in store.admins ==>
            var a := store.admins[u.id];
            result == LoggedIn(u, a, if a.universityId.Some? && a.universityId.value in store.universities
                                     then Some(store.universities[a.universityId.value]) else None))
    ensures result.LoggedIn? ==> result.user.id in store.admins && result.admin == store.admins[result.user.id]
  {
    if reply.SignInError? {
      if Contains(reply.message, "Email not confirmed") {
        return LoginFailed(ConfirmEmailFirst, true);
      }
      return LoginFailed(MessageOr(reply.message, "Invalid email or password"), false);
    }
    if reply.user.None? {
      return LoginFailed("Login failed - no user data returned", false);
    }
    var u := reply.user.value;
    store.signedIn := Some(u);
    if u.id !in store.admins {
      return LoginFailed("Admin record not found", false);
    }
    var a := store.admins[u.id];
    var uni := if a.universityId.Some? && a.universityId.value in store.universities
               then Some(store.universities[a.universityId.value]) else None;
    return LoggedIn(u, a, uni);
  }

  /**
   * `isSuperAdmin`: false without a signed-in user or when the lookup
   * fails (an error or no admin row), else the record's flag.
   */
  function IsSuperAdmin(signedIn: Option<AuthUser>, admins: map<string, AdminRow>, lookupFailed: bool): (r: bool)
    ensures r ==> signedIn.Some? && signedIn.value.id in admins && admins[signedIn.value.id].isSuperAdmin
    ensures signedIn.Some? && signedIn.value.id in admins && admins[signedIn.value.id].isSuperAdmin && !lookupFailed ==> r
    ensures lookupFailed ==> !r
  {
    signedIn.Some? && !lookupFailed && signedIn.value.id in admins && admins[signedIn.value.id].isSuperAdmin
  }

  /** An admin that registration creates is never a super admin. */
  lemma RegisteredIsNotSuperAdmin(admins: map<string, AdminRow>, uid: string, email: string, uniId: string, lookupFailed: bool)
    ensures !IsSuperAdmin(Some(AuthUser(uid, email)), admins[uid := AdminRow(uid, email, Some(uniId), false)], lookupFailed)
  {
  }
}
