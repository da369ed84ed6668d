/**
 * The admin session authority: which session an identity gets from its
 * admin record, the keyless super-admin login with a one-time key and a
 * ten-minute session, logout, and the building writes that keep at most
 * one admin building per university. The provider holds the session
 * state; the backend is the in-memory store of `AuthStore`.
 */
module AdminAuth {
  import opened Base
  import opened Campus
  import opened AuthStore

  datatype SessionUser = SessionUser(id: string, email: string, universityId: Option<string>, isSuperAdmin: bool)

  /** `adminSession`; only a keyless super-admin login sets `loginTime` and `expiresAt`. */
  datatype Session = Session(user: SessionUser, university: Option<UniversityRow>, loginTime: Option<int>,
                             expiresAt: Option<int>)

  /** Ten minutes in milliseconds. */
  const TenMinutes: int := 600000

  /** A super admin has no university; a regular admin has one and no expiry. */
  predicate WellFormed(s: Session)
  {
    if s.user.isSuperAdmin then s.user.universityId.None? && s.university.None?
    else Truthy(s.user.universityId) && s.university.Some? && s.loginTime.None? && s.expiresAt.None?
  }

  /**
   * `loadAdminSession` as a value: the session an identity gets from its
   * admin record, or none when the lookup fails, there is no record, or a
   * regular admin lacks a university id or a university row.
   */
  function DeriveSession(u: AuthUser, admins: map<string, AdminRow>, universities: map<string, UniversityRow>,
                         lookupFailed: bool): (r: Option<Session>)
    ensures r.Some? ==> WellFormed(r.value) && r.value.user.id == u.id && r.value.user.email == u.email
  {
    if lookupFailed || u.id !in admins then None
    else
      var a := admins[u.id];
      if a.isSuperAdmin then Some(Session(SessionUser(u.id, u.email, None, true), None, None, None))
      else if !Truthy(a.universityId) || a.universityId.value !in universities then None
      else Some(Session(SessionUser(u.id, u.email, a.universityId, false), Some(universities[a.universityId.value]),
                        None, None))
  }

  /**
   * Derivation fails closed: a session exists exactly when the record was
   * read and is either a super admin's or a regular admin's with a
   * university, and its role and university id are the record's.
   */
  lemma DeriveSessionFailsClosed(u: AuthUser, admins: map<string, AdminRow>, universities: map<string, UniversityRow>,
                                 lookupFailed: bool)
    ensures var r := DeriveSession(u, admins, universities, lookupFailed);
      (r.Some? <==> !lookupFailed && u.id in admins
                    && (admins[u.id].isSuperAdmin
                        || (Truthy(admins[u.id].universityId) && admins[u.id].universityId.value in universities)))
      && (r.Some? ==> r.value.user.isSuperAdmin == admins[u.id].isSuperAdmin
                      && r.value.user.universityId == (if admins[u.id].isSuperAdmin then None else admins[u.id].universityId))
  {
  }

  // ---------------------------------------------------------------------
  // Building writes
  // ---------------------------------------------------------------------

  /** What the building form hands to `addBuilding`, in both spellings the provider reads. */
  datatype BuildingData = BuildingData(
    name: string,
    coordinates: Coordinates,
    category: Option<string>,
    description: Option<string>,
    facilities: Option<seq<string>>,
    departments: Option<seq<string>>,
    hours: Option<string>,
    isAdminBuilding: Option<bool>,
    keyOffices: Option<seq<KeyOffice>>,
    keyOfficesSnake: Option<seq<KeyOffice>>)

  /** The fields of an update; `None` is an undefined field. */
  datatype BuildingUpdate = BuildingUpdate(
    name: Option<string>,
    coordinates: Option<Coordinates>,
    category: Option<string>,
    description: Option<string>,
    facilities: Option<seq<string>>,
    departments: Option<seq<string>>,
    hours: Option<string>,
    isAdminSnake: Option<bool>,
    isAdminCamel: Option<bool>,
    keyOffices: Option<seq<KeyOffice>>)

  datatype Outcome = Succeeded(message: string) | Failed(error: string)

  /** `value || null`. */
  function NullIfEmpty(s: Option<string>): (r: Option<string>)
    ensures r.Some? <==> Truthy(s)
    ensures r.Some? ==> r == s
  {
    if Truthy(s) then s else None
  }

  /** The row `addBuilding` inserts for the caller's university. */
  function NewBuilding(data: BuildingData, universityId: string, id: string): (b: Building)
    ensures b.id == id && b.universityId == Some(universityId) && b.name == data.name
    ensures b.isAdminBuilding <==> data.isAdminBuilding == Some(true)
    ensures b.facilities.Some? && b.departments.Some? && b.keyOffices.None?
  {
    Building(id, Some(universityId), data.name, data.coordinates, NullIfEmpty(data.category),
             NullIfEmpty(data.description), Some(if data.facilities.Some? then data.facilities.value else []),
             Some(if data.departments.Some? then data.departments.value else []), NullIfEmpty(data.hours),
             data.isAdminBuilding == Some(true), None, [], 0)
  }

  function OfficeRowOf(buildingId: string, o: KeyOffice): OfficeRow
  {
    OfficeRow(buildingId, o.name, NullIfEmpty(Some(o.purpose)), NullIfEmpty(Some(o.hours)), NullIfEmpty(Some(o.roomNumber)))
  }

  /** The `key_offices` rows created for a building: one per office, in order. */
  function OfficeRows(buildingId: string, offices: Option<seq<KeyOffice>>): (r: seq<OfficeRow>)
    ensures |r| == if offices.Some? then |offices.value| else 0
    ensures forall k :: 0 <= k < |r| ==> r[k].buildingId == buildingId && r[k].name == offices.value[k].name
  {
    if offices.None? then [] else seq(|offices.value|, k requires 0 <= k < |offices.value| => OfficeRowOf(buildingId, offices.value[k]))
  }

  /** The flag an update writes: the snake_case field, and the camelCase one when that is undefined. */
  function AdminFlag(u: BuildingUpdate): (r: Option<bool>)
    ensures u.isAdminSnake.Some? ==> r == u.isAdminSnake
    ensures u.isAdminSnake.None? ==> r == u.isAdminCamel
  {
    if u.isAdminSnake.Some? then u.isAdminSnake else u.isAdminCamel
  }

  function Pick<T>(update: Option<T>, current: T): T
  {
    if update.Some? then update.value else current
  }

  function PickMaybe<T>(update: Option<T>, current: Option<T>): Option<T>
  {
    if update.Some? then update else current
  }

  /** The row after an update: defined fields are written, undefined ones are left as they are. */
  function ApplyUpdate(b: Building, u: BuildingUpdate): Building
  {
    b.(name := Pick(u.name, b.name), coordinates := Pick(u.coordinates, b.coordinates),
       category := PickMaybe(u.category, b.category), description := PickMaybe(u.description, b.description),
       facilities := PickMaybe(u.facilities, b.facilities), departments := PickMaybe(u.departments, b.departments),
       hours := PickMaybe(u.hours, b.hours), isAdminBuilding := Pick(AdminFlag(u), b.isAdminBuilding))
  }

  /**
   * Undefined fields are dropped from the update: an update that defines
   * nothing leaves the row as it was, and no update changes the row's id,
   * university or room counts.
   */
  lemma ApplyUpdateKeeps(b: Building, u: BuildingUpdate)
    ensures var r := ApplyUpdate(b, u);
      r.id == b.id && r.universityId == b.universityId && r.roomsAggregate == b.roomsAggregate
      && (r.name == if u.name.Some? then u.name.value else b.name)
      && (r.isAdminBuilding == if AdminFlag(u).Some? then AdminFlag(u).value else b.isAdminBuilding)
    ensures u == BuildingUpdate(None, None, None, None, None, None, None, None, None, None) ==> ApplyUpdate(b, u) == b
  {
  }

  function UpdateById(bs: seq<Building>, id: string, u: BuildingUpdate): (r: seq<Building>)
    ensures |r| == |bs|
  {
    seq(|bs|, k requires 0 <= k < |bs| => if bs[k].id == id then ApplyUpdate(bs[k], u) else bs[k])
  }

  /** The unmark loop clears the flag of this building: an admin building of the university other than `keep`. */
  predicate Unmarks(b: Building, universityId: string, keep: Option<string>)
  {
    b.universityId == Some(universityId) && b.isAdminBuilding && Some(b.id) != keep
  }

  /** The table after the unmark loop. */
  function Unmarked(bs: seq<Building>, universityId: string, keep: Option<string>): (r: seq<Building>)
    ensures |r| == |bs|
  {
    seq(|bs|, k requires 0 <= k < |bs| =>
      if Unmarks(bs[k], universityId, keep) then bs[k].(isAdminBuilding := false) else bs[k])
  }

  /** At most one admin building per university. */
  ghost predicate OneAdminPerUniversity(bs: seq<Building>)
  {
    forall i, j :: 0 <= i < |bs| && 0 <= j < |bs| && bs[i].isAdminBuilding && bs[j].isAdminBuilding
                   && bs[i].universityId.Some? && bs[i].universityId == bs[j].universityId
                   ==> i == j
  }

  ghost predicate UniqueBuildingIds(bs: seq<Building>)
  {
    forall i, j :: 0 <= i < |bs| && 0 <= j < |bs| && bs[i].id == bs[j].id ==> i == j
  }

  /** After unmarking without an exception, the university has no admin building left. */
  lemma UnmarkedClears(bs: seq<Building>, universityId: string)
    ensures forall k :: 0 <= k < |bs| ==>
      var b := Unmarked(bs, universityId, None)[k];
      b.universityId == Some(universityId) ==> !b.isAdminBuilding
  {
  }

  /**
   * `addBuilding` keeps at most one admin building per university: an
   * admin building is added only after its university's others have been
   * unmarked.
   */
  lemma AddKeepsOneAdmin(bs: seq<Building>, row: Building, universityId: string)
    requires OneAdminPerUniversity(bs)
    requires row.universityId == Some(universityId)
    ensures OneAdminPerUniversity((if row.isAdminBuilding then Unmarked(bs, universityId, None) else bs) + [row])
  {
    if row.isAdminBuilding {
      UnmarkedClears(bs, universityId);
    }
  }

  /**
   * A regular admin's update keeps at most one admin building per
   * university, for a building of the admin's own university, when the
   * flag it sets true is the snake_case one (the building form sends both).
   */
  lemma UpdateKeepsOneAdmin(bs: seq<Building>, id: string, u: BuildingUpdate, universityId: string)
    requires OneAdminPerUniversity(bs) && UniqueBuildingIds(bs)
    requires forall k :: 0 <= k < |bs| && bs[k].id == id ==> bs[k].universityId == Some(universityId)
    requires AdminFlag(u) == Some(true) ==> u.isAdminSnake == Some(true)
    ensures OneAdminPerUniversity(UpdateById(if u.isAdminSnake == Some(true) then Unmarked(bs, universityId, Some(id))
                                             else bs, id, u))
  {
    var before := if u.isAdminSnake == Some(true) then Unmarked(bs, universityId, Some(id)) else bs;
    var after := UpdateById(before, id, u);
    forall i, j | 0 <= i < |after| && 0 <= j < |after| && after[i].isAdminBuilding && after[j].isAdminBuilding
                  && after[i].universityId.Some? && after[i].universityId == after[j].universityId
      ensures i == j
    {
      ApplyUpdateKeeps(before[i], u);
      ApplyUpdateKeeps(before[j], u);
    }
  }

  // ---------------------------------------------------------------------
  // Super-admin key
  // ---------------------------------------------------------------------

  /** `Math.floor(100000 + r * 900000)` for `r = Math.random()`. */
  function SecretKeyNumber(r: real): (n: int)
    requires 0.0 <= r < 1.0
    ensures 100000 <= n <= 999999
  {
    (100000.0 + r * 900000.0).Floor
  }

  function SecretKey(r: real): string
    requires 0.0 <= r < 1.0
  {
    NatToString(SecretKeyNumber(r))
  }

  /** The key is six decimal digits that read back as the drawn number. */
  lemma SecretKeyDigits(r: real)
    requires 0.0 <= r < 1.0
    ensures |SecretKey(r)| == 6
    ensures forall i :: 0 <= i < 6 ==> IsDigit(SecretKey(r)[i])
    ensures ParseDigits(SecretKey(r)) == SecretKeyNumber(r)
  {
    assert Pow10(5) == 100000 && Pow10(6) == 1000000;
    NatToStringLength(SecretKeyNumber(r), 6);
    ParseNatToString(SecretKeyNumber(r));
  }

  /** The unused keys with the given secret, as `.eq('secret_key', k).eq('used', false)` selects them. */
  function Matching(keys: seq<KeyRow>, input: string): (r: seq<KeyRow>)
    ensures forall k :: 0 <= k < |r| ==> r[k].secretKey == input && !r[k].used
  {
    Filter(keys, (k: KeyRow) => k.secretKey == input && !k.used)
  }

  /** Marks the rows with the given id used at `now`. */
  function MarkUsed(keys: seq<KeyRow>, id: nat, now: int): (r: seq<KeyRow>)
    ensures |r| == |keys|
  {
    if keys == [] then []
    else [if keys[0].id == id then keys[0].(used := true, usedAt := Some(now)) else keys[0]] + MarkUsed(keys[1..], id, now)
  }

  /** Marking a key used removes exactly the rows with its id from every later match. */
  lemma {:induction false} MatchingAfterMark(keys: seq<KeyRow>, id: nat, now: int, input: string)
    ensures Matching(MarkUsed(keys, id, now), input) == Filter(Matching(keys, input), (k: KeyRow) => k.id != id)
  {
    if keys != [] {
      MatchingAfterMark(keys[1..], id, now, input);
      var m := MarkUsed(keys, id, now);
      assert m[1..] == MarkUsed(keys[1..], id, now);
      var p := (k: KeyRow) => k.secretKey == input && !k.used;
      var q := (k: KeyRow) => k.id != id;
      assert Matching(keys, input) == (if p(keys[0]) then [keys[0]] else []) + Matching(keys[1..], input);
      FilterConcat(if p(keys[0]) then [keys[0]] else [], Matching(keys[1..], input), q);
    }
  }

  /** A key that logged in once and was marked used matches no later login. */
  lemma KeyIsSingleUse(keys: seq<KeyRow>, input: string, now: int)
    requires |Matching(keys, input)| == 1
    ensures Matching(MarkUsed(keys, Matching(keys, input)[0].id, now), input) == []
  {
    var m := Matching(keys, input);
    MatchingAfterMark(keys, m[0].id, now, input);
    assert m == [m[0]];
    assert Filter(m, (k: KeyRow) => k.id != m[0].id) == [];
  }

  function SuperAdminIds(admins: map<string, AdminRow>): set<string>
  {
    set id | id in admins && admins[id].isSuperAdmin
  }

  /** The session a keyless super-admin login installs at `now`. */
  function SuperSession(a: AdminRow, now: int): (s: Session)
    ensures WellFormed(s) && s.user.isSuperAdmin && s.user.universityId.None?
    ensures s.expiresAt == Some(now + TenMinutes)
  {
    Session(SessionUser(a.id, a.email, None, true), None, Some(now), Some(now + TenMinutes))
  }

  /** The interval check's condition: a super-admin session with a (non-zero) expiry that has passed. */
  predicate Expired(s: Option<Session>, now: int)
  {
    s.Some? && s.value.user.isSuperAdmin && s.value.expiresAt.Some? && s.value.expiresAt.value != 0
    && now > s.value.expiresAt.value
  }

  /**
   * A keyless session, installed or extended at `t`, lasts ten minutes:
   * the expiry check clears it exactly after `t + 600000`; a regular
   * admin's session never expires this way.
   */
  lemma SessionLastsTenMinutes(a: AdminRow, s: Session, t: int, now: int)
    requires t >= 0
    ensures Expired(Some(SuperSession(a, t)), now) <==> now > t + TenMinutes
    ensures s.user.isSuperAdmin ==> (Expired(Some(s.(expiresAt := Some(t + TenMinutes))), now) <==> now > t + TenMinutes)
    ensures WellFormed(s) && !s.user.isSuperAdmin ==> !Expired(Some(s), now)
  {
  }

  // ---------------------------------------------------------------------
  // The provider
  // ---------------------------------------------------------------------

  datatype LoginReply = LoginOk | LoginRefused(error: string, requiresEmailConfirmation: bool)

  class AdminAuthProvider {
    const store: Store
    var adminSession: Option<Session>
    var loading: bool
    var user: Option<AuthUser>
    var superAdminKey: Option<string>
    var superAdminKeyExpiry: Option<int>

    /**
     * Every session is well formed; a regular admin's session belongs to
     * the signed-in user; the pending key and its expiry are set together.
     */
    ghost predicate Valid()
      reads this
    {
      (adminSession.Some? ==> WellFormed(adminSession.value))
      && (adminSession.Some? && !adminSession.value.user.isSuperAdmin ==>
            user == Some(AuthUser(adminSession.value.user.id, adminSession.value.user.email)))
      && (superAdminKey.Some? <==> superAdminKeyExpiry.Some?)
    }

    constructor (store: Store)
      ensures this.store == store && Valid()
      ensures adminSession == None && loading && user == None && superAdminKey == None && superAdminKeyExpiry == None
    {
      this.store := store;
      adminSession := None;
      loading := true;
      user := None;
      superAdminKey := None;
      superAdminKeyExpiry := None;
    }

    /**
     * `loadAdminSession` for the user just recorded: the derived session,
     * and on failure a provider sign-out that also forgets the user.
     */
    method LoadAdminSession(authUser: AuthUser, lookupFailed: bool)
      requires user == Some(authUser) && (superAdminKey.Some? <==> superAdminKeyExpiry.Some?)
      modifies this`adminSession, this`user, this`loading, store`signedIn
      ensures Valid() && !loading
      ensures adminSession == DeriveSession(authUser, store.admins, store.universities, lookupFailed)
      ensures adminSession.None? ==> user == None && store.signedIn == None
      ensures adminSession.Some? ==> user == old(user) && store.signedIn == old(store.signedIn)
    {
      var derived := DeriveSession(authUser, store.admins, store.universities, lookupFailed);
      if derived.None? {
        store.signedIn := None;
        adminSession := None;
        user := None;
      } else {
        adminSession := derived;
      }
      loading := false;
    }

    /** The initial session check on mount: a signed-in identity is loaded, otherwise loading just ends. */
    method Start(lookupFailed: bool)
      requires Valid() && adminSession == None
      modifies this`adminSession, this`user, this`loading, store`signedIn
      ensures Valid() && !loading
      ensures old(store.signedIn).None? ==> user == None && adminSession == old(adminSession) && store.signedIn == None
      ensures old(store.signedIn).Some? ==>
        adminSession == DeriveSession(old(store.signedIn).value, store.admins, store.universities, lookupFailed)
    {
      user := store.signedIn;
      if store.signedIn.Some? {
        LoadAdminSession(store.signedIn.value, lookupFailed);
      } else {
        loading := false;
      }
    }

    /** The auth-state listener: like the initial check, but a signed-out state also clears the session. */
    method AuthStateChanged(lookupFailed: bool)
      requires Valid()
      modifies this`adminSession, this`user, this`loading, store`signedIn
      ensures Valid() && !loading
      ensures old(store.signedIn).None? ==> user == None && adminSession == None
      ensures old(store.signedIn).Some? ==>
        adminSession == DeriveSession(old(store.signedIn).value, store.admins, store.universities, lookupFailed)
    {
      user := store.signedIn;
      if store.signedIn.Some? {
        LoadAdminSession(store.signedIn.value, lookupFailed);
      } else {
        adminSession := None;
        loading := false;
      }
    }

    /**
     * `adminLogin`: only signs in; the session itself is loaded by the
     * listener. An unconfirmed email is reported as such.
     */
    method AdminLogin(email: string, password: string, reply: SignInReply) returns (result: LoginReply)
      modifies store`signedIn
      ensures reply.SignInError? ==>
        store.signedIn == old(store.signedIn)
        && result == if Contains(reply.message, "Email not confirmed")
                     then LoginRefused("Please confirm your email address before logging in.", true)
                     else LoginRefused(reply.message, false)
      ensures reply.SignedIn? ==>
        result == LoginOk && store.signedIn == if reply.user.Some? then reply.user else old(store.signedIn)
    {
      if reply.SignInError? {
        if Contains(reply.message, "Email not confirmed") {
          return LoginRefused("Please confirm your email address before logging in.", true);
        }
        return LoginRefused(reply.message, false);
      }
      if reply.user.Some? {
        store.signedIn := reply.user;
      }
      return LoginOk;
    }

    /**
     * `logout`: a keyless super-admin session only forgets the session;
     * any other also signs out of the provider and forgets the user.
     */
    method Logout()
      requires Valid()
      modifies this`adminSession, this`user, store`signedIn
      ensures Valid() && adminSession == None
      ensures old(adminSession).Some? && old(adminSession).value.user.isSuperAdmin && old(user).None? ==>
        user == None && store.signedIn == old(store.signedIn)
      ensures !(old(adminSession).Some? && old(adminSession).value.user.isSuperAdmin && old(user).None?) ==>
        user == None && store.signedIn == None
    {
      if adminSession.Some? && adminSession.value.user.isSuperAdmin && user.None? {
        adminSession := None;
        return;
      }
      store.signedIn := None;
      adminSession := None;
      user := None;
    }

    /** The unmark loop: clear the flag of every admin building of the university except `keep`. */
    method UnmarkAdminBuildings(universityId: string, keep: Option<string>)
      modifies store`buildings
      ensures store.buildings == Unmarked(old(store.buildings), universityId, keep)
    {
      ghost var target := Unmarked(store.buildings, universityId, keep);
      var i := 0;
      while i < |store.buildings|
        invariant 0 <= i <= |store.buildings| == |target|
        invariant forall k :: 0 <= k < i ==> store.buildings[k] == target[k]
        invariant forall k :: i <= k < |store.buildings| ==> store.buildings[k] == old(store.buildings)[k]
      {
        var b := store.buildings[i];
        if b.universityId == Some(universityId) && b.isAdminBuilding && Some(b.id) != keep {
          store.buildings := store.buildings[i := b.(isAdminBuilding := false)];
        }
        i := i + 1;
      }
      assert store.buildings == target;
    }

    /**
     * `addBuilding`: refused without a session or a university; an admin
     * building first unmarks the university's others (when the list could
     * be read), then the row and its key offices are created.
     */
    method AddBuilding(data: BuildingData, newId: string, listOk: bool, create: WriteReply) returns (result: Outcome)
      modifies store`buildings, store`offices
      ensures adminSession.None? ==> result == Failed("Not authenticated") && unchanged(store)
      ensures adminSession.Some? && !Truthy(adminSession.value.user.universityId) ==>
        result == Failed("Super admin cannot add buildings") && unchanged(store)
      ensures adminSession.Some? && Truthy(adminSession.value.user.universityId) ==>
        var uni := adminSession.value.user.universityId.value;
        var unmarked := if data.isAdminBuilding == Some(true) && listOk then Unmarked(old(store.buildings), uni, None)
                        else old(store.buildings);
        (create.WriteFailed? ==>
           result == Failed(create.error) && store.buildings == unmarked && store.offices == old(store.offices))
        && (create.WriteOk? ==>
              result == Succeeded(newId) && store.buildings == unmarked + [NewBuilding(data, uni, newId)]
              && store.offices == old(store.offices) + OfficeRows(newId, data.keyOffices) + OfficeRows(newId, data.keyOfficesSnake))
    {
      if adminSession.None? {
        return Failed("Not authenticated");
      }
      if !Truthy(adminSession.value.user.universityId) {
        return Failed("Super admin cannot add buildings");
      }
      var uni := adminSession.value.user.universityId.value;
      if data.isAdminBuilding == Some(true) && listOk {
        UnmarkAdminBuildings(uni, None);
      }
      if create.WriteFailed? {
        return Failed(create.error);
      }
      store.buildings := store.buildings + [NewBuilding(data, uni, newId)];
      if data.keyOffices.Some? && |data.keyOffices.value| > 0 {
        store.offices := store.offices + OfficeRows(newId, data.keyOffices);
      }
      if data.keyOfficesSnake.Some? && |data.keyOfficesSnake.value| > 0 {
        store.offices := store.offices + OfficeRows(newId, data.keyOfficesSnake);
      }
      return Succeeded(newId);
    }

    /**
     * `updateBuilding`: refused without a session or a role; a regular
     * admin setting the snake_case flag first unmarks the university's
     * other admin buildings; then the defined fields are written and, when
     * offices are given, the building's offices are replaced.
     */
    method UpdateBuilding(buildingId: string, u: BuildingUpdate, listOk: bool, write: WriteReply) returns (result: Outcome)
      modifies store`buildings, store`offices
      ensures adminSession.None? ==> result == Failed("Not authenticated") && unchanged(store)
      ensures adminSession.Some? && !adminSession.value.user.isSuperAdmin && !Truthy(adminSession.value.user.universityId) ==>
        result == Failed("Unauthorized") && unchanged(store)
      ensures adminSession.Some? && (adminSession.value.user.isSuperAdmin || Truthy(adminSession.value.user.universityId)) ==>
        var s := adminSession.value.user;
        var unmarked := if u.isAdminSnake == Some(true) && !s.isSuperAdmin && listOk
                        then Unmarked(old(store.buildings), s.universityId.value, Some(buildingId))
                        else old(store.buildings);
        (write.WriteFailed? ==>
           result == Failed(write.error) && store.buildings == unmarked && store.offices == old(store.offices))
        && (write.WriteOk? ==>
              result == Succeeded(buildingId) && store.buildings == UpdateById(unmarked, buildingId, u)
              && store.offices == if u.keyOffices.Some?
                                  then Filter(old(store.offices), (o: OfficeRow) => o.buildingId != buildingId)
                                       + OfficeRows(buildingId, u.keyOffices)
                                  else old(store.offices))
    {
      if adminSession.None? {
        return Failed("Not authenticated");
      }
      var s := adminSession.value.user;
      if !(s.isSuperAdmin || Truthy(s.universityId)) {
        return Failed("Unauthorized");
      }
      if u.isAdminSnake == Some(true) && !s.isSuperAdmin && listOk {
        UnmarkAdminBuildings(s.universityId.value, Some(buildingId));
      }
      if write.WriteFailed? {
        return Failed(write.error);
      }
      store.buildings := UpdateById(store.buildings, buildingId, u);
      if u.keyOffices.Some? {
        store.offices := Filter(store.offices, (o: OfficeRow) => o.buildingId != buildingId);
        if |u.keyOffices.value| > 0 {
          store.offices := store.offices + OfficeRows(buildingId, u.keyOffices);
        }
      }
      return Succeeded(buildingId);
    }

    /** `deleteBuilding`: refused without a session; a confirmed delete removes the rows with that id. */
    method DeleteBuilding(buildingId: string, write: WriteReply) returns (result: Outcome)
      modifies store`buildings
      ensures adminSession.None? ==> result == Failed("Not authenticated") && unchanged(store)
      ensures adminSession.Some? && write.WriteFailed? ==> result == Failed(write.error) && unchanged(store)
      ensures adminSession.Some? && write.WriteOk? ==>
        result == Succeeded(buildingId) && store.buildings == Filter(old(store.buildings), (b: Building) => b.id != buildingId)
    {
      if adminSession.None? {
        return Failed("Not authenticated");
      }
      if write.WriteFailed? {
        return Failed(write.error);
      }
      store.buildings := Filter(store.buildings, (b: Building) => b.id != buildingId);
      return Succeeded(buildingId);
    }

    /**
     * `sendSuperAdminKeyEmail`: stores a fresh unused six-digit key valid
     * for ten minutes, then asks for the email. A failed insert stops
     * before the email; a failed email leaves the key stored.
     */
    method SendSuperAdminKeyEmail(r: real, now: int, insert: WriteReply, email: WriteReply) returns (result: Outcome)
      requires 0.0 <= r < 1.0 && Valid()
      modifies store`keys, this`superAdminKey, this`superAdminKeyExpiry
      ensures Valid()
      ensures insert.WriteFailed? ==>
        result == Failed("Failed to save key to database") && store.keys == old(store.keys)
        && superAdminKey == old(superAdminKey) && superAdminKeyExpiry == old(superAdminKeyExpiry)
      ensures insert.WriteOk? ==>
        store.keys == old(store.keys) + [KeyRow(|old(store.keys)|, SecretKey(r), now + TenMinutes, false, None)]
        && superAdminKey == Some(SecretKey(r)) && superAdminKeyExpiry == Some(now + TenMinutes)
        && result == if email.WriteFailed? then Failed(MessageOr(email.error, "Failed to send secret key"))
                     else Succeeded("Secret key sent to admin email")
    {
      var secret := SecretKey(r);
      if insert.WriteFailed? {
        return Failed("Failed to save key to database");
      }
      store.keys := store.keys + [KeyRow(|store.keys|, secret, now + TenMinutes, false, None)];
      superAdminKey := Some(secret);
      superAdminKeyExpiry := Some(now + TenMinutes);
      if email.WriteFailed? {
        return Failed(MessageOr(email.error, "Failed to send secret key"));
      }
      return Succeeded("Secret key sent to admin email");
    }

    /**
     * `loginSuperAdmin`: exactly one unused key with that secret, not yet
     * expired, is marked used (a failure to mark is only logged); then the
     * single super-admin record gets a ten-minute keyless session.
     */
    method LoginSuperAdmin(inputKey: string, now: int, mark: WriteReply) returns (result: Outcome)
      requires Valid()
      modifies store`keys, this`adminSession, this`superAdminKey, this`superAdminKeyExpiry
      ensures Valid()
      ensures |Matching(old(store.keys), inputKey)| != 1 ==>
        result == Failed("Invalid secret key") && store.keys == old(store.keys) && adminSession == old(adminSession)
      ensures |Matching(old(store.keys), inputKey)| == 1 && Matching(old(store.keys), inputKey)[0].expiresAt < now ==>
        result == Failed("Secret key has expired. Please request a new one.")
        && store.keys == old(store.keys) && adminSession == old(adminSession)
      ensures |Matching(old(store.keys), inputKey)| == 1 && Matching(old(store.keys), inputKey)[0].expiresAt >= now ==>
        store.keys == (if mark.WriteOk? then MarkUsed(old(store.keys), Matching(old(store.keys), inputKey)[0].id, now)
                       else old(store.keys))
        && (|SuperAdminIds(store.admins)| != 1 ==>
              result == Failed("Super admin not found in database") && adminSession == old(adminSession))
        && (|SuperAdminIds(store.admins)| == 1 ==>
              result == Succeeded("Super admin login successful") && superAdminKey == None && superAdminKeyExpiry == None
              && exists id :: SuperAdminIds(store.admins) == {id} && adminSession == Some(SuperSession(store.admins[id], now)))
      ensures result.Failed? ==> superAdminKey == old(superAdminKey) && superAdminKeyExpiry == old(superAdminKeyExpiry)
    {
      var matches := Matching(store.keys, inputKey);
      if |matches| != 1 {
        return Failed("Invalid secret key");
      }
      var record := matches[0];
      if record.expiresAt < now {
        return Failed("Secret key has expired. Please request a new one.");
      }
      if mark.WriteOk? {
        store.keys := MarkUsed(store.keys, record.id, now);
      }
      result := InstallSuperSession(now);
    }

    /** The end of a keyless login: the single super-admin record gets a session and the pending key is dropped. */
    method InstallSuperSession(now: int) returns (result: Outcome)
      requires Valid()
      modifies this`adminSession, this`superAdminKey, this`superAdminKeyExpiry
      ensures Valid()
      ensures |SuperAdminIds(store.admins)| != 1 ==>
        result == Failed("Super admin not found in database") && adminSession == old(adminSession)
        && superAdminKey == old(superAdminKey) && superAdminKeyExpiry == old(superAdminKeyExpiry)
      ensures |SuperAdminIds(store.admins)| == 1 ==>
        result == Succeeded("Super admin login successful") && superAdminKey == None && superAdminKeyExpiry == None
        && exists id :: SuperAdminIds(store.admins) == {id} && adminSession == Some(SuperSession(store.admins[id], now))
    {
      var ids := SuperAdminIds(store.admins);
      if |ids| != 1 {
        return Failed("Super admin not found in database");
      }
      var id :| id in ids;
      assert |ids - {id}| == 0;
      assert ids == {id} by {
        assert ids - {id} == {};
      }
      adminSession := Some(SuperSession(store.admins[id], now));
      superAdminKey := None;
      superAdminKeyExpiry := None;
      return Succeeded("Super admin login successful");
    }

    /** `extendSuperAdminSession`: only a super-admin session, and only its expiry, changes. */
    method ExtendSuperAdminSession(now: int) returns (result: Outcome)
      requires Valid()
      modifies this`adminSession
      ensures Valid()
      ensures old(adminSession).None? || !old(adminSession).value.user.isSuperAdmin ==>
        result == Failed("Not logged in as super admin") && adminSession == old(adminSession)
      ensures old(adminSession).Some? && old(adminSession).value.user.isSuperAdmin ==>
        result == Succeeded("Session extended by 10 minutes")
        && adminSession == Some(old(adminSession).value.(expiresAt := Some(now + TenMinutes)))
    {
      if adminSession.None? || !adminSession.value.user.isSuperAdmin {
        return Failed("Not logged in as super admin");
      }
      adminSession := Some(adminSession.value.(expiresAt := Some(now + TenMinutes)));
      return Succeeded("Session extended by 10 minutes");
    }

    /** One run of the interval check: an expired keyless session is cleared, anything else stays. */
    method CheckExpiry(now: int)
      requires Valid()
      modifies this`adminSession
      ensures Valid()
      ensures adminSession == if Expired(old(adminSession), now) then None else old(adminSession)
    {
      if Expired(adminSession, now) {
        adminSession := None;
      }
    }
  }
}
