/** Whether an access token is still alive (internal/identity/state.go), and everything that can change the answer. */
module Authority {
  import opened Common
  import opened JwtRotation
  import opened PermissionList

  datatype User = User(tenant: string, active: bool, suspended: bool, pwdVersion: int, authEpoch: int)
  datatype Session = Session(tenant: string, user: nat, revoked: bool, expiresAt: int)
  datatype Role = Role(tenant: string, permissions: set<string>)

  datatype DB = DB(
    users: map<nat, User>,
    tenants: map<string, bool>,                  // tenant to is_active
    sessions: map<string, Session>,
    revocations: set<(string, string)>,          // (tenant, jti)
    roles: map<nat, Role>,
    userRoles: set<(nat, nat)>,                  // (user, role)
    now: int)

  // ----- The check -----

  predicate Grants(db: DB, tenant: string, uid: nat, r: nat) {
    && r in db.roles && (uid, r) in db.userRoles && db.roles[r].tenant == tenant
    && uid in db.users && db.users[uid].tenant == tenant
  }

  /** GetUserPermissions, as a set. */
  function LivePermissions(db: DB, tenant: string, uid: nat): set<string> {
    set r, p | r in db.roles && Grants(db, tenant, uid, r) && p in db.roles[r].permissions :: p
  }

  function Signed(c: Claims): seq<string> {
    if c.permissions.Some? then c.permissions.value else []
  }

  predicate UserAlive(db: DB, c: Claims) {
    && c.userID in db.users && db.users[c.userID].tenant == c.tenantID
    && db.users[c.userID].active && !db.users[c.userID].suspended
    && db.users[c.userID].pwdVersion == c.pwdVer && db.users[c.userID].authEpoch == c.authEpoch
  }

  predicate SessionAlive(db: DB, c: Claims) {
    && c.sid in db.sessions && db.sessions[c.sid].tenant == c.tenantID && db.sessions[c.sid].user == c.userID
    && !db.sessions[c.sid].revoked && db.now < db.sessions[c.sid].expiresAt
  }

  /** The durable state allows the token. */
  predicate Accepts(db: DB, c: Claims) {
    && c.tenantID != "" && c.sid != "" && c.jti != ""
    && UserAlive(db, c)
    && c.tenantID in db.tenants && db.tenants[c.tenantID]
    && SessionAlive(db, c)
    && (c.tenantID, c.jti) !in db.revocations
    && LivePermissions(db, c.tenantID, c.userID) == Elements(Signed(c))
  }

  // ----- What changes the durable state -----

  datatype Step =
    | CreateUser(uid: nat, tenant: string)
    | BumpPwdVersion(uid: nat, tenant: string)
    | CredentialChange(uid: nat, tenant: string)
    | Deactivate(uid: nat, tenant: string)
    | Suspend(uid: nat, tenant: string)
    | CreateSession(sid: string, uid: nat, tenant: string, expiresAt: int)
    | RevokeSession(sid: string, uid: nat, tenant: string)
    | RevokeSessions(uid: nat, tenant: string)
    | RevokeAccess(tenant: string, jti: string)
    | CreateRole(rid: nat, tenant: string, permissions: set<string>)
    | AssignRole(uid: nat, rid: nat, tenant: string)
    | Tick(delta: nat)

  predicate Owned(db: DB, uid: nat, tenant: string) {
    uid in db.users && db.users[uid].tenant == tenant
  }

  /** Owner and role are of the caller's tenant, and the pair is new. */
  predicate Assignable(db: DB, uid: nat, rid: nat, tenant: string) {
    Owned(db, uid, tenant) && rid in db.roles && db.roles[rid].tenant == tenant && (uid, rid) !in db.userRoles
  }

  function WithUser(db: DB, uid: nat, u: User): DB {
    db.(users := db.users[uid := u])
  }

  function AllRevoked(db: DB, uid: nat, tenant: string): DB {
    db.(sessions := map s | s in db.sessions ::
      if db.sessions[s].user == uid && db.sessions[s].tenant == tenant then db.sessions[s].(revoked := true) else db.sessions[s])
  }

  /** One committed operation; one that fails leaves the state as it was. */
  function Apply(db: DB, step: Step): DB {
    match step
    case CreateUser(uid, tenant) =>
      if uid in db.users then db else WithUser(db, uid, User(tenant, true, false, 0, 0))
    case BumpPwdVersion(uid, tenant) =>
      if !Owned(db, uid, tenant) then db else WithUser(db, uid, db.users[uid].(pwdVersion := db.users[uid].pwdVersion + 1))
    case CredentialChange(uid, tenant) =>
      if !Owned(db, uid, tenant) then db
      else AllRevoked(WithUser(db, uid, db.users[uid].(pwdVersion := db.users[uid].pwdVersion + 1)), uid, tenant)
    case Deactivate(uid, tenant) =>
      if !Owned(db, uid, tenant) then db else WithUser(db, uid, db.users[uid].(active := false))
    case Suspend(uid, tenant) =>
      if !Owned(db, uid, tenant) then db
      else AllRevoked(WithUser(db, uid, db.users[uid].(suspended := true, pwdVersion := db.users[uid].pwdVersion + 1,
                                                       authEpoch := db.users[uid].authEpoch + 1)), uid, tenant)
    case CreateSession(sid, uid, tenant, expiresAt) =>
      if !Owned(db, uid, tenant) || sid in db.sessions then db
      else db.(sessions := db.sessions[sid := Session(tenant, uid, false, expiresAt)])
    case RevokeSession(sid, uid, tenant) =>
      if sid in db.sessions && db.sessions[sid].tenant == tenant && db.sessions[sid].user == uid
      then db.(sessions := db.sessions[sid := db.sessions[sid].(revoked := true)]) else db
    case RevokeSessions(uid, tenant) => if Owned(db, uid, tenant) then AllRevoked(db, uid, tenant) else db
    case RevokeAccess(tenant, jti) => if jti == "" then db else db.(revocations := db.revocations + {(tenant, jti)})
    case CreateRole(rid, tenant, permissions) =>
      if rid in db.roles then db else db.(roles := db.roles[rid := Role(tenant, permissions)])
    case AssignRole(uid, rid, tenant) =>
      if !Assignable(db, uid, rid, tenant) then db
      else WithUser(db, uid, db.users[uid].(authEpoch := db.users[uid].authEpoch + 1)).(userRoles := db.userRoles + {(uid, rid)})
    case Tick(delta) => db.(now := db.now + delta)
  }

  function Run(db: DB, steps: seq<Step>): DB
    decreases |steps|
  {
    if steps == [] then db else Run(Apply(db, steps[0]), steps[1..])
  }

  // ----- Revocation is permanent -----

  predicate RoleKnown(db: DB, ur: (nat, nat)) {
    ur.1 in db.roles && ur.0 in db.users
  }

  /** Foreign keys of user_roles. */
  predicate WellFormed(db: DB) {
    forall ur | ur in db.userRoles :: RoleKnown(db, ur)
  }

  /**
   * What stays true of a token from its issue on: its user, session and tenant
   * exist, its version and epoch are not ahead of the user's, and its
   * permissions are the live ones for as long as the epoch has not moved.
   */
  predicate Issued(db: DB, c: Claims) {
    && c.tenantID != "" && c.sid != "" && c.jti != ""
    && c.userID in db.users && db.users[c.userID].tenant == c.tenantID
    && c.pwdVer <= db.users[c.userID].pwdVersion && c.authEpoch <= db.users[c.userID].authEpoch
    && (c.authEpoch == db.users[c.userID].authEpoch ==> LivePermissions(db, c.tenantID, c.userID) == Elements(Signed(c)))
    && c.tenantID in db.tenants && db.tenants[c.tenantID]
    && c.sid in db.sessions && db.sessions[c.sid].tenant == c.tenantID && db.sessions[c.sid].user == c.userID
  }

  lemma IssueChecked(db: DB, c: Claims)
    requires Accepts(db, c)
    ensures Issued(db, c)
  {
  }

  lemma WellFormedStep(db: DB, step: Step)
    requires WellFormed(db)
    ensures WellFormed(Apply(db, step))
  {
    forall ur | ur in Apply(db, step).userRoles ensures RoleKnown(Apply(db, step), ur) {
      if ur in db.userRoles { assert RoleKnown(db, ur); }
    }
  }

  /** The live permissions of a user change only together with the user's epoch. */
  lemma PermissionsStable(db: DB, step: Step, tenant: string, uid: nat)
    requires WellFormed(db) && uid in db.users && Apply(db, step).users[uid].authEpoch == db.users[uid].authEpoch
    ensures LivePermissions(Apply(db, step), tenant, uid) == LivePermissions(db, tenant, uid)
  {
    forall r | r in Apply(db, step).roles
      ensures Grants(Apply(db, step), tenant, uid, r) <==> r in db.roles && Grants(db, tenant, uid, r)
      ensures Grants(Apply(db, step), tenant, uid, r) ==> Apply(db, step).roles[r] == db.roles[r]
    {
      if (uid, r) in db.userRoles { assert RoleKnown(db, (uid, r)); }
    }
    assert forall r | r in db.roles :: r in Apply(db, step).roles;
  }

  lemma EpochsGrow(db: DB, step: Step, uid: nat)
    requires uid in db.users
    ensures uid in Apply(db, step).users
    ensures Apply(db, step).users[uid].tenant == db.users[uid].tenant
    ensures Apply(db, step).users[uid].pwdVersion >= db.users[uid].pwdVersion
    ensures Apply(db, step).users[uid].authEpoch >= db.users[uid].authEpoch
    ensures Apply(db, step).users[uid].active ==> db.users[uid].active
    ensures db.users[uid].suspended ==> Apply(db, step).users[uid].suspended
  {
  }

  lemma SessionsStay(db: DB, step: Step, sid: string)
    requires sid in db.sessions
    ensures sid in Apply(db, step).sessions
    ensures var s, s' := db.sessions[sid], Apply(db, step).sessions[sid];
      s' == s || s' == s.(revoked := true)
    ensures db.now <= Apply(db, step).now && db.revocations <= Apply(db, step).revocations && db.tenants == Apply(db, step).tenants
  {
  }

  lemma IssuedStep(db: DB, step: Step, c: Claims)
    requires WellFormed(db) && Issued(db, c)
    ensures Issued(Apply(db, step), c)
    ensures Accepts(Apply(db, step), c) ==> Accepts(db, c)
  {
    EpochsGrow(db, step, c.userID);
    SessionsStay(db, step, c.sid);
    if Apply(db, step).users[c.userID].authEpoch == db.users[c.userID].authEpoch {
      PermissionsStable(db, step, c.tenantID, c.userID);
    }
  }

  lemma {:induction false} IssuedRun(db: DB, steps: seq<Step>, c: Claims)
    requires WellFormed(db) && Issued(db, c)
    ensures WellFormed(Run(db, steps)) && Issued(Run(db, steps), c)
    ensures Accepts(Run(db, steps), c) ==> Accepts(db, c)
    decreases |steps|
  {
    if steps != [] {
      WellFormedStep(db, steps[0]);
      IssuedStep(db, steps[0], c);
      IssuedRun(Apply(db, steps[0]), steps[1..], c);
    }
  }

  /** A token that was accepted when issued and is refused after `before` is refused after every continuation. */
  lemma RevocationPermanent(db: DB, before: seq<Step>, after: seq<Step>, c: Claims)
    requires WellFormed(db) && Accepts(db, c) && !Accepts(Run(db, before), c)
    ensures !Accepts(Run(Run(db, before), after), c)
  {
    IssueChecked(db, c);
    IssuedRun(db, before, c);
    IssuedRun(Run(db, before), after, c);
  }

  // ----- The operations on the live tables -----

  /** A list in any order, with or without repetitions, of the live permissions. */
  predicate Lists(db: DB, tenant: string, uid: nat, perms: seq<string>) {
    Elements(perms) == LivePermissions(db, tenant, uid)
  }

  class AccessState {
    var db: DB

    /** Authority.Check: the volatile deny lists first, then one snapshot of the tables. */
    method Check(c: Claims, denied: bool, perms: seq<string>) returns (ok: bool)
      requires Lists(db, c.tenantID, c.userID, perms)
      ensures ok <==> !denied && Accepts(db, c)
    {
      if c.tenantID == "" || c.sid == "" || c.jti == "" {
        return false;
      }
      if denied {
        return false;
      }
      if c.userID !in db.users || db.users[c.userID].tenant != c.tenantID {
        return false;
      }
      var u := db.users[c.userID];
      if !u.active || u.suspended || u.pwdVersion != c.pwdVer || u.authEpoch != c.authEpoch {
        return false;
      }
      if c.tenantID !in db.tenants || !db.tenants[c.tenantID] {
        return false;
      }
      if c.sid !in db.sessions || db.sessions[c.sid].tenant != c.tenantID || db.sessions[c.sid].user != c.userID {
        return false;
      }
      var s := db.sessions[c.sid];
      if s.revoked || !(db.now < s.expiresAt) {
        return false;
      }
      if (c.tenantID, c.jti) in db.revocations {
        return false;
      }
      SameSetExactly(perms, Signed(c));
      return Compact(Sort(perms)) == Compact(Sort(Signed(c)));
    }

    /** Suspend: the account and, in the same transaction, all its sessions. */
    method Suspend(uid: nat, tenant: string) returns (ok: bool)
      modifies this
      ensures db == Apply(old(db), Step.Suspend(uid, tenant)) && ok == Owned(old(db), uid, tenant)
      ensures ok ==> forall c: Claims | c.userID == uid && c.tenantID == tenant :: !Accepts(db, c)
    {
      ok := Owned(db, uid, tenant);
      if ok {
        var u := db.users[uid];
        db := WithUser(db, uid, u.(suspended := true, pwdVersion := u.pwdVersion + 1, authEpoch := u.authEpoch + 1));
        db := AllRevoked(db, uid, tenant);
      }
    }

    /** RevokeAccess: a durable denial of one access token. */
    method RevokeAccess(tenant: string, jti: string) returns (ok: bool)
      modifies this
      ensures db == Apply(old(db), Step.RevokeAccess(tenant, jti)) && ok == (jti != "")
      ensures ok ==> forall c: Claims | c.jti == jti && c.tenantID == tenant :: !Accepts(db, c)
    {
      ok := jti != "";
      if ok {
        db := db.(revocations := db.revocations + {(tenant, jti)});
      }
    }

    /** CredentialChangeTx with session revocation. */
    method CredentialChange(uid: nat, tenant: string) returns (ok: bool)
      modifies this
      ensures db == Apply(old(db), Step.CredentialChange(uid, tenant)) && ok == Owned(old(db), uid, tenant)
      ensures ok ==> forall c: Claims | c.userID == uid && Accepts(old(db), c) :: !Accepts(db, c)
    {
      ok := Owned(db, uid, tenant);
      if ok {
        db := WithUser(db, uid, db.users[uid].(pwdVersion := db.users[uid].pwdVersion + 1));
        db := AllRevoked(db, uid, tenant);
      }
    }

    /** AssignRoleToUser: the grant and the epoch move together. */
    method AssignRole(uid: nat, rid: nat, tenant: string) returns (ok: bool)
      modifies this
      ensures db == Apply(old(db), Step.AssignRole(uid, rid, tenant)) && (ok <==> Assignable(old(db), uid, rid, tenant))
      ensures ok ==> forall c: Claims | c.userID == uid && Accepts(old(db), c) :: !Accepts(db, c)
    {
      ok := Assignable(db, uid, rid, tenant);
      if ok {
        db := db.(userRoles := db.userRoles + {(uid, rid)});
        db := WithUser(db, uid, db.users[uid].(authEpoch := db.users[uid].authEpoch + 1));
      }
    }
  }
}
