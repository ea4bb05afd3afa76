/**
 * The authorisation rules: a user's role in a workspace, the access and admin
 * checks built on it, the login decision chain and the access token's expiry.
 *
 * The workspace lookup, bcrypt and the JWT encoding are outside the model:
 * the fetched workspace is an `Option`, the password check an oracle
 * `passwordOk(plain, hashed)`, and a token is its claims plus its expiry.
 */
module AuthHandler {
  import opened Text

  datatype UserRole = Admin | Member

  /**
   * A user document as the users collection stores it. `isAdmin` is the
   * global-admin flag that registration writes.
   */
  datatype StoredUser = StoredUser(
    id: string,
    email: string,
    fullName: string,
    role: UserRole,
    isActive: bool,
    hashedPassword: string,
    workspaces: seq<string>,
    isAdmin: bool)

  /**
   * The `User` model every route receives as `current_user`. It declares
   * id, email, full name, role, the active flag and the workspace list, and
   * nothing else: building it from a stored document drops the hashed
   * password and the global-admin flag.
   */
  datatype User = User(
    id: string,
    email: string,
    fullName: string,
    role: UserRole,
    isActive: bool,
    workspaces: seq<string>)

  function UserOf(s: StoredUser): User
  {
    User(s.id, s.email, s.fullName, s.role, s.isActive, s.workspaces)
  }

  /**
   * Reading `current_user.is_admin`. The `User` model has no such field and
   * ignores the extra key of the stored document, so the lookup raises
   * `AttributeError`, written `None` here.
   */
  function AdminAttribute(u: User): Option<bool>
  {
    None
  }

  /**
   * A route's global-admin gate on the attribute it read: an unreadable
   * attribute escapes as a plain 500, a false one raises 403 with `detail`.
   */
  function AdminGate(attr: Option<bool>, detail: string): (r: Option<(int, string)>)
    ensures r.None? <==> attr == Some(true)
    ensures attr.None? ==> r == Some((500, "Internal Server Error"))
    ensures attr == Some(false) ==> r == Some((403, detail))
  {
    match attr
    case None => Some((500, "Internal Server Error"))
    case Some(b) => if b then None else Some((403, detail))
  }

  /** As written, the gate refuses every caller with a 500, the stored admins included. */
  lemma AdminGateAsWritten(s: StoredUser, detail: string)
    ensures AdminGate(AdminAttribute(UserOf(s)), detail) == Some((500, "Internal Server Error"))
  {
  }

  /** The attribute once the `User` model declares the flag (defaulting to false): the stored value. */
  function AdminAttributeFixed(s: StoredUser): Option<bool>
  {
    Some(s.isAdmin)
  }

  /** With the flag declared, the gate admits exactly the stored global admins and refuses the rest with 403. */
  lemma AdminGateFixed(s: StoredUser, detail: string)
    ensures AdminGate(AdminAttributeFixed(s), detail).None? <==> s.isAdmin
    ensures !s.isAdmin ==> AdminGate(AdminAttributeFixed(s), detail) == Some((403, detail))
  {
  }

  // ---------------------------------------------------------------------
  // Roles in a workspace
  // ---------------------------------------------------------------------

  /** The fields of a workspace document the checks read, ids as strings. */
  datatype WorkspaceRecord = WorkspaceRecord(adminId: string, memberIds: seq<string>)

  /** The workspace collection's `find_one` by id. */
  function Lookup(workspaces: map<string, WorkspaceRecord>, id: string): Option<WorkspaceRecord>
  {
    if id in workspaces then Some(workspaces[id]) else None
  }

  /** `get_user_role_in_workspace`: the workspace fetched by id is `ws`. */
  function RoleInWorkspace(ws: Option<WorkspaceRecord>, userId: string): (r: string)
    ensures r == "admin" || r == "member" || r == "none"
    ensures r == "admin" <==> ws.Some? && ws.value.adminId == userId
    ensures r == "member" <==>
      ws.Some? && ws.value.adminId != userId && userId in ws.value.memberIds
    ensures ws.None? ==> r == "none"
  {
    if ws.None? then "none"
    else if ws.value.adminId == userId then "admin"
    else if userId in ws.value.memberIds then "member"
    else "none"
  }

  /** `verify_workspace_access`. */
  function VerifyWorkspaceAccess(ws: Option<WorkspaceRecord>, userId: string): (b: bool)
    ensures b <==> ws.Some? && (ws.value.adminId == userId || userId in ws.value.memberIds)
  {
    if ws.None? then false
    else if ws.value.adminId == userId then true
    else userId in ws.value.memberIds
  }

  /** `verify_workspace_admin`. */
  function VerifyWorkspaceAdmin(ws: Option<WorkspaceRecord>, userId: string): (b: bool)
    ensures b ==> ws.Some?
  {
    if ws.None? then false else ws.value.adminId == userId
  }

  /** The three checks agree: access is a role other than "none", admin is the role "admin". */
  lemma ChecksAgreeWithRole(ws: Option<WorkspaceRecord>, userId: string)
    ensures VerifyWorkspaceAccess(ws, userId) <==> RoleInWorkspace(ws, userId) != "none"
    ensures VerifyWorkspaceAdmin(ws, userId) <==> RoleInWorkspace(ws, userId) == "admin"
    ensures VerifyWorkspaceAdmin(ws, userId) ==> VerifyWorkspaceAccess(ws, userId)
  {
  }

  // ---------------------------------------------------------------------
  // Login
  // ---------------------------------------------------------------------

  /** The key logins and registrations look emails up by. */
  function NormalEmail(email: string): string
  {
    Lower(Strip(email))
  }

  /** `find_one({"email": key})`: the first stored user with that email. */
  function FindByEmail(users: seq<StoredUser>, key: string): (r: Option<nat>)
    ensures r.Some? ==> r.value < |users| && users[r.value].email == key
    ensures r.Some? ==> forall j :: 0 <= j < r.value ==> users[j].email != key
    ensures r.None? <==> forall j :: 0 <= j < |users| ==> users[j].email != key
  {
    if users == [] then None
    else if users[0].email == key then Some(0)
    else
      var rest := FindByEmail(users[1..], key);
      if rest.None? then None else Some(rest.value + 1)
  }

  /**
   * `authenticate_user`: empty credentials, an unknown email, an inactive
   * user and a wrong password each give `None`.
   */
  function AuthenticateUser(
    email: string, password: string, users: seq<StoredUser>,
    passwordOk: (string, string) -> bool): (r: Option<User>)
    ensures email == "" || password == "" ==> r.None?
    ensures r.Some? ==> r.value.email == NormalEmail(email) && r.value.isActive
  {
    if email == "" || password == "" then None
    else
      var found := FindByEmail(users, NormalEmail(email));
      if found.None? then None
      else
        var s := users[found.value];
        if !s.isActive then None
        else if !passwordOk(password, s.hashedPassword) then None
        else Some(UserOf(s))
  }

  /**
   * Login succeeds exactly when both credentials are given and the first user
   * stored under the normalised email is active and accepts the password.
   */
  lemma AuthenticateDecision(
    email: string, password: string, users: seq<StoredUser>,
    passwordOk: (string, string) -> bool)
    ensures AuthenticateUser(email, password, users, passwordOk).Some? <==>
      email != "" && password != "" &&
      exists i :: 0 <= i < |users| && users[i].email == NormalEmail(email) &&
        (forall j :: 0 <= j < i ==> users[j].email != NormalEmail(email)) &&
        users[i].isActive && passwordOk(password, users[i].hashedPassword)
  {
    if email != "" && password != "" {
      var key := NormalEmail(email);
      var found := FindByEmail(users, key);
      if found.Some? {
        var k := found.value;
        forall i | 0 <= i < |users| && users[i].email == key &&
            (forall j :: 0 <= j < i ==> users[j].email != key)
          ensures i == k
        {
          if i < k {
          } else if k < i {
          }
        }
      }
    }
  }

  // ---------------------------------------------------------------------
  // Access tokens
  // ---------------------------------------------------------------------

  /** The default lifetime: 15 minutes, in seconds. */
  const DefaultLifetime: int := 15 * 60

  /** A token's payload: the caller's claims and the expiry instant, in seconds. */
  datatype Token = Token(claims: map<string, string>, exp: int)

  /**
   * `create_access_token` at instant `now`. A missing or zero delta (a zero
   * `timedelta` is falsy) falls back to the default lifetime; an `exp` claim
   * of the caller's is replaced.
   */
  function CreateAccessToken(data: map<string, string>, now: int, delta: Option<int>): (t: Token)
    ensures forall k :: k in data && k != "exp" ==> k in t.claims && t.claims[k] == data[k]
    ensures forall k :: k in t.claims ==> k in data && k != "exp"
    ensures delta.None? || delta.value == 0 ==> t.exp == now + DefaultLifetime
    ensures delta.Some? && delta.value != 0 ==> t.exp == now + delta.value
  {
    var lifetime := if delta.Some? && delta.value != 0 then delta.value else DefaultLifetime;
    Token(data - {"exp"}, now + lifetime)
  }

  /** The decoder accepts a token whose expiry has not passed. */
  predicate Unexpired(t: Token, at: int)
  {
    at <= t.exp
  }

  /** A token issued at `now` is accepted exactly up to the end of its lifetime. */
  lemma TokenLifetime(data: map<string, string>, now: int, delta: Option<int>, at: int)
    requires delta.Some? ==> delta.value >= 0
    ensures var life := if delta.Some? && delta.value > 0 then delta.value else DefaultLifetime;
      Unexpired(CreateAccessToken(data, now, delta), at) <==> at <= now + life
    ensures now <= at <= now + DefaultLifetime && (delta.None? || delta.value == 0) ==>
      Unexpired(CreateAccessToken(data, now, delta), at)
  {
  }
}
