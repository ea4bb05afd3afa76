/**
 * Registration: a guarded insert into the users collection. The first user
 * registered while no global admin exists becomes one.
 */
module AuthRoutes {
  import opened Text
  import opened Http
  import opened AuthHandler

  /** The registration form; pydantic has already checked the email's shape. */
  datatype UserCreate = UserCreate(
    email: string, password: string, fullName: string, role: UserRole, isActive: bool)

  const MinPassword := 6
  const MinFullName := 2

  /** The number of users holding the global-admin flag. */
  function AdminCount(users: seq<StoredUser>): (n: nat)
    ensures n <= |users|
  {
    if users == [] then 0
    else AdminCount(users[..|users| - 1]) + (if users[|users| - 1].isAdmin then 1 else 0)
  }

  lemma AdminCountZero(users: seq<StoredUser>)
    ensures AdminCount(users) == 0 <==> forall i :: 0 <= i < |users| ==> !users[i].isAdmin
  {
    if users != [] {
      AdminCountZero(users[..|users| - 1]);
      var init := users[..|users| - 1];
      assert forall i :: 0 <= i < |init| ==> init[i] == users[i];
    }
  }

  /** What registration keeps: distinct emails and at most one global admin. */
  ghost predicate Registered(users: seq<StoredUser>)
  {
    (forall i, j :: 0 <= i < j < |users| ==> users[i].email != users[j].email) &&
    AdminCount(users) <= 1
  }

  /** The refusal `register` raises for the form, before the store is consulted; `None` when none. */
  function FormError(u: UserCreate): (r: Option<string>)
    ensures r.None? <==>
      (u.email != "" && u.password != "" && u.fullName != "" &&
       |u.password| >= MinPassword && |Strip(u.fullName)| >= MinFullName)
  {
    if u.email == "" || u.password == "" || u.fullName == "" then
      Some("Email, password, and full name are required")
    else if |u.password| < MinPassword then Some("Password must be at least 6 characters")
    else if |Strip(u.fullName)| < MinFullName then Some("Full name must be at least 2 characters")
    else None
  }

  /** The record registration stores for `u` under `id`. */
  function NewUser(u: UserCreate, id: string, hash: string, users: seq<StoredUser>): StoredUser
  {
    StoredUser(id, NormalEmail(u.email), Strip(u.fullName), u.role, u.isActive, hash, [],
               AdminCount(users) == 0)
  }

  /** Appending a new user under a fresh email keeps the table registered. */
  lemma RegisteredAppend(users: seq<StoredUser>, u: UserCreate, id: string, hash: string)
    requires Registered(users)
    requires FindByEmail(users, NormalEmail(u.email)).None?
    ensures Registered(users + [NewUser(u, id, hash, users)])
  {
    var s := NewUser(u, id, hash, users);
    var users' := users + [s];
    assert forall i :: 0 <= i < |users| ==> users'[i] == users[i];
    assert forall i :: 0 <= i < |users| ==> users[i].email != s.email;
    assert users'[..|users'| - 1] == users;
    assert AdminCount(users') == AdminCount(users) + (if s.isAdmin then 1 else 0);
  }

  /** A stored email is already in normal form, so looking it up again finds it. */
  lemma NormalIdempotent(email: string)
    ensures NormalEmail(NormalEmail(email)) == NormalEmail(email)
  {
    var s := Strip(email);
    var l := Lower(s);
    assert forall i :: 0 <= i < |l| ==> (IsSpace(l[i]) <==> IsSpace(s[i]));
    if l != [] {
      assert LeadingSpaces(l) == 0;
      assert TrailingSpaces(l) == 0;
    }
    assert Strip(l) == l;
    assert forall i :: 0 <= i < |l| ==> LowerChar(l[i]) == l[i];
  }

  /** The users collection. */
  class UserTable {
    var users: seq<StoredUser>
    var nextId: nat

    ghost predicate Valid()
      reads this
    {
      Registered(users)
    }

    constructor()
      ensures users == [] && Valid()
    {
      users := [];
      nextId := 0;
    }

    /**
     * `register`. The password hash is `hash`, the id the insert returns is
     * `IntToString(nextId)`. The response is the stored user as the `User`
     * model shows it.
     */
    method Register(u: UserCreate, hash: string) returns (r: Http.Response<User>)
      requires Valid()
      modifies this
      ensures Valid()
      ensures FormError(u).Some? ==>
        r == Refused(400, FormError(u).value) && users == old(users)
      ensures FormError(u).None? && FindByEmail(old(users), NormalEmail(u.email)).Some? ==>
        r == Refused(400, "Email already registered") && users == old(users)
      ensures FormError(u).None? && FindByEmail(old(users), NormalEmail(u.email)).None? ==>
        var s := NewUser(u, IntToString(old(nextId)), hash, old(users));
        users == old(users) + [s] && r == Done(UserOf(s))
      ensures r.Done? ==> r.value.email == NormalEmail(u.email) && r.value.workspaces == []
    {
      var err := FormError(u);
      if err.Some? {
        return Refused(400, err.value);
      }
      var existing := FindByEmail(users, NormalEmail(u.email));
      if existing.Some? {
        return Refused(400, "Email already registered");
      }
      var s := NewUser(u, IntToString(nextId), hash, users);
      RegisteredAppend(users, u, IntToString(nextId), hash);
      users := users + [s];
      nextId := nextId + 1;
      r := Done(UserOf(s));
    }
  }

  /** The first registrant becomes the global admin; later ones do not, so there is never more than one. */
  lemma FirstRegistrantIsAdmin(users: seq<StoredUser>, u: UserCreate, id: string, hash: string)
    requires Registered(users)
    ensures NewUser(u, id, hash, users).isAdmin <==> forall i :: 0 <= i < |users| ==> !users[i].isAdmin
    ensures users == [] ==> NewUser(u, id, hash, users).isAdmin
  {
    AdminCountZero(users);
  }

  /**
   * A registered, active user can log in with any spelling of the email that
   * normalises the same, given a password the hash accepts.
   */
  lemma RegisteredUserCanLogIn(
    users: seq<StoredUser>, u: UserCreate, id: string, hash: string,
    login: string, passwordOk: (string, string) -> bool)
    requires Registered(users)
    requires FormError(u).None? && FindByEmail(users, NormalEmail(u.email)).None?
    requires u.isActive && passwordOk(u.password, hash)
    requires login != "" && NormalEmail(login) == NormalEmail(u.email)
    ensures var s := NewUser(u, id, hash, users);
      AuthenticateUser(login, u.password, users + [s], passwordOk) == Some(UserOf(s))
  {
    var s := NewUser(u, id, hash, users);
    var all := users + [s];
    var found := FindByEmail(all, NormalEmail(login));
    assert all[|users|].email == NormalEmail(login);
    assert found.Some?;
    assert found.value == |users|;
  }
}
