/**
 * The workspace routes: creation by a global admin, the admin reassignment,
 * settings updates, member links kept on both the workspace and the user,
 * and the cascading delete.
 *
 * Workspaces are keyed by a natural number standing for their ObjectId; a
 * user's workspace list holds those ids as text (`IntToString`). The chats,
 * documents and phone numbers collections are maps from a record id to the
 * owning workspace, the document chunks a map from a chunk id to its
 * document.
 */
module WorkspaceRoutes {
  import opened Text
  import opened Http
  import opened AuthHandler

  datatype WorkspaceStatus = Active | Inactive

  datatype Workspace = Workspace(
    name: string,
    description: Option<string>,
    status: WorkspaceStatus,
    adminId: string,
    memberIds: seq<string>,
    updatedAt: int)

  /** The creation form; a form that leaves the status out carries `Active`. */
  datatype WorkspaceCreate = WorkspaceCreate(name: string, description: Option<string>, status: WorkspaceStatus)

  /** The optional fields of an update; absent ones are not written. */
  datatype WorkspaceUpdate = WorkspaceUpdate(
    name: Option<string>, description: Option<string>, status: Option<WorkspaceStatus>)

  const MinName := 2
  const CreateDenied := "Only global admin users can create workspaces."
  const MakeAdminDenied := "Only global admin users can perform this action."

  // ---------------------------------------------------------------------
  // Collection helpers
  // ---------------------------------------------------------------------

  /** `$pull`: every occurrence of `x` removed, the rest in order. */
  function Without(s: seq<string>, x: string): (r: seq<string>)
    ensures x !in r
    ensures forall y :: y in r <==> y in s && y != x
    ensures |r| <= |s|
  {
    if s == [] then []
    else (if s[0] == x then [] else [s[0]]) + Without(s[1..], x)
  }

  /** Pulling something that is not there changes nothing. */
  lemma {:induction false} WithoutAbsent(s: seq<string>, x: string)
    requires x !in s
    ensures Without(s, x) == s
  {
    if s != [] {
      assert x !in s[1..];
      WithoutAbsent(s[1..], x);
    }
  }

  lemma {:induction false} WithoutAppend(s: seq<string>, t: seq<string>, x: string)
    ensures Without(s + t, x) == Without(s, x) + Without(t, x)
  {
    if s == [] {
      assert s + t == t;
    } else {
      assert (s + t)[1..] == s[1..] + t;
      WithoutAppend(s[1..], t, x);
    }
  }

  /** Pushing `x` and pulling it again restores a list that did not hold it. */
  lemma PullAfterPush(s: seq<string>, x: string)
    requires x !in s
    ensures Without(s + [x], x) == s
  {
    WithoutAppend(s, [x], x);
    WithoutAbsent(s, x);
  }

  /** `update_many({}, {"$set": {"admin_id": caller}})`. */
  function ReassignAll(ws: map<nat, Workspace>, caller: string): map<nat, Workspace>
  {
    map k | k in ws :: ws[k].(adminId := caller)
  }

  /** The workspaces whose admin an `update_many` to `caller` actually changes. */
  function Reassigned(ws: map<nat, Workspace>, caller: string): set<nat>
  {
    set k | k in ws && ws[k].adminId != caller
  }

  /** `delete_many({"workspace_id": id})` on a collection keyed by record id. */
  function DropOwned(m: map<string, nat>, id: nat): map<string, nat>
  {
    map k | k in m && m[k] != id :: m[k]
  }

  /** The delete keeps exactly the records of other workspaces, unchanged. */
  lemma DropOwnedSpec(m: map<string, nat>, id: nat, k: string)
    ensures k in DropOwned(m, id) <==> k in m && m[k] != id
    ensures k in DropOwned(m, id) ==> DropOwned(m, id)[k] == m[k]
  {
  }

  /** `update_many({"workspaces": key}, {"$pull": {"workspaces": key}})`. */
  function PullAll(users: seq<StoredUser>, key: string): (r: seq<StoredUser>)
    ensures |r| == |users|
  {
    if users == [] then []
    else
      var last := users[|users| - 1];
      PullAll(users[..|users| - 1], key) + [last.(workspaces := Without(last.workspaces, key))]
  }

  /** `find_one({"_id": id})` on the users collection. */
  function FindById(users: seq<StoredUser>, id: string): (r: Option<nat>)
    ensures r.Some? ==> r.value < |users| && users[r.value].id == id
    ensures r.None? <==> forall j :: 0 <= j < |users| ==> users[j].id != id
  {
    if users == [] then None
    else if users[0].id == id then Some(0)
    else
      var rest := FindById(users[1..], id);
      if rest.None? then None else Some(rest.value + 1)
  }

  /** `update_one({"_id": id}, ...)` applying `f` to the workspace list of that user. */
  function UpdateLinks(users: seq<StoredUser>, id: string, key: string, push: bool): (r: seq<StoredUser>)
    ensures |r| == |users|
  {
    var i := FindById(users, id);
    if i.None? then users
    else
      var u := users[i.value];
      users[i.value := u.(workspaces := if push then u.workspaces + [key] else Without(u.workspaces, key))]
  }

  /** The trimmed name is long enough. */
  predicate NameOk(name: string)
  {
    |Strip(name)| >= MinName
  }

  /** The workspace `create_workspace` inserts: trimmed texts, the form's status, the caller as admin, no members. */
  function NewWorkspace(form: WorkspaceCreate, caller: string, now: int): Workspace
  {
    Workspace(Strip(form.name),
              if form.description.Some? && form.description.value != ""
              then Some(Strip(form.description.value)) else None,
              form.status, caller, [], now)
  }

  /** What the fields of an update make of a workspace at `now`. */
  function Updated(w: Workspace, u: WorkspaceUpdate, now: int): Workspace
  {
    w.(name := if u.name.Some? then u.name.value else w.name,
       description := if u.description.Some? then u.description else w.description,
       status := if u.status.Some? then u.status.value else w.status,
       updatedAt := now)
  }

  /** No list holds an element twice. */
  predicate Distinct<T(==)>(s: seq<T>)
  {
    forall i, j :: 0 <= i < j < |s| ==> s[i] != s[j]
  }

  ghost predicate WorkspacesOk(ws: map<nat, Workspace>, nextId: nat)
  {
    forall k :: k in ws ==> k < nextId && Distinct(ws[k].memberIds)
  }

  ghost predicate UsersOk(users: seq<StoredUser>)
  {
    forall i, j :: 0 <= i < j < |users| ==> users[i].id != users[j].id
  }

  lemma ReassignOk(ws: map<nat, Workspace>, n: nat, caller: string)
    requires WorkspacesOk(ws, n)
    ensures WorkspacesOk(ReassignAll(ws, caller), n)
  {
  }

  lemma ReplaceOk(ws: map<nat, Workspace>, n: nat, k: nat, w: Workspace)
    requires WorkspacesOk(ws, n) && k < n && Distinct(w.memberIds)
    ensures WorkspacesOk(ws[k := w], n)
  {
  }

  lemma InsertOk(ws: map<nat, Workspace>, n: nat, w: Workspace)
    requires WorkspacesOk(ws, n) && Distinct(w.memberIds)
    ensures WorkspacesOk(ws[n := w], n + 1)
  {
  }

  lemma RemoveOk(ws: map<nat, Workspace>, n: nat, k: nat)
    requires WorkspacesOk(ws, n)
    ensures WorkspacesOk(ws - {k}, n)
  {
  }

  lemma LinksOk(users: seq<StoredUser>, id: string, key: string, push: bool)
    requires UsersOk(users)
    ensures UsersOk(UpdateLinks(users, id, key, push))
  {
    UpdateLinksKeepsIds(users, id, key, push);
  }

  lemma PullAllOk(users: seq<StoredUser>, key: string)
    requires UsersOk(users)
    ensures UsersOk(PullAll(users, key))
  {
    forall i | 0 <= i < |users| {
      PullAllAt(users, key, i);
    }
  }

  // ---------------------------------------------------------------------
  // The registry
  // ---------------------------------------------------------------------

  class WorkspaceRegistry {
    var workspaces: map<nat, Workspace>
    var users: seq<StoredUser>
    var chats: map<string, nat>
    var documents: map<string, nat>
    var phones: map<string, nat>
    var chunks: map<string, string>
    var nextId: nat

    /** An empty registry: no workspaces, users or records, and ids from 0. */
    constructor()
      ensures Valid()
      ensures workspaces == map[] && users == [] && nextId == 0
      ensures chats == map[] && documents == map[] && phones == map[] && chunks == map[]
    {
      workspaces := map[];
      users := [];
      chats := map[];
      documents := map[];
      phones := map[];
      chunks := map[];
      nextId := 0;
    }

    /** Ids come from the counter, member lists hold no duplicates, user ids are distinct. */
    ghost predicate Valid()
      reads this
    {
      WorkspacesOk(workspaces, nextId) && UsersOk(users)
    }

    /** The workspace under `id` as the access checks fetch it. */
    function Fetch(id: nat): (r: Option<WorkspaceRecord>)
      reads this
      ensures r.Some? <==> id in workspaces
    {
      if id in workspaces then Some(WorkspaceRecord(workspaces[id].adminId, workspaces[id].memberIds))
      else None
    }

    /**
     * `create_workspace`. `adminAttr` is what reading `current_user.is_admin`
     * yields. Past the gate every workspace is handed to the caller before
     * the name is checked, so a bad name still leaves that change behind.
     */
    method CreateWorkspace(caller: User, adminAttr: Option<bool>, form: WorkspaceCreate, now: int)
      returns (r: Response<nat>)
      requires Valid()
      modifies this
      ensures Valid()
      ensures AdminGate(adminAttr, CreateDenied).Some? ==>
        var g := AdminGate(adminAttr, CreateDenied).value;
        r == Refused(g.0, g.1) && workspaces == old(workspaces) && users == old(users)
      ensures adminAttr == Some(true) && !NameOk(form.name) ==>
        r == Refused(400, "Workspace name must be at least 2 characters") &&
        workspaces == ReassignAll(old(workspaces), caller.id) && users == old(users)
      ensures adminAttr == Some(true) && NameOk(form.name) ==>
        r == Done(old(nextId)) &&
        workspaces == ReassignAll(old(workspaces), caller.id)[old(nextId) := NewWorkspace(form, caller.id, now)] &&
        users == UpdateLinks(old(users), caller.id, IntToString(old(nextId)), true)
      ensures unchanged(this`chats, this`documents, this`phones, this`chunks)
    {
      var gate := AdminGate(adminAttr, CreateDenied);
      if gate.Some? {
        return Refused(gate.value.0, gate.value.1);
      }
      ReassignOk(workspaces, nextId, caller.id);
      workspaces := ReassignAll(workspaces, caller.id);
      if form.name == "" || !NameOk(form.name) {
        return Refused(400, "Workspace name must be at least 2 characters");
      }
      var id := nextId;
      var w := NewWorkspace(form, caller.id, now);
      InsertOk(workspaces, nextId, w);
      workspaces := workspaces[id := w];
      nextId := nextId + 1;
      LinksOk(users, caller.id, IntToString(id), true);
      users := UpdateLinks(users, caller.id, IntToString(id), true);
      r := Done(id);
    }

    /** `make_current_user_admin_of_all_workspaces`: the reply counts the workspaces that changed hands. */
    method MakeAdmin(caller: User, adminAttr: Option<bool>) returns (r: Response<nat>)
      requires Valid()
      modifies this
      ensures Valid()
      ensures AdminGate(adminAttr, MakeAdminDenied).Some? ==>
        var g := AdminGate(adminAttr, MakeAdminDenied).value;
        r == Refused(g.0, g.1) && workspaces == old(workspaces)
      ensures adminAttr == Some(true) ==>
        r == Done(|Reassigned(old(workspaces), caller.id)|) &&
        workspaces == ReassignAll(old(workspaces), caller.id)
      ensures unchanged(this`users, this`chats, this`documents, this`phones, this`chunks, this`nextId)
    {
      var gate := AdminGate(adminAttr, MakeAdminDenied);
      if gate.Some? {
        return Refused(gate.value.0, gate.value.1);
      }
      var modified := |Reassigned(workspaces, caller.id)|;
      ReassignOk(workspaces, nextId, caller.id);
      workspaces := ReassignAll(workspaces, caller.id);
      r := Done(modified);
    }

    /**
     * `update_workspace`: admins only; the present fields and the update
     * time are written, and when that changes nothing the route answers 404.
     */
    method UpdateWorkspace(caller: User, id: nat, u: WorkspaceUpdate, now: int) returns (r: Response<Workspace>)
      requires Valid()
      modifies this
      ensures Valid()
      ensures !VerifyWorkspaceAdmin(old(Fetch(id)), caller.id) ==>
        r.Refused? && r.code == 403 && workspaces == old(workspaces)
      ensures VerifyWorkspaceAdmin(old(Fetch(id)), caller.id) ==>
        var w' := Updated(old(workspaces)[id], u, now);
        if w' == old(workspaces)[id] then
          r == Refused(404, "Workspace not found") && workspaces == old(workspaces)
        else
          r == Done(w') && workspaces == old(workspaces)[id := w']
      ensures unchanged(this`users, this`chats, this`documents, this`phones, this`chunks, this`nextId)
    {
      if !VerifyWorkspaceAdmin(Fetch(id), caller.id) {
        return Refused(403, "Only workspace administrators can update workspace settings. User "
                            + caller.id + " is not admin of workspace " + IntToString(id));
      }
      var w' := Updated(workspaces[id], u, now);
      if w' == workspaces[id] {
        return Refused(404, "Workspace not found");
      }
      ReplaceOk(workspaces, nextId, id, w');
      workspaces := workspaces[id := w'];
      r := Done(w');
    }

    /**
     * `delete_workspace`: the workspace, its chats, documents and phone
     * numbers go, and every user drops it from their list. The document
     * chunks are not touched.
     */
    method DeleteWorkspace(caller: User, id: nat) returns (r: Response<string>)
      requires Valid()
      modifies this
      ensures Valid()
      ensures !VerifyWorkspaceAdmin(old(Fetch(id)), caller.id) ==>
        r == Refused(403, "Only workspace administrators can delete workspace") && unchanged(this)
      ensures VerifyWorkspaceAdmin(old(Fetch(id)), caller.id) ==>
        r == Done("Workspace deleted successfully") &&
        workspaces == old(workspaces) - {id} &&
        chats == DropOwned(old(chats), id) && documents == DropOwned(old(documents), id) &&
        phones == DropOwned(old(phones), id) &&
        users == PullAll(old(users), IntToString(id))
      ensures unchanged(this`chunks, this`nextId)
    {
      if !VerifyWorkspaceAdmin(Fetch(id), caller.id) {
        return Refused(403, "Only workspace administrators can delete workspace");
      }
      RemoveOk(workspaces, nextId, id);
      PullAllOk(users, IntToString(id));
      workspaces := workspaces - {id};
      chats := DropOwned(chats, id);
      documents := DropOwned(documents, id);
      phones := DropOwned(phones, id);
      users := PullAll(users, IntToString(id));
      r := Done("Workspace deleted successfully");
    }

    /**
     * `add_member_to_workspace`: the user is looked up by the email exactly
     * as given; an existing member is refused; otherwise both sides get the
     * link.
     */
    method AddMember(caller: User, id: nat, memberEmail: string) returns (r: Response<string>)
      requires Valid()
      modifies this
      ensures Valid()
      ensures !VerifyWorkspaceAdmin(old(Fetch(id)), caller.id) ==>
        r == Refused(403, "Only workspace administrators can add members") &&
        workspaces == old(workspaces) && users == old(users)
      ensures (VerifyWorkspaceAdmin(old(Fetch(id)), caller.id) &&
               FindByEmail(old(users), memberEmail).None?) ==>
        r == Refused(404, "User not found") && workspaces == old(workspaces) && users == old(users)
      ensures (VerifyWorkspaceAdmin(old(Fetch(id)), caller.id) &&
               FindByEmail(old(users), memberEmail).Some?) ==>
        var m := old(users)[FindByEmail(old(users), memberEmail).value].id;
        if m in old(workspaces)[id].memberIds then
          r == Refused(400, "User is already a member of this workspace") &&
          workspaces == old(workspaces) && users == old(users)
        else
          r == Done("Member added successfully") &&
          workspaces == old(workspaces)[id := old(workspaces)[id].(memberIds := old(workspaces)[id].memberIds + [m])] &&
          users == UpdateLinks(old(users), m, IntToString(id), true)
      ensures unchanged(this`chats, this`documents, this`phones, this`chunks, this`nextId)
    {
      if !VerifyWorkspaceAdmin(Fetch(id), caller.id) {
        return Refused(403, "Only workspace administrators can add members");
      }
      var found := FindByEmail(users, memberEmail);
      if found.None? {
        return Refused(404, "User not found");
      }
      var m := users[found.value].id;
      var w := workspaces[id];
      if m in w.memberIds {
        return Refused(400, "User is already a member of this workspace");
      }
      DistinctAppend(w.memberIds, m);
      ReplaceOk(workspaces, nextId, id, w.(memberIds := w.memberIds + [m]));
      workspaces := workspaces[id := w.(memberIds := w.memberIds + [m])];
      LinksOk(users, m, IntToString(id), true);
      users := UpdateLinks(users, m, IntToString(id), true);
      r := Done("Member added successfully");
    }

    /** `remove_member_from_workspace`: the link is pulled from both sides. */
    method RemoveMember(caller: User, id: nat, memberId: string) returns (r: Response<string>)
      requires Valid()
      modifies this
      ensures Valid()
      ensures !VerifyWorkspaceAdmin(old(Fetch(id)), caller.id) ==>
        r == Refused(403, "Only workspace administrators can remove members") &&
        workspaces == old(workspaces) && users == old(users)
      ensures VerifyWorkspaceAdmin(old(Fetch(id)), caller.id) ==>
        r == Done("Member removed successfully") &&
        workspaces == old(workspaces)[id := old(workspaces)[id].(memberIds := Without(old(workspaces)[id].memberIds, memberId))] &&
        users == UpdateLinks(old(users), memberId, IntToString(id), false)
      ensures unchanged(this`chats, this`documents, this`phones, this`chunks, this`nextId)
    {
      if !VerifyWorkspaceAdmin(Fetch(id), caller.id) {
        return Refused(403, "Only workspace administrators can remove members");
      }
      var w := workspaces[id];
      DistinctWithout(w.memberIds, memberId);
      ReplaceOk(workspaces, nextId, id, w.(memberIds := Without(w.memberIds, memberId)));
      workspaces := workspaces[id := w.(memberIds := Without(w.memberIds, memberId))];
      LinksOk(users, memberId, IntToString(id), false);
      users := UpdateLinks(users, memberId, IntToString(id), false);
      r := Done("Member removed successfully");
    }
  }

  // ---------------------------------------------------------------------
  // Properties
  // ---------------------------------------------------------------------

  lemma DistinctAppend<T>(s: seq<T>, x: T)
    requires Distinct(s) && x !in s
    ensures Distinct(s + [x])
  {
  }

  lemma {:induction false} DistinctWithout(s: seq<string>, x: string)
    requires Distinct(s)
    ensures Distinct(Without(s, x))
  {
    if s != [] {
      DistinctWithout(s[1..], x);
      var rest := Without(s[1..], x);
      if s[0] != x {
        assert s[0] !in s[1..];
        assert s[0] !in rest;
      }
    }
  }

  /** Updating one user's links keeps every user id. */
  lemma UpdateLinksKeepsIds(users: seq<StoredUser>, id: string, key: string, push: bool)
    ensures forall i :: 0 <= i < |users| ==> UpdateLinks(users, id, key, push)[i].id == users[i].id
  {
  }

  /** After the reassignment of create or make-admin the caller administers every existing workspace. */
  lemma CallerAdministersAll(ws: map<nat, Workspace>, caller: User, k: nat)
    requires k in ws
    ensures ReassignAll(ws, caller.id)[k].adminId == caller.id
    ensures ReassignAll(ws, caller.id)[k].memberIds == ws[k].memberIds
    ensures |Reassigned(ReassignAll(ws, caller.id), caller.id)| == 0
  {
    assert Reassigned(ReassignAll(ws, caller.id), caller.id) == {};
  }

  /** A stored admin's create that fails on the name has still taken over every workspace. */
  lemma BadNameStillReassigns(ws: map<nat, Workspace>, caller: User, k: nat)
    requires k in ws && ws[k].adminId != caller.id
    ensures ReassignAll(ws, caller.id) != ws
  {
    assert ReassignAll(ws, caller.id)[k].adminId != ws[k].adminId;
  }

  /**
   * Removing a member just added gives the workspace its old member list
   * back, and the user's list likewise.
   */
  lemma RemoveUndoesAdd(w: Workspace, m: string, links: seq<string>, key: string)
    requires m !in w.memberIds && key !in links
    ensures Without(w.memberIds + [m], m) == w.memberIds
    ensures Without(links + [key], key) == links
  {
    PullAfterPush(w.memberIds, m);
    PullAfterPush(links, key);
  }

  /**
   * The delete leaves dangling chunks: a chunk of a document of the deleted
   * workspace stays, though its document is gone.
   */
  lemma DeleteOrphansChunks(
    documents: map<string, nat>, chunks: map<string, string>, id: nat, c: string)
    requires c in chunks && chunks[c] in documents && documents[chunks[c]] == id
    ensures chunks[c] !in DropOwned(documents, id)
  {
  }

  /** Each user's entry after the pull: the same record with the key pulled from its list. */
  lemma {:induction false} PullAllAt(users: seq<StoredUser>, key: string, i: nat)
    requires i < |users|
    ensures PullAll(users, key)[i] == users[i].(workspaces := Without(users[i].workspaces, key))
  {
    if i < |users| - 1 {
      PullAllAt(users[..|users| - 1], key, i);
    }
  }

  /** After a delete no user still lists the workspace, and each keeps the rest of their list and their id. */
  lemma DeleteUnlinksUsers(users: seq<StoredUser>, key: string, i: nat)
    requires i < |users|
    ensures key !in PullAll(users, key)[i].workspaces
    ensures forall x :: x in users[i].workspaces && x != key ==> x in PullAll(users, key)[i].workspaces
    ensures PullAll(users, key)[i].id == users[i].id
  {
    PullAllAt(users, key, i);
  }
}
