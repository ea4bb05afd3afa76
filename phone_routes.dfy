/**
 * The phone-number registry: numbers are stored trimmed with a leading '+',
 * are unique across all workspaces, and a workspace holds at most two. A
 * delete is refused while a chat on the number is still open, and otherwise
 * flags those chats, removes the number and leaves an audit entry.
 *
 * Phone records are keyed by a natural number standing for their ObjectId;
 * workspaces are fetched by their id text. The WhatsApp disconnect is an
 * outside call: the registry records the numbers it was asked to disconnect.
 */
module PhoneRoutes {
  import opened Text
  import opened Http
  import opened AuthHandler

  datatype PhoneStatus = Disconnected | Connecting | Connected | Error

  datatype Phone = Phone(
    phoneNumber: string, displayName: Option<string>, status: PhoneStatus, workspaceId: string)

  datatype PhoneCreate = PhoneCreate(
    phoneNumber: string, displayName: Option<string>, status: PhoneStatus, workspaceId: string)

  datatype ChatStatus = ChatActive | Qualified | Unqualified | Closed

  /** The fields of a chat the phone routes read and write. */
  datatype Chat = Chat(phoneNumber: string, status: ChatStatus, phoneDeleted: bool)

  datatype AuditEntry = AuditEntry(
    userId: string, userEmail: string, workspaceId: string, phoneId: nat, phoneNumber: string)

  const MinPhoneLength := 10
  const MaxPhonesPerWorkspace := 2

  // ---------------------------------------------------------------------
  // Numbers
  // ---------------------------------------------------------------------

  /** The stored form of a number: trimmed, with '+' put in front when missing. */
  function CleanPhone(p: string): (r: string)
    ensures r != [] ==> r[0] == '+'
    ensures |r| >= |Strip(p)|
  {
    var s := Strip(p);
    if StartsWith(s, "+") then s else "+" + s
  }

  /** A stored number cleans to itself, so delete-by-number finds it under its own text. */
  lemma CleanPhoneIdempotent(p: string)
    ensures CleanPhone(CleanPhone(p)) == CleanPhone(p)
    ensures CleanPhone(p)[0] == '+'
  {
    var s := Strip(p);
    var c := CleanPhone(p);
    assert c[0] == '+';
    assert !IsSpace('+');
    if s == [] {
      assert c == "+";
    } else {
      assert c[|c| - 1] == s[|s| - 1];
    }
    StripOfTrimmed(c);
    assert StartsWith(c, "+");
  }

  /** `add_phone_number` accepts the text only when its trimmed form has ten characters or more. */
  predicate LongEnough(p: string)
  {
    p != "" && |Strip(p)| >= MinPhoneLength
  }

  // ---------------------------------------------------------------------
  // Counting
  // ---------------------------------------------------------------------

  /** The phones of workspace `w`. */
  function PhonesOf(phones: map<nat, Phone>, w: string): set<nat>
  {
    set k | k in phones && phones[k].workspaceId == w
  }

  /** The chats on number `n` that still block a delete. */
  function OpenChats(chats: map<string, Chat>, n: string): set<string>
  {
    set c | c in chats && chats[c].phoneNumber == n &&
      (chats[c].status == ChatActive || chats[c].status == Qualified)
  }

  /** The refusal detail naming the number of open chats. */
  function BlockedDetail(open: nat): string
  {
    "Cannot delete phone number. It has " + IntToString(open) + " active chat(s). Please close all chats first."
  }

  /** `update_many({"phone_number": n}, {"$set": {"phone_deleted": true}})`. */
  function FlagChats(chats: map<string, Chat>, n: string): map<string, Chat>
  {
    map c | c in chats :: if chats[c].phoneNumber == n then chats[c].(phoneDeleted := true) else chats[c]
  }

  /** `find_one({"phone_number": n})` found something. */
  predicate NumberTaken(phones: map<nat, Phone>, n: string)
  {
    exists k :: k in phones && phones[k].phoneNumber == n
  }

  /** The registry's rules: ids from the counter, stored form, global uniqueness, the per-workspace cap. */
  ghost predicate PhonesOk(phones: map<nat, Phone>, nextId: nat)
  {
    (forall k :: k in phones ==> k < nextId) &&
    (forall k :: k in phones ==> |phones[k].phoneNumber| >= MinPhoneLength &&
                                 phones[k].phoneNumber[0] == '+') &&
    (forall k, l :: k in phones && l in phones && k != l ==> phones[k].phoneNumber != phones[l].phoneNumber) &&
    (forall w :: |PhonesOf(phones, w)| <= MaxPhonesPerWorkspace)
  }

  lemma {:induction false} PhonesOfInsert(phones: map<nat, Phone>, k: nat, p: Phone, w: string)
    requires k !in phones
    ensures PhonesOf(phones[k := p], w) ==
      PhonesOf(phones, w) + (if p.workspaceId == w then {k} else {})
  {
  }

  lemma PhonesOfRemove(phones: map<nat, Phone>, k: nat, w: string)
    ensures PhonesOf(phones - {k}, w) <= PhonesOf(phones, w)
  {
  }

  /** Inserting a number that is long enough, new, and under its workspace's cap keeps the rules. */
  lemma PhonesOkInsert(phones: map<nat, Phone>, nextId: nat, p: Phone)
    requires PhonesOk(phones, nextId)
    requires |p.phoneNumber| >= MinPhoneLength && p.phoneNumber[0] == '+'
    requires !NumberTaken(phones, p.phoneNumber)
    requires |PhonesOf(phones, p.workspaceId)| < MaxPhonesPerWorkspace
    ensures PhonesOk(phones[nextId := p], nextId + 1)
  {
    var phones' := phones[nextId := p];
    forall w
      ensures |PhonesOf(phones', w)| <= MaxPhonesPerWorkspace
    {
      PhonesOfInsert(phones, nextId, p, w);
    }
  }

  lemma PhonesOkRemove(phones: map<nat, Phone>, nextId: nat, k: nat)
    requires PhonesOk(phones, nextId)
    ensures PhonesOk(phones - {k}, nextId)
  {
    forall w
      ensures |PhonesOf(phones - {k}, w)| <= MaxPhonesPerWorkspace
    {
      PhonesOfRemove(phones, k, w);
      assert |PhonesOf(phones - {k}, w)| <= |PhonesOf(phones, w)| by {
        SubsetCard(PhonesOf(phones - {k}, w), PhonesOf(phones, w));
      }
    }
  }

  lemma SubsetCard<T>(a: set<T>, b: set<T>)
    requires a <= b
    ensures |a| <= |b|
  {
    assert b == a + (b - a);
  }

  // ---------------------------------------------------------------------
  // The registry
  // ---------------------------------------------------------------------

  class PhoneRegistry {
    var phones: map<nat, Phone>
    var chats: map<string, Chat>
    var audit: seq<AuditEntry>
    var disconnects: seq<string>
    var nextId: nat
    const workspaces: map<string, WorkspaceRecord>

    ghost predicate Valid()
      reads this
    {
      PhonesOk(phones, nextId)
    }

    constructor(workspaces: map<string, WorkspaceRecord>)
      ensures Valid() && phones == map[] && chats == map[] && audit == [] && disconnects == []
      ensures this.workspaces == workspaces
    {
      phones := map[];
      chats := map[];
      audit := [];
      disconnects := [];
      nextId := 0;
      this.workspaces := workspaces;
    }

    function Fetch(w: string): Option<WorkspaceRecord>
      reads this
    {
      if w in workspaces then Some(workspaces[w]) else None
    }

    /** `add_phone_number`. The answer is the new phone's id. */
    method AddPhone(caller: User, data: PhoneCreate) returns (r: Response<nat>)
      requires Valid()
      modifies this
      ensures Valid()
      ensures !VerifyWorkspaceAdmin(Fetch(data.workspaceId), caller.id) ==>
        r.Refused? && r.code == 403 && phones == old(phones)
      ensures VerifyWorkspaceAdmin(Fetch(data.workspaceId), caller.id) && !LongEnough(data.phoneNumber) ==>
        r == Refused(400, "Valid phone number is required") && phones == old(phones)
      ensures (VerifyWorkspaceAdmin(Fetch(data.workspaceId), caller.id) && LongEnough(data.phoneNumber) &&
               NumberTaken(old(phones), CleanPhone(data.phoneNumber))) ==>
        r == Refused(400, "Phone number already exists") && phones == old(phones)
      ensures (VerifyWorkspaceAdmin(Fetch(data.workspaceId), caller.id) && LongEnough(data.phoneNumber) &&
               !NumberTaken(old(phones), CleanPhone(data.phoneNumber)) &&
               |PhonesOf(old(phones), data.workspaceId)| >= MaxPhonesPerWorkspace) ==>
        r == Refused(400, "Maximum 2 phone numbers allowed per workspace") && phones == old(phones)
      ensures r.Done? <==>
        VerifyWorkspaceAdmin(Fetch(data.workspaceId), caller.id) && LongEnough(data.phoneNumber) &&
        !NumberTaken(old(phones), CleanPhone(data.phoneNumber)) &&
        |PhonesOf(old(phones), data.workspaceId)| < MaxPhonesPerWorkspace
      ensures r.Done? ==>
        r.value == old(nextId) &&
        phones == old(phones)[r.value := Phone(CleanPhone(data.phoneNumber),
          if data.displayName.Some? && data.displayName.value != "" then Some(Strip(data.displayName.value)) else None,
          data.status, data.workspaceId)]
      ensures unchanged(this`chats, this`audit, this`disconnects)
    {
      if !VerifyWorkspaceAdmin(Fetch(data.workspaceId), caller.id) {
        return Refused(403, "Only workspace administrators can add phone numbers. User " + caller.id
                            + " is not admin of workspace " + data.workspaceId);
      }
      if !LongEnough(data.phoneNumber) {
        return Refused(400, "Valid phone number is required");
      }
      var clean := CleanPhone(data.phoneNumber);
      if NumberTaken(phones, clean) {
        return Refused(400, "Phone number already exists");
      }
      if |PhonesOf(phones, data.workspaceId)| >= MaxPhonesPerWorkspace {
        return Refused(400, "Maximum 2 phone numbers allowed per workspace");
      }
      var display := if data.displayName.Some? && data.displayName.value != ""
                     then Some(Strip(data.displayName.value)) else None;
      var p := Phone(clean, display, data.status, data.workspaceId);
      PhonesOkInsert(phones, nextId, p);
      phones := phones[nextId := p];
      r := Done(nextId);
      nextId := nextId + 1;
    }

    /**
     * What `delete_phone` of phone `id` promises, relating the state before
     * and after to the answer `r`.
     */
    twostate predicate DeleteOutcome(caller: User, id: nat, new r: Response<string>)
      reads this
    {
      if id !in old(phones) then
        r == Refused(404, "Phone number not found") && Same()
      else
        var p := old(phones)[id];
        if !VerifyWorkspaceAdmin(old(Fetch(p.workspaceId)), caller.id) then
          r.Refused? && r.code == 403 && Same()
        else
          RemoveOutcome(caller, id, r)
    }

    /** The part of `DeleteOutcome` past the lookup and the admin check, for the phone `id` stored before. */
    twostate predicate RemoveOutcome(caller: User, id: nat, new r: Response<string>)
      reads this
    {
      id in old(phones) &&
      var p := old(phones)[id];
      disconnects == old(disconnects) + (if p.status == Connected then [p.phoneNumber] else []) &&
      nextId == old(nextId) &&
      if |OpenChats(old(chats), p.phoneNumber)| > 0 then
        r == Refused(400, BlockedDetail(|OpenChats(old(chats), p.phoneNumber)|)) &&
        unchanged(this`phones, this`chats, this`audit)
      else
        r == Done(p.phoneNumber) &&
        phones == old(phones) - {id} &&
        chats == FlagChats(old(chats), p.phoneNumber) &&
        audit == old(audit) + [AuditEntry(caller.id, caller.email, p.workspaceId, id, p.phoneNumber)]
    }

    /** Nothing the routes write has changed. */
    twostate predicate Same()
      reads this
    {
      unchanged(this)
    }

    /**
     * `delete_phone`. A connected phone is disconnected first, before the
     * open chats are counted, so a refused delete may already have
     * disconnected it. The answer names the deleted number.
     */
    method DeletePhone(caller: User, id: nat) returns (r: Response<string>)
      requires Valid()
      modifies this
      ensures Valid()
      ensures DeleteOutcome(caller, id, r)
    {
      if id !in phones {
        return Refused(404, "Phone number not found");
      }
      var p := phones[id];
      if !VerifyWorkspaceAdmin(Fetch(p.workspaceId), caller.id) {
        return Refused(403, "Only workspace administrators can delete phone numbers. User " + caller.id
                            + " is not admin of workspace " + p.workspaceId);
      }
      r := RemovePhone(caller, id);
    }

    /** The disconnect, the open-chat check, the flagging, the removal and the audit entry. */
    method RemovePhone(caller: User, id: nat) returns (r: Response<string>)
      requires Valid() && id in phones
      modifies this
      ensures Valid()
      ensures RemoveOutcome(caller, id, r)
    {
      var p := phones[id];
      if p.status == Connected {
        disconnects := disconnects + [p.phoneNumber];
      }
      var open := |OpenChats(chats, p.phoneNumber)|;
      if open > 0 {
        return Refused(400, BlockedDetail(open));
      }
      chats := FlagChats(chats, p.phoneNumber);
      PhonesOkRemove(phones, nextId, id);
      phones := phones - {id};
      audit := audit + [AuditEntry(caller.id, caller.email, p.workspaceId, id, p.phoneNumber)];
      r := Done(p.phoneNumber);
    }

    /**
     * `delete_phone_by_number`: blank inputs are refused, the number is
     * cleaned as on insert, and a number not stored for that workspace is a
     * 404; otherwise it is `delete_phone` of the phone found.
     */
    method DeletePhoneByNumber(caller: User, workspaceId: string, number: string) returns (r: Response<string>)
      requires Valid()
      modifies this
      ensures Valid()
      ensures IsBlank(workspaceId) ==> r == Refused(400, "Workspace ID is required") && Same()
      ensures !IsBlank(workspaceId) && IsBlank(number) ==> r == Refused(400, "Phone number is required") && Same()
      ensures (!IsBlank(workspaceId) && !IsBlank(number) &&
               !VerifyWorkspaceAdmin(Fetch(workspaceId), caller.id)) ==>
        r.Refused? && r.code == 403 && Same()
      ensures (!IsBlank(workspaceId) && !IsBlank(number) &&
               VerifyWorkspaceAdmin(Fetch(workspaceId), caller.id)) ==>
        if exists k :: k in old(phones) && old(phones)[k].workspaceId == workspaceId &&
                       old(phones)[k].phoneNumber == CleanPhone(number)
        then exists k :: k in old(phones) && old(phones)[k].workspaceId == workspaceId &&
                         old(phones)[k].phoneNumber == CleanPhone(number) && DeleteOutcome(caller, k, r)
        else r == Refused(404, "Phone number " + CleanPhone(number) + " not found in workspace") && Same()
    {
      if workspaceId == "" || IsBlank(workspaceId) {
        assert Strip(workspaceId) == [];
        return Refused(400, "Workspace ID is required");
      }
      if number == "" || IsBlank(number) {
        return Refused(400, "Phone number is required");
      }
      var clean := CleanPhone(number);
      if !VerifyWorkspaceAdmin(Fetch(workspaceId), caller.id) {
        return Refused(403, "Only workspace administrators can delete phone numbers. User " + caller.id
                            + " is not admin of workspace " + workspaceId);
      }
      if !exists k :: k in phones && phones[k].workspaceId == workspaceId && phones[k].phoneNumber == clean {
        return Refused(404, "Phone number " + clean + " not found in workspace");
      }
      var k :| k in phones && phones[k].workspaceId == workspaceId && phones[k].phoneNumber == clean;
      r := DeletePhone(caller, k);
    }
  }

  // ---------------------------------------------------------------------
  // Properties
  // ---------------------------------------------------------------------

  /** A workspace never holds more than two phones, and no number is stored twice. */
  lemma RegistryRules(phones: map<nat, Phone>, nextId: nat, w: string, k: nat, l: nat)
    requires PhonesOk(phones, nextId)
    ensures |PhonesOf(phones, w)| <= 2
    ensures k in phones && l in phones && phones[k].phoneNumber == phones[l].phoneNumber ==> k == l
  {
  }

  /** Flagging touches only the chats on that number, and keeps every chat's status. */
  lemma FlagChatsSpec(chats: map<string, Chat>, n: string, c: string)
    requires c in chats
    ensures c in FlagChats(chats, n)
    ensures FlagChats(chats, n)[c].status == chats[c].status
    ensures FlagChats(chats, n)[c].phoneDeleted <==> chats[c].phoneDeleted || chats[c].phoneNumber == n
  {
  }

  /** An active or qualified chat on the number makes the count positive, so the delete is refused. */
  lemma OpenChatBlocks(chats: map<string, Chat>, n: string, c: string)
    requires c in chats && chats[c].phoneNumber == n
    requires chats[c].status == ChatActive || chats[c].status == Qualified
    ensures |OpenChats(chats, n)| > 0
  {
    assert c in OpenChats(chats, n);
  }
}
