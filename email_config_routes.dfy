/**
 * The e-mail configuration routes: creating, updating and deleting a
 * workspace's configuration (administrators only, one configuration per
 * workspace, a frequency of 1 to 60 minutes) and the manual trigger that
 * sends a notification covering the last few hours.
 */
module EmailConfigRoutes {
  import opened Text
  import opened Http
  import opened AuthHandler
  import opened ChatMessages
  import opened EmailNotifications

  /** The body of a create request. */
  datatype ConfigInput = ConfigInput(
    workspaceId: string,
    emailAddress: string,
    status: ConfigStatus,
    frequency: int,
    includeAi: bool,
    includeHuman: bool,
    timezone: string)

  /** The body of an update request: a missing field is left as it is. */
  datatype ConfigUpdate = ConfigUpdate(
    emailAddress: Option<string>,
    status: Option<ConfigStatus>,
    frequency: Option<int>,
    includeAi: Option<bool>,
    includeHuman: Option<bool>,
    timezone: Option<string>)

  const FrequencyRefused: string := "Send frequency must be between 1 and 60 minutes"
  const ConfigMissing: string := "Email configuration not found"

  predicate FrequencyOk(f: int)
  {
    MinFrequency <= f <= MaxFrequency
  }

  /** Some configuration of the table belongs to the workspace. */
  predicate HasWorkspace(configs: map<nat, EmailConfig>, workspaceId: string)
  {
    exists id :: id in configs && configs[id].workspaceId == workspaceId
  }

  /** The configuration a create request stores. */
  function NewConfig(input: ConfigInput, now: int): (c: EmailConfig)
    ensures c.workspaceId == input.workspaceId && c.frequency == input.frequency
    ensures c.lastSent.None? && c.totalSent == 0 && c.lastError.None?
  {
    EmailConfig(input.workspaceId, input.emailAddress, input.status, input.frequency,
                input.includeAi, input.includeHuman, input.timezone, now, now, None, 0, None)
  }

  /** A new configuration for a workspace that has none keeps the table's invariant. */
  lemma ConfigsOkInsert(configs: map<nat, EmailConfig>, nextId: nat, c: EmailConfig)
    requires ConfigsOk(configs, nextId)
    requires !HasWorkspace(configs, c.workspaceId) && FrequencyOk(c.frequency)
    ensures ConfigsOk(configs[nextId := c], nextId + 1)
  {
    var next := configs[nextId := c];
    forall a, b | a in next && b in next && a != b
      ensures next[a].workspaceId != next[b].workspaceId
    {
      if a == nextId {
        assert b in configs;
      } else if b == nextId {
        assert a in configs;
      }
    }
  }

  /** `POST /configs`. */
  method CreateConfigRoute(store: NotificationStore, workspaces: map<string, WorkspaceRecord>,
                           userId: string, input: ConfigInput, now: int)
    returns (r: Response<(nat, EmailConfig)>)
    requires store.Valid()
    modifies store
    ensures store.Valid()
    ensures !VerifyWorkspaceAdmin(Lookup(workspaces, input.workspaceId), userId) ==>
      r == Refused(403, "Only workspace administrators can configure email notifications") && unchanged(store)
    ensures (VerifyWorkspaceAdmin(Lookup(workspaces, input.workspaceId), userId) &&
             HasWorkspace(old(store.configs), input.workspaceId)) ==>
      r == Refused(400, "Email configuration already exists for this workspace. Use update instead.") &&
      unchanged(store)
    ensures (VerifyWorkspaceAdmin(Lookup(workspaces, input.workspaceId), userId) &&
             !HasWorkspace(old(store.configs), input.workspaceId) && !FrequencyOk(input.frequency)) ==>
      r == Refused(400, FrequencyRefused) && unchanged(store)
    ensures r.Done? ==>
      r.value == (old(store.nextId), NewConfig(input, now)) &&
      store.configs == old(store.configs)[old(store.nextId) := NewConfig(input, now)] &&
      store.nextId == old(store.nextId) + 1 && store.logs == old(store.logs)
    ensures r.Done? <==> (VerifyWorkspaceAdmin(Lookup(workspaces, input.workspaceId), userId) &&
      !HasWorkspace(old(store.configs), input.workspaceId) && FrequencyOk(input.frequency))
  {
    if !VerifyWorkspaceAdmin(Lookup(workspaces, input.workspaceId), userId) {
      return Refused(403, "Only workspace administrators can configure email notifications");
    }
    if HasWorkspace(store.configs, input.workspaceId) {
      return Refused(400, "Email configuration already exists for this workspace. Use update instead.");
    }
    if !FrequencyOk(input.frequency) {
      return Refused(400, FrequencyRefused);
    }
    var c := NewConfig(input, now);
    ConfigsOkInsert(store.configs, store.nextId, c);
    var id := store.nextId;
    store.configs := store.configs[id := c];
    store.nextId := id + 1;
    r := Done((id, c));
  }

  /** The `$set` of an update: the given fields and the update time. */
  function Applied(c: EmailConfig, u: ConfigUpdate, now: int): (d: EmailConfig)
    ensures d.updatedAt == now
    ensures d.workspaceId == c.workspaceId && d.createdAt == c.createdAt
    ensures d.lastSent == c.lastSent && d.totalSent == c.totalSent && d.lastError == c.lastError
    ensures u.frequency.None? ==> d.frequency == c.frequency
    ensures u.frequency.Some? ==> d.frequency == u.frequency.value
  {
    c.(emailAddress := if u.emailAddress.Some? then u.emailAddress.value else c.emailAddress,
       status := if u.status.Some? then u.status.value else c.status,
       frequency := if u.frequency.Some? then u.frequency.value else c.frequency,
       includeAi := if u.includeAi.Some? then u.includeAi.value else c.includeAi,
       includeHuman := if u.includeHuman.Some? then u.includeHuman.value else c.includeHuman,
       timezone := if u.timezone.Some? then u.timezone.value else c.timezone,
       updatedAt := now)
  }

  /** An update naming no field only touches the update time; applying the same update twice is applying it once. */
  lemma AppliedProperties(c: EmailConfig, u: ConfigUpdate, now: int, later: int)
    ensures u == ConfigUpdate(None, None, None, None, None, None) ==> Applied(c, u, now) == c.(updatedAt := now)
    ensures Applied(Applied(c, u, now), u, later) == Applied(c, u, later)
    ensures u.includeAi == Some(false) ==> !Applied(c, u, now).includeAi
  {
  }

  /** `PUT /configs/{config_id}`. */
  method UpdateConfigRoute(store: NotificationStore, workspaces: map<string, WorkspaceRecord>,
                           userId: string, id: nat, u: ConfigUpdate, now: int)
    returns (r: Response<EmailConfig>)
    requires store.Valid()
    modifies store
    ensures store.Valid()
    ensures id !in old(store.configs) ==> r == Refused(404, ConfigMissing) && unchanged(store)
    ensures (id in old(store.configs) &&
             !VerifyWorkspaceAdmin(Lookup(workspaces, old(store.configs)[id].workspaceId), userId)) ==>
      r == Refused(403, "Only workspace administrators can update email configurations") && unchanged(store)
    ensures (id in old(store.configs) &&
             VerifyWorkspaceAdmin(Lookup(workspaces, old(store.configs)[id].workspaceId), userId) &&
             u.frequency.Some? && !FrequencyOk(u.frequency.value)) ==>
      r == Refused(400, FrequencyRefused) && unchanged(store)
    ensures r.Done? ==>
      r.value == Applied(old(store.configs)[id], u, now) &&
      store.configs == old(store.configs)[id := r.value] &&
      store.nextId == old(store.nextId) && store.logs == old(store.logs)
  {
    if id !in store.configs {
      return Refused(404, ConfigMissing);
    }
    var c := store.configs[id];
    if !VerifyWorkspaceAdmin(Lookup(workspaces, c.workspaceId), userId) {
      return Refused(403, "Only workspace administrators can update email configurations");
    }
    if u.frequency.Some? && !FrequencyOk(u.frequency.value) {
      return Refused(400, FrequencyRefused);
    }
    var d := Applied(c, u, now);
    ConfigsOkReplace(store.configs, store.nextId, id, d);
    store.configs := store.configs[id := d];
    r := Done(d);
  }

  /** `delete_many({"email_config_id": ...})`: the logs of other configurations, in order. */
  function LogsWithout(logs: seq<EmailLog>, id: nat): (r: seq<EmailLog>)
    ensures |r| <= |logs|
    ensures forall l :: l in r <==> l in logs && l.configId != id
  {
    if logs == [] then []
    else (if logs[0].configId != id then [logs[0]] else []) + LogsWithout(logs[1..], id)
  }

  /** Once its configuration is deleted, the workspace has none and can be configured again. */
  lemma DeleteFreesWorkspace(configs: map<nat, EmailConfig>, nextId: nat, id: nat)
    requires ConfigsOk(configs, nextId) && id in configs
    ensures !HasWorkspace(configs - {id}, configs[id].workspaceId)
    ensures ConfigsOk(configs - {id}, nextId)
  {
  }

  /** `DELETE /configs/{config_id}`: the configuration and its logs go. */
  method DeleteConfigRoute(store: NotificationStore, workspaces: map<string, WorkspaceRecord>,
                           userId: string, id: nat)
    returns (r: Response<string>)
    requires store.Valid()
    modifies store
    ensures store.Valid()
    ensures id !in old(store.configs) ==> r == Refused(404, ConfigMissing) && unchanged(store)
    ensures (id in old(store.configs) &&
             !VerifyWorkspaceAdmin(Lookup(workspaces, old(store.configs)[id].workspaceId), userId)) ==>
      r == Refused(403, "Only workspace administrators can delete email configurations") && unchanged(store)
    ensures r.Done? ==>
      r.value == "Email configuration deleted successfully" &&
      store.configs == old(store.configs) - {id} &&
      store.logs == LogsWithout(old(store.logs), id) && store.nextId == old(store.nextId)
    ensures r.Done? <==> (id in old(store.configs) &&
      VerifyWorkspaceAdmin(Lookup(workspaces, old(store.configs)[id].workspaceId), userId))
  {
    if id !in store.configs {
      return Refused(404, ConfigMissing);
    }
    if !VerifyWorkspaceAdmin(Lookup(workspaces, store.configs[id].workspaceId), userId) {
      return Refused(403, "Only workspace administrators can delete email configurations");
    }
    DeleteFreesWorkspace(store.configs, store.nextId, id);
    store.configs := store.configs - {id};
    store.logs := LogsWithout(store.logs, id);
    r := Done("Email configuration deleted successfully");
  }

  // ---------------------------------------------------------------------
  // The manual trigger
  // ---------------------------------------------------------------------

  const MinHours: int := 1
  const MaxHours: int := 24

  /** What the manual trigger answers. */
  datatype ManualResult = ManualResult(success: bool, message: string, messageCount: nat, reason: string, hoursIncluded: int)

  /** `find_one({"workspace_id": ..., "status": "active"})`, in ascending id order below `n`. */
  function ActiveConfigOf(configs: map<nat, EmailConfig>, n: nat, workspaceId: string): (r: Option<nat>)
    ensures r.Some? ==> (r.value in configs && r.value < n &&
      configs[r.value].workspaceId == workspaceId && configs[r.value].status == ConfigActive)
    ensures r.None? ==> forall id :: id in configs && id < n ==>
      !(configs[id].workspaceId == workspaceId && configs[id].status == ConfigActive)
  {
    if n == 0 then None
    else
      var found := ActiveConfigOf(configs, n - 1, workspaceId);
      if found.Some? then found
      else if n - 1 in configs && configs[n - 1].workspaceId == workspaceId && configs[n - 1].status == ConfigActive
      then Some(n - 1)
      else None
  }

  /**
   * The trigger as written: the handler builds the new window with
   * `timedelta`, which the module does not import, so once an active
   * configuration is found the `NameError` is caught and answered with 500.
   * Nothing is sent and nothing changes.
   */
  function TriggerManualAsWritten(configs: map<nat, EmailConfig>, nextId: nat,
                                  workspaces: map<string, WorkspaceRecord>, userId: string,
                                  workspaceId: string, hours: int): (r: Response<ManualResult>)
    ensures r.Refused?
    ensures !(MinHours <= hours <= MaxHours) ==> r.code == 422
    ensures (MinHours <= hours <= MaxHours && !VerifyWorkspaceAdmin(Lookup(workspaces, workspaceId), userId)) ==>
      r == Refused(403, "Only workspace administrators can trigger manual notifications")
  {
    if !(MinHours <= hours <= MaxHours) then Refused(422, "Query parameter out of range")
    else if !VerifyWorkspaceAdmin(Lookup(workspaces, workspaceId), userId) then
      Refused(403, "Only workspace administrators can trigger manual notifications")
    else if ActiveConfigOf(configs, nextId, workspaceId).None? then
      Refused(404, "No active email configuration found for this workspace")
    else Refused(500, "Failed to trigger manual notification")
  }

  /** An administrator with an active configuration and a valid `hours` is always answered 500. */
  lemma ManualTriggerAlwaysFails(configs: map<nat, EmailConfig>, nextId: nat,
                                 workspaces: map<string, WorkspaceRecord>, userId: string,
                                 workspaceId: string, hours: int, id: nat)
    requires MinHours <= hours <= MaxHours && VerifyWorkspaceAdmin(Lookup(workspaces, workspaceId), userId)
    requires id in configs && id < nextId && configs[id].workspaceId == workspaceId && configs[id].status == ConfigActive
    ensures TriggerManualAsWritten(configs, nextId, workspaces, userId, workspaceId, hours) ==
      Refused(500, "Failed to trigger manual notification")
  {
    assert ActiveConfigOf(configs, nextId, workspaceId).Some?;
  }

  /** The configuration the trigger hands to the notification: its window starts `hours` back. */
  function ManualConfig(c: EmailConfig, hours: int, now: int): (d: EmailConfig)
    ensures WindowStart(d, now) == now - hours * 3600
  {
    c.(lastSent := Some(now - hours * 3600))
  }

  /**
   * The trigger as intended: the active configuration's notification runs over
   * the last `hours` hours, and its outcome is answered. The stored
   * configuration is the one that is stamped, with a log appended, or marked
   * with the error; every refusal leaves the store as it was.
   */
  method TriggerManualRoute(store: NotificationStore, workspaces: map<string, WorkspaceRecord>, userId: string,
                            workspaceId: string, hours: int, names: map<string, string>,
                            messages: seq<ChatMessage>, now: int,
                            reportError: Option<string>, emailSent: bool)
    returns (r: Response<ManualResult>)
    requires store.Valid()
    modifies store
    ensures store.Valid()
    ensures !(MinHours <= hours <= MaxHours) ==> r.Refused? && r.code == 422 && unchanged(store)
    ensures (MinHours <= hours <= MaxHours && !VerifyWorkspaceAdmin(Lookup(workspaces, workspaceId), userId)) ==>
      r == Refused(403, "Only workspace administrators can trigger manual notifications") && unchanged(store)
    ensures r.Done? ==>
      var id := ActiveConfigOf(old(store.configs), old(store.nextId), workspaceId);
      id.Some? &&
      var res := Notify(ManualConfig(old(store.configs)[id.value], hours, now), names, messages, now, reportError, emailSent);
      r.value == ManualResult(res.success, "Manual notification processed for workspace", res.messageCount, res.reason, hours)
    ensures r.Done? <==> (MinHours <= hours <= MaxHours &&
      VerifyWorkspaceAdmin(Lookup(workspaces, workspaceId), userId) &&
      ActiveConfigOf(old(store.configs), old(store.nextId), workspaceId).Some?)
    ensures (MinHours <= hours <= MaxHours && VerifyWorkspaceAdmin(Lookup(workspaces, workspaceId), userId) &&
             ActiveConfigOf(old(store.configs), old(store.nextId), workspaceId).None?) ==>
      r == Refused(404, "No active email configuration found for this workspace") && unchanged(store)
    ensures r.Done? ==> store.nextId == old(store.nextId)
    ensures r.Done? ==>
      var id := ActiveConfigOf(old(store.configs), old(store.nextId), workspaceId).value;
      var c := ManualConfig(old(store.configs)[id], hours, now);
      var path := PathOf(c, names, messages, now, reportError, emailSent);
      && (path == Sent ==>
            store.configs == Stamped(old(store.configs), id, now) &&
            store.logs == old(store.logs) + [EmailLog(c.workspaceId, id, c.emailAddress, r.value.messageCount, "sent", now)])
      && (path.ReportFailed? ==>
            store.configs == Errored(old(store.configs), id, reportError.value, now) && store.logs == old(store.logs))
      && (path in {NoWorkspace, NoMessages, SendFailed} ==>
            store.configs == old(store.configs) && store.logs == old(store.logs))
  {
    if !(MinHours <= hours <= MaxHours) {
      return Refused(422, "Query parameter out of range");
    }
    if !VerifyWorkspaceAdmin(Lookup(workspaces, workspaceId), userId) {
      return Refused(403, "Only workspace administrators can trigger manual notifications");
    }
    var found := ActiveConfigOf(store.configs, store.nextId, workspaceId);
    if found.None? {
      return Refused(404, "No active email configuration found for this workspace");
    }
    var c := ManualConfig(store.configs[found.value], hours, now);
    var res := store.SendWorkspaceNotification(found.value, c, names, messages, now, reportError, emailSent);
    r := Done(ManualResult(res.success, "Manual notification processed for workspace", res.messageCount, res.reason, hours));
  }

  /** Whatever the trigger reports counts exactly the messages of the last `hours` hours. */
  lemma ManualReportsLastHours(c: EmailConfig, hours: int, names: map<string, string>,
                               messages: seq<ChatMessage>, now: int,
                               reportError: Option<string>, emailSent: bool, m: ChatMessage)
    ensures var res := Notify(ManualConfig(c, hours, now), names, messages, now, reportError, emailSent);
      res.messageCount != 0 ==> res.messageCount == |NewMessages(messages, c, now - hours * 3600)|
    ensures m in NewMessages(messages, ManualConfig(c, hours, now), WindowStart(ManualConfig(c, hours, now), now)) <==>
      m in messages && m.chat.workspaceId == c.workspaceId && m.timestamp >= now - hours * 3600 &&
      Admits(SourceCriterion(c.includeAi, c.includeHuman), m)
  {
    assert NewMessages(messages, ManualConfig(c, hours, now), now - hours * 3600) ==
      NewMessages(messages, c, now - hours * 3600);
  }
}
