/**
 * The chat e-mail notifications: per configuration, the messages of the
 * workspace since the last e-mail (filtered by source as the configuration
 * says) go out as a spreadsheet, the configuration's timestamp and counter
 * advance and a log entry is written; a pass over all active configurations
 * tallies the outcomes; the statistics fold the logs of a period.
 *
 * Building the spreadsheet and SMTP are outside the model: whether the
 * spreadsheet step raised (and with which message) and whether the e-mail
 * went out are parameters. The workspace lookup is a map from workspace id
 * to name. Times are in seconds.
 */
module EmailNotifications {
  import opened Text
  import opened Ranking
  import opened ChatMessages

  // ---------------------------------------------------------------------
  // File names
  // ---------------------------------------------------------------------

  const FallbackName: string := "workspace"

  predicate IsFileChar(c: char)
  {
    IsAlnum(c) || c == '-' || c == '_'
  }

  /**
   * `_sanitize_filename`: letters, digits, spaces, '-' and '_' are kept, the
   * result is trimmed, spaces become '_', and an empty result becomes
   * "workspace".
   */
  function SanitizeFilename(name: string): (r: string)
    ensures r != []
    ensures forall i :: 0 <= i < |r| ==> IsFileChar(r[i])
  {
    var kept := Strip(KeepNameChars(name));
    var joined := ReplaceChar(kept, ' ', '_');
    StripNameChars(KeepNameChars(name));
    if joined == [] then
      assert FallbackName == ['w'] + "orkspace";
      FallbackName
    else joined
  }

  /** A non-empty name made only of file characters is kept as it is. */
  lemma SanitizeKeepsClean(name: string)
    requires name != [] && forall i :: 0 <= i < |name| ==> IsFileChar(name[i])
    ensures SanitizeFilename(name) == name
  {
    assert KeepNameChars(name) == name;
    StripOfTrimmed(name);
    assert ReplaceChar(name, ' ', '_') == name;
  }

  /** Sanitising twice is sanitising once. */
  lemma SanitizeIdempotent(name: string)
    ensures SanitizeFilename(SanitizeFilename(name)) == SanitizeFilename(name)
  {
    SanitizeKeepsClean(SanitizeFilename(name));
  }

  // ---------------------------------------------------------------------
  // Report rows
  // ---------------------------------------------------------------------

  /** A row of the report; the IST timestamp column is not modelled. */
  datatype ReportRow = ReportRow(
    senderPhone: string,
    receiverPhone: string,
    direction: string,
    source: string,
    content: string,
    customerName: string,
    chatStatus: string,
    messageType: string)

  /** The row `_create_chat_excel_report` writes for one message. */
  function Row(m: ChatMessage): (r: ReportRow)
    ensures (r.senderPhone, r.receiverPhone) == Parties(m)
    ensures r.direction == "Incoming" <==> Incoming(m)
    ensures r.source == "Customer" <==> Incoming(m)
    ensures r.source == "AI Generated" <==> !Incoming(m) && AiFlag(m)
    ensures r.source == "Human" <==> !Incoming(m) && !AiFlag(m)
  {
    var parties := Parties(m);
    ReportRow(
      parties.0, parties.1,
      if Incoming(m) then "Incoming" else "Outgoing",
      if Incoming(m) then "Customer" else if AiFlag(m) then "AI Generated" else "Human",
      Or(m.content, ""),
      Or(m.chat.customerName, ""),
      Or(m.chat.status, "active"),
      Title(Or(m.messageType, "text")))
  }

  /** The loop that fills the report: one row per message, in order. */
  method BuildRows(messages: seq<ChatMessage>) returns (rows: seq<ReportRow>)
    ensures |rows| == |messages|
    ensures forall i :: 0 <= i < |messages| ==> rows[i] == Row(messages[i])
  {
    rows := [];
    var i := 0;
    while i < |messages|
      invariant 0 <= i <= |messages|
      invariant |rows| == i
      invariant forall k :: 0 <= k < i ==> rows[k] == Row(messages[k])
    {
      rows := rows + [Row(messages[i])];
      i := i + 1;
    }
  }

  // ---------------------------------------------------------------------
  // Configurations and the message query
  // ---------------------------------------------------------------------

  datatype ConfigStatus = ConfigActive | ConfigInactive | ConfigError

  /** An e-mail configuration; `lastSent` and `lastError` are absent until set. */
  datatype EmailConfig = EmailConfig(
    workspaceId: string,
    emailAddress: string,
    status: ConfigStatus,
    frequency: int,
    includeAi: bool,
    includeHuman: bool,
    timezone: string,
    createdAt: int,
    updatedAt: int,
    lastSent: Option<int>,
    totalSent: nat,
    lastError: Option<string>)

  /** The condition the query puts on `is_ai_generated`. */
  datatype SourceMatch = AnySource | NotAi | OnlyAi

  /**
   * The source condition: excluding AI messages asks for `$ne: true`;
   * excluding human messages then overwrites it with `true`.
   */
  function SourceCriterion(includeAi: bool, includeHuman: bool): SourceMatch
  {
    var c := if !includeAi then NotAi else AnySource;
    if !includeHuman then OnlyAi else c
  }

  predicate Admits(c: SourceMatch, m: ChatMessage)
  {
    match c
    case AnySource => true
    case NotAi => m.isAi != Some(true)
    case OnlyAi => m.isAi == Some(true)
  }

  /**
   * An AI message is reported when AI messages are included or human ones are
   * excluded (the second flag wins when both are off); any other message is
   * reported exactly when human messages are included.
   */
  lemma SourceCriterionMeaning(includeAi: bool, includeHuman: bool, m: ChatMessage)
    ensures AiFlag(m) ==> (Admits(SourceCriterion(includeAi, includeHuman), m) <==> includeAi || !includeHuman)
    ensures !AiFlag(m) ==> (Admits(SourceCriterion(includeAi, includeHuman), m) <==> includeHuman)
  {
  }

  function Admitted(messages: seq<ChatMessage>, c: SourceMatch): (r: seq<ChatMessage>)
    ensures |r| <= |messages|
    ensures forall m :: m in r <==> m in messages && Admits(c, m)
  {
    if messages == [] then []
    else (if Admits(c, messages[0]) then [messages[0]] else []) + Admitted(messages[1..], c)
  }

  /** `_get_new_chat_messages`. */
  function NewMessages(messages: seq<ChatMessage>, c: EmailConfig, since: int): (r: seq<ChatMessage>)
    ensures forall m :: m in r <==>
      m in messages && m.chat.workspaceId == c.workspaceId && m.timestamp >= since &&
      Admits(SourceCriterion(c.includeAi, c.includeHuman), m)
  {
    Admitted(Since(messages, c.workspaceId, since), SourceCriterion(c.includeAi, c.includeHuman))
  }

  /** Where the window starts: the last e-mail, or `frequency` minutes back when none was sent. */
  function WindowStart(c: EmailConfig, now: int): int
  {
    if c.lastSent.Some? then c.lastSent.value else now - c.frequency * 60
  }

  /** A configuration that never sent reports the last `frequency` minutes. */
  lemma FirstWindow(messages: seq<ChatMessage>, c: EmailConfig, now: int, m: ChatMessage)
    requires c.lastSent.None?
    ensures m in NewMessages(messages, c, WindowStart(c, now)) <==>
      m in messages && m.chat.workspaceId == c.workspaceId && m.timestamp >= now - 60 * c.frequency &&
      Admits(SourceCriterion(c.includeAi, c.includeHuman), m)
  {
  }

  // ---------------------------------------------------------------------
  // One notification
  // ---------------------------------------------------------------------

  /** How `_send_workspace_notification` ends. */
  datatype Path = NoWorkspace | NoMessages | ReportFailed(error: string) | SendFailed | Sent

  function PathOf(c: EmailConfig, names: map<string, string>, messages: seq<ChatMessage>, now: int,
                  reportError: Option<string>, emailSent: bool): Path
  {
    if c.workspaceId !in names then NoWorkspace
    else if |NewMessages(messages, c, WindowStart(c, now))| == 0 then NoMessages
    else if reportError.Some? then ReportFailed(reportError.value)
    else if emailSent then Sent
    else SendFailed
  }

  datatype NotifyResult = NotifyResult(success: bool, messageCount: nat, reason: string)

  /** The result the notification returns on each path. */
  function Notify(c: EmailConfig, names: map<string, string>, messages: seq<ChatMessage>, now: int,
                  reportError: Option<string>, emailSent: bool): (r: NotifyResult)
    ensures r.success <==> (c.workspaceId in names &&
      (|NewMessages(messages, c, WindowStart(c, now))| == 0 || (reportError.None? && emailSent)))
    ensures c.workspaceId in names && |NewMessages(messages, c, WindowStart(c, now))| == 0 ==>
      r == NotifyResult(true, 0, "no_new_messages")
    ensures r.messageCount != 0 ==>
      r.messageCount == |NewMessages(messages, c, WindowStart(c, now))| && reportError.None?
  {
    var n := |NewMessages(messages, c, WindowStart(c, now))|;
    match PathOf(c, names, messages, now, reportError, emailSent)
    case NoWorkspace => NotifyResult(false, 0, "workspace_not_found")
    case NoMessages => NotifyResult(true, 0, "no_new_messages")
    case ReportFailed(e) => NotifyResult(false, 0, "error: " + e)
    case SendFailed => NotifyResult(false, n, "email_send_failed")
    case Sent => NotifyResult(true, n, "email_sent_successfully")
  }

  /** An e-mail log entry. */
  datatype EmailLog = EmailLog(
    workspaceId: string,
    configId: nat,
    recipient: string,
    messageCount: nat,
    status: string,
    sentAt: int)

  /** `_update_last_email_timestamp`: a no-op when the configuration is gone. */
  function Stamped(configs: map<nat, EmailConfig>, id: nat, now: int): map<nat, EmailConfig>
  {
    if id in configs then
      configs[id := configs[id].(lastSent := Some(now), updatedAt := now, totalSent := configs[id].totalSent + 1)]
    else configs
  }

  /** `_log_email_error`. */
  function Errored(configs: map<nat, EmailConfig>, id: nat, error: string, now: int): map<nat, EmailConfig>
  {
    if id in configs then configs[id := configs[id].(lastError := Some(error), updatedAt := now)] else configs
  }

  /** After an e-mail goes out, the configuration's next window starts at that send, and its counter has grown by one. */
  lemma StampedMovesWindow(configs: map<nat, EmailConfig>, id: nat, now: int, later: int)
    requires id in configs
    ensures WindowStart(Stamped(configs, id, now)[id], later) == now
    ensures Stamped(configs, id, now)[id].totalSent == configs[id].totalSent + 1
    ensures forall k :: k in configs && k != id ==> k in Stamped(configs, id, now) && Stamped(configs, id, now)[k] == configs[k]
  {
  }

  // ---------------------------------------------------------------------
  // The configuration table invariant
  // ---------------------------------------------------------------------

  const MinFrequency: int := 1
  const MaxFrequency: int := 60

  /** Ids are below the counter, each workspace has at most one configuration, frequencies lie in [1, 60]. */
  predicate ConfigsOk(configs: map<nat, EmailConfig>, nextId: nat)
  {
    (forall id :: id in configs ==> id < nextId && MinFrequency <= configs[id].frequency <= MaxFrequency) &&
    (forall a, b :: a in configs && b in configs && a != b ==> configs[a].workspaceId != configs[b].workspaceId)
  }

  /** Changing a configuration's other fields keeps the table's invariant. */
  lemma ConfigsOkReplace(configs: map<nat, EmailConfig>, nextId: nat, id: nat, c: EmailConfig)
    requires ConfigsOk(configs, nextId) && id in configs
    requires c.workspaceId == configs[id].workspaceId && MinFrequency <= c.frequency <= MaxFrequency
    ensures ConfigsOk(configs[id := c], nextId)
  {
  }

  lemma StampedOk(configs: map<nat, EmailConfig>, nextId: nat, id: nat, now: int)
    requires ConfigsOk(configs, nextId)
    ensures ConfigsOk(Stamped(configs, id, now), nextId)
  {
    if id in configs {
      ConfigsOkReplace(configs, nextId, id, Stamped(configs, id, now)[id]);
    }
  }

  lemma ErroredOk(configs: map<nat, EmailConfig>, nextId: nat, id: nat, error: string, now: int)
    requires ConfigsOk(configs, nextId)
    ensures ConfigsOk(Errored(configs, id, error, now), nextId)
  {
    if id in configs {
      ConfigsOkReplace(configs, nextId, id, Errored(configs, id, error, now)[id]);
    }
  }

  /** The active configurations in the collection's order (ascending ids). */
  function ActiveIds(configs: map<nat, EmailConfig>, n: nat): (r: seq<nat>)
    ensures forall id :: id in r <==> id in configs && id < n && configs[id].status == ConfigActive
    ensures forall i, j :: 0 <= i < j < |r| ==> r[i] < r[j]
    ensures forall i :: 0 <= i < |r| ==> r[i] < n
  {
    if n == 0 then []
    else
      var id := n - 1;
      ActiveIds(configs, n - 1) + if id in configs && configs[id].status == ConfigActive then [id] else []
  }

  // ---------------------------------------------------------------------
  // The pass over all configurations
  // ---------------------------------------------------------------------

  datatype Summary = Summary(total: nat, successful: nat, failed: nat, messagesSent: nat)

  /** One result counted into the summary. */
  function Add(s: Summary, r: NotifyResult): Summary
  {
    if r.success then Summary(s.total + 1, s.successful + 1, s.failed, s.messagesSent + r.messageCount)
    else Summary(s.total + 1, s.successful, s.failed + 1, s.messagesSent)
  }

  /** The counters of a pass, folded over the results in order. */
  function Tally(results: seq<NotifyResult>): (s: Summary)
    ensures s.total == |results|
    ensures s.successful + s.failed == s.total
    ensures s.messagesSent == 0 <== forall i :: 0 <= i < |results| ==> !results[i].success || results[i].messageCount == 0
  {
    if results == [] then Summary(0, 0, 0, 0)
    else Add(Tally(results[..|results| - 1]), results[|results| - 1])
  }

  /** Every one of `ids` names a configuration of `snapshot`. */
  predicate AllIn(ids: seq<nat>, snapshot: map<nat, EmailConfig>)
  {
    forall k :: 0 <= k < |ids| ==> ids[k] in snapshot
  }

  /** The results of the pass: each active configuration as read before the pass began. */
  function Results(ids: seq<nat>, snapshot: map<nat, EmailConfig>, names: map<string, string>,
                   messages: seq<ChatMessage>, now: int,
                   reportError: nat -> Option<string>, emailSent: nat -> bool): (rs: seq<NotifyResult>)
    requires AllIn(ids, snapshot)
    ensures |rs| == |ids|
  {
    if ids == [] then []
    else
      var id := ids[|ids| - 1];
      Results(ids[..|ids| - 1], snapshot, names, messages, now, reportError, emailSent) +
      [Notify(snapshot[id], names, messages, now, reportError(id), emailSent(id))]
  }

  /** One more configuration of the pass adds its result to the counters. */
  lemma TallyNext(ids: seq<nat>, i: nat, snapshot: map<nat, EmailConfig>, names: map<string, string>,
                  messages: seq<ChatMessage>, now: int,
                  reportError: nat -> Option<string>, emailSent: nat -> bool)
    requires i < |ids| && AllIn(ids, snapshot)
    ensures Tally(Results(ids[..i + 1], snapshot, names, messages, now, reportError, emailSent)) ==
      Add(Tally(Results(ids[..i], snapshot, names, messages, now, reportError, emailSent)),
          Notify(snapshot[ids[i]], names, messages, now, reportError(ids[i]), emailSent(ids[i])))
  {
    assert ids[..i + 1][..i] == ids[..i];
    var rs := Results(ids[..i + 1], snapshot, names, messages, now, reportError, emailSent);
    assert rs[..|rs| - 1] == Results(ids[..i], snapshot, names, messages, now, reportError, emailSent);
  }

  // ---------------------------------------------------------------------
  // Statistics
  // ---------------------------------------------------------------------

  /** One entry of the daily breakdown. */
  datatype DayCount = DayCount(day: string, emails: nat, messages: nat)

  datatype EmailStatistics = EmailStatistics(
    totalEmails: nat,
    successful: nat,
    totalMessages: nat,
    successRate: real,
    daily: seq<DayCount>,
    lastEmailDate: Option<int>)

  /** The query of the statistics: the workspace's logs sent from `cutoff` on. */
  function InPeriod(logs: seq<EmailLog>, workspaceId: string, cutoff: int): (r: seq<EmailLog>)
    ensures |r| <= |logs|
    ensures forall l :: l in r <==> l in logs && l.workspaceId == workspaceId && l.sentAt >= cutoff
  {
    if logs == [] then []
    else
      (if logs[0].workspaceId == workspaceId && logs[0].sentAt >= cutoff then [logs[0]] else []) +
      InPeriod(logs[1..], workspaceId, cutoff)
  }

  function SentCount(logs: seq<EmailLog>): (n: nat)
    ensures n <= |logs|
  {
    if logs == [] then 0 else (if logs[0].status == "sent" then 1 else 0) + SentCount(logs[1..])
  }

  function MessageTotal(logs: seq<EmailLog>): nat
  {
    if logs == [] then 0 else logs[0].messageCount + MessageTotal(logs[1..])
  }

  lemma {:induction false} MessageTotalAppend(logs: seq<EmailLog>, l: EmailLog)
    ensures MessageTotal(logs + [l]) == MessageTotal(logs) + l.messageCount
  {
    if logs != [] {
      assert (logs + [l])[1..] == logs[1..] + [l];
      MessageTotalAppend(logs[1..], l);
    }
  }

  function SumEmails(ds: seq<DayCount>): nat
  {
    if ds == [] then 0 else ds[0].emails + SumEmails(ds[1..])
  }

  function SumMessages(ds: seq<DayCount>): nat
  {
    if ds == [] then 0 else ds[0].messages + SumMessages(ds[1..])
  }

  predicate DistinctDays(ds: seq<DayCount>)
  {
    forall i, j :: 0 <= i < j < |ds| ==> ds[i].day != ds[j].day
  }

  /** One log counted into the breakdown: its day's entry grows, or a new entry is appended. */
  function Bump(ds: seq<DayCount>, day: string, messages: nat): (r: seq<DayCount>)
    ensures |r| == |ds| || r == ds + [DayCount(day, 1, messages)]
    ensures forall i :: 0 <= i < |ds| ==> r[i].day == ds[i].day
  {
    if ds == [] then [DayCount(day, 1, messages)]
    else if ds[0].day == day then [ds[0].(emails := ds[0].emails + 1, messages := ds[0].messages + messages)] + ds[1..]
    else [ds[0]] + Bump(ds[1..], day, messages)
  }

  lemma {:induction false} BumpSums(ds: seq<DayCount>, day: string, messages: nat)
    ensures SumEmails(Bump(ds, day, messages)) == SumEmails(ds) + 1
    ensures SumMessages(Bump(ds, day, messages)) == SumMessages(ds) + messages
  {
    if ds != [] && ds[0].day != day {
      BumpSums(ds[1..], day, messages);
      assert Bump(ds, day, messages)[1..] == Bump(ds[1..], day, messages);
    }
  }

  lemma {:induction false} BumpDistinct(ds: seq<DayCount>, day: string, messages: nat)
    requires DistinctDays(ds)
    ensures DistinctDays(Bump(ds, day, messages))
  {
    if ds != [] && ds[0].day != day {
      BumpDistinct(ds[1..], day, messages);
      var r := Bump(ds, day, messages);
      assert r[1..] == Bump(ds[1..], day, messages);
      if |r| != |ds| {
        BumpAbsent(ds, day, messages);
      }
    }
  }

  /** A new entry is appended only for a day not yet present. */
  lemma {:induction false} BumpAbsent(ds: seq<DayCount>, day: string, messages: nat)
    requires |Bump(ds, day, messages)| != |ds|
    ensures forall i :: 0 <= i < |ds| ==> ds[i].day != day
  {
    if ds != [] {
      BumpAbsent(ds[1..], day, messages);
    }
  }

  /** The daily breakdown of `logs`, built in their order; `dayOf` renders a send time as its date. */
  function Daily(logs: seq<EmailLog>, dayOf: int -> string): seq<DayCount>
  {
    if logs == [] then []
    else
      var l := logs[|logs| - 1];
      Bump(Daily(logs[..|logs| - 1], dayOf), dayOf(l.sentAt), l.messageCount)
  }

  /** The breakdown has one entry per day, and its counts add up to the totals. */
  lemma {:induction false} DailyAddsUp(logs: seq<EmailLog>, dayOf: int -> string)
    ensures DistinctDays(Daily(logs, dayOf))
    ensures SumEmails(Daily(logs, dayOf)) == |logs|
    ensures SumMessages(Daily(logs, dayOf)) == MessageTotal(logs)
  {
    if logs != [] {
      var init := logs[..|logs| - 1];
      var l := logs[|logs| - 1];
      DailyAddsUp(init, dayOf);
      BumpSums(Daily(init, dayOf), dayOf(l.sentAt), l.messageCount);
      BumpDistinct(Daily(init, dayOf), dayOf(l.sentAt), l.messageCount);
      MessageTotalAppend(init, l);
      assert init + [l] == logs;
    }
  }

  /** The success rate in percent: 0 without logs. */
  function SuccessRate(successful: nat, total: nat): (r: real)
    requires successful <= total
    ensures 0.0 <= r <= 100.0
    ensures total > 0 && successful == total ==> r == 100.0
    ensures successful == 0 ==> r == 0.0
  {
    if total > 0 then successful as real / total as real * 100.0 else 0.0
  }

  function SentAtKey(l: EmailLog): real { l.sentAt as real }

  /** The logs the statistics read: the workspace's logs from `cutoff` on, sorted by send time, newest first. */
  function PeriodLogs(logs: seq<EmailLog>, workspaceId: string, cutoff: int): seq<EmailLog>
  {
    SortDesc(InPeriod(logs, workspaceId, cutoff), SentAtKey)
  }

  /**
   * The period's logs are exactly the workspace's logs from `cutoff` on, and
   * the first of them is the newest: there is none exactly when no such log
   * is stored, and no such log was sent later.
   */
  lemma NewestFirst(logs: seq<EmailLog>, workspaceId: string, cutoff: int)
    ensures var period := PeriodLogs(logs, workspaceId, cutoff);
      && (forall l :: l in period <==> l in logs && l.workspaceId == workspaceId && l.sentAt >= cutoff)
      && (period == [] <==> forall l :: l in logs ==> l.workspaceId != workspaceId || l.sentAt < cutoff)
      && (forall l :: l in period ==> l.sentAt <= period[0].sentAt)
  {
    var found := InPeriod(logs, workspaceId, cutoff);
    var period := PeriodLogs(logs, workspaceId, cutoff);
    SortDescSorted(found, SentAtKey);
    PermutationMembers(found, period);
    PermutationMembers(period, found);
    forall l | l in period ensures l.sentAt <= period[0].sentAt {
      var k :| 0 <= k < |period| && period[k] == l;
      if k > 0 {
        assert SentAtKey(period[0]) >= SentAtKey(period[k]);
      }
    }
  }

  /**
   * `get_email_statistics` over the e-mail log collection. The period is
   * given by its start `cutoff`; the query sorts the logs newest first, so
   * the first is the last e-mail and the daily breakdown opens with the
   * newest day.
   */
  method GetEmailStatistics(logs: seq<EmailLog>, workspaceId: string, cutoff: int, dayOf: int -> string)
    returns (st: EmailStatistics)
    ensures var period := PeriodLogs(logs, workspaceId, cutoff);
      st.totalEmails == |period| && st.successful == SentCount(period) &&
      st.totalMessages == MessageTotal(period) &&
      st.successRate == SuccessRate(SentCount(period), |period|) &&
      st.daily == Daily(period, dayOf) &&
      st.lastEmailDate == (if period == [] then None else Some(period[0].sentAt))
  {
    var period := PeriodLogs(logs, workspaceId, cutoff);
    var total := |period|;
    var successful := SentCount(period);
    var messages := MessageTotal(period);
    var daily: seq<DayCount> := [];
    var i := 0;
    while i < |period|
      invariant 0 <= i <= |period|
      invariant daily == Daily(period[..i], dayOf)
    {
      var l := period[i];
      assert period[..i + 1][..i] == period[..i];
      daily := Bump(daily, dayOf(l.sentAt), l.messageCount);
      i := i + 1;
    }
    assert period[..i] == period;
    var last := if period == [] then None else Some(period[0].sentAt);
    st := EmailStatistics(total, successful, messages, SuccessRate(successful, total), daily, last);
  }

  /** The statistics agree with each other: the daily counts add up to the totals. */
  lemma StatisticsAddUp(logs: seq<EmailLog>, workspaceId: string, cutoff: int, dayOf: int -> string)
    ensures var period := PeriodLogs(logs, workspaceId, cutoff);
      SumEmails(Daily(period, dayOf)) == |period| &&
      SumMessages(Daily(period, dayOf)) == MessageTotal(period) &&
      DistinctDays(Daily(period, dayOf))
  {
    DailyAddsUp(PeriodLogs(logs, workspaceId, cutoff), dayOf);
  }

  // ---------------------------------------------------------------------
  // The service over the two collections
  // ---------------------------------------------------------------------

  /** The e-mail configuration and e-mail log collections. */
  class NotificationStore {
    var configs: map<nat, EmailConfig>
    var logs: seq<EmailLog>
    var nextId: nat

    ghost predicate Valid()
      reads this
    {
      ConfigsOk(configs, nextId)
    }

    constructor()
      ensures configs == map[] && logs == [] && nextId == 0
      ensures Valid()
    {
      configs := map[];
      logs := [];
      nextId := 0;
    }

    /**
     * `_send_workspace_notification` for configuration `c` stored under `id`
     * (the manual trigger passes a copy whose `lastSent` it moved).
     */
    method SendWorkspaceNotification(id: nat, c: EmailConfig, names: map<string, string>,
                                     messages: seq<ChatMessage>, now: int,
                                     reportError: Option<string>, emailSent: bool)
      returns (res: NotifyResult)
      requires Valid()
      modifies this
      ensures Valid()
      ensures res == Notify(c, names, messages, now, reportError, emailSent)
      ensures nextId == old(nextId)
      ensures PathOf(c, names, messages, now, reportError, emailSent) == Sent ==>
        configs == Stamped(old(configs), id, now) &&
        logs == old(logs) + [EmailLog(c.workspaceId, id, c.emailAddress, res.messageCount, "sent", now)]
      ensures PathOf(c, names, messages, now, reportError, emailSent).ReportFailed? ==>
        configs == Errored(old(configs), id, reportError.value, now) && logs == old(logs)
      ensures PathOf(c, names, messages, now, reportError, emailSent) in {NoWorkspace, NoMessages, SendFailed} ==>
        configs == old(configs) && logs == old(logs)
    {
      res := Notify(c, names, messages, now, reportError, emailSent);
      var path := PathOf(c, names, messages, now, reportError, emailSent);
      if path == Sent {
        StampedOk(configs, nextId, id, now);
        configs := Stamped(configs, id, now);
        logs := logs + [EmailLog(c.workspaceId, id, c.emailAddress, res.messageCount, "sent", now)];
      } else if path.ReportFailed? {
        ErroredOk(configs, nextId, id, reportError.value, now);
        configs := Errored(configs, id, reportError.value, now);
      }
    }

    /**
     * `send_workspace_chat_notifications`: every active configuration, as read
     * before the pass, is notified in turn; `None` when there is none.
     */
    method SendAll(names: map<string, string>, messages: seq<ChatMessage>, now: int,
                   reportError: nat -> Option<string>, emailSent: nat -> bool)
      returns (summary: Option<Summary>)
      requires Valid()
      modifies this
      ensures Valid()
      ensures summary.None? <==> ActiveIds(old(configs), old(nextId)) == []
      ensures summary.Some? ==>
        summary.value == Tally(Results(ActiveIds(old(configs), old(nextId)), old(configs), names, messages, now, reportError, emailSent))
    {
      var snapshot := configs;
      var active := ActiveIds(configs, nextId);
      if active == [] {
        return None;
      }
      var tally := NotifyEach(active, snapshot, names, messages, now, reportError, emailSent);
      summary := Some(tally);
    }

    /** The loop of `send_workspace_chat_notifications`: notify each of `ids` with its configuration as read before the pass. */
    method NotifyEach(ids: seq<nat>, snapshot: map<nat, EmailConfig>, names: map<string, string>,
                      messages: seq<ChatMessage>, now: int,
                      reportError: nat -> Option<string>, emailSent: nat -> bool)
      returns (tally: Summary)
      requires Valid() && AllIn(ids, snapshot)
      modifies this
      ensures Valid()
      ensures tally == Tally(Results(ids, snapshot, names, messages, now, reportError, emailSent))
    {
      tally := Summary(0, 0, 0, 0);
      var i := 0;
      while i < |ids|
        invariant i <= |ids| && Valid()
        invariant tally == Tally(Results(ids[..i], snapshot, names, messages, now, reportError, emailSent))
      {
        tally := NotifyNext(ids, i, snapshot, names, messages, now, reportError, emailSent, tally);
        i := i + 1;
      }
      assert ids[..i] == ids;
    }

    /** One turn of the loop: notify `ids[i]` and count its result. */
    method NotifyNext(ids: seq<nat>, i: nat, snapshot: map<nat, EmailConfig>, names: map<string, string>,
                      messages: seq<ChatMessage>, now: int,
                      reportError: nat -> Option<string>, emailSent: nat -> bool, tally: Summary)
      returns (next: Summary)
      requires Valid() && i < |ids| && AllIn(ids, snapshot)
      requires tally == Tally(Results(ids[..i], snapshot, names, messages, now, reportError, emailSent))
      modifies this
      ensures Valid()
      ensures next == Tally(Results(ids[..i + 1], snapshot, names, messages, now, reportError, emailSent))
    {
      var id := ids[i];
      var res := SendWorkspaceNotification(id, snapshot[id], names, messages, now, reportError(id), emailSent(id));
      TallyNext(ids, i, snapshot, names, messages, now, reportError, emailSent);
      next := Add(tally, res);
    }
  }
}
