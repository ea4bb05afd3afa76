/**
 * The monitoring routes: the overall health classification, the reset of
 * failed queue records for another round, the hourly breakdown of queue
 * records, and the share of outgoing messages written by the assistant.
 */
module Monitoring {
  import opened Text
  import opened Http
  import opened QueueService
  import MessageBlasts
  import AuthHandler

  // ---------------------------------------------------------------------
  // System health
  // ---------------------------------------------------------------------

  const QueueBackingUp: string := "Message queue backing up"
  const LowSuccessRate: string := "Low message processing success rate"
  const DatabaseIssues: string := "Database connection issues"
  const SchedulerDown: string := "Scheduler not running"

  /**
   * What the health check reads: the queue statistics (either figure may be
   * missing, as when the statistics call fails and returns an empty
   * record), whether the database answered, and the scheduler's status.
   */
  datatype HealthInputs = HealthInputs(
    queueLength: Option<int>,
    successRate: Option<real>,
    dbConnected: bool,
    schedulerStatus: Option<string>)

  /** The queue length, 0 when missing. */
  function QueueLength(h: HealthInputs): int
  {
    if h.queueLength.Some? then h.queueLength.value else 0
  }

  /** The success rate, 100 when missing. */
  function QueueSuccessRate(h: HealthInputs): real
  {
    if h.successRate.Some? then h.successRate.value else 100.0
  }

  predicate Backlog(h: HealthInputs) { QueueLength(h) > 50 }

  predicate LowRate(h: HealthInputs) { QueueSuccessRate(h) < 90.0 }

  predicate SchedulerRunning(h: HealthInputs) { h.schedulerStatus == Some("running") }

  /** The issues the checks raise, in the order they run. */
  function IssuesOf(h: HealthInputs): (issues: seq<string>)
  {
    (if Backlog(h) then [QueueBackingUp] else [])
    + (if LowRate(h) then [LowSuccessRate] else [])
    + (if !h.dbConnected then [DatabaseIssues] else [])
    + (if !SchedulerRunning(h) then [SchedulerDown] else [])
  }

  /** The classification: a database or scheduler fault outranks a queue warning. */
  function StatusOf(h: HealthInputs): (status: string)
  {
    if !h.dbConnected || !SchedulerRunning(h) then "error"
    else if Backlog(h) || LowRate(h) then "warning"
    else "healthy"
  }

  /** `get_system_health`: the status is reassigned and the issues appended as each check fires. */
  method SystemHealth(h: HealthInputs) returns (status: string, issues: seq<string>)
    ensures status == StatusOf(h)
    ensures issues == IssuesOf(h)
  {
    status := "healthy";
    issues := [];
    if QueueLength(h) > 50 {
      issues := issues + [QueueBackingUp];
      status := "warning";
    }
    if QueueSuccessRate(h) < 90.0 {
      issues := issues + [LowSuccessRate];
      status := "warning";
    }
    if !h.dbConnected {
      issues := issues + [DatabaseIssues];
      status := "error";
    }
    if h.schedulerStatus != Some("running") {
      issues := issues + [SchedulerDown];
      status := "error";
    }
  }

  /**
   * The system is in error exactly when the database or the scheduler is
   * down, healthy exactly when no issue is raised, and in warning
   * otherwise; each issue is reported at most once.
   */
  lemma HealthClassification(h: HealthInputs)
    ensures StatusOf(h) == "error" <==> !h.dbConnected || h.schedulerStatus != Some("running")
    ensures StatusOf(h) == "warning" <==>
      h.dbConnected && h.schedulerStatus == Some("running") && (QueueLength(h) > 50 || QueueSuccessRate(h) < 90.0)
    ensures StatusOf(h) == "healthy" <==> IssuesOf(h) == []
    ensures DatabaseIssues in IssuesOf(h) <==> !h.dbConnected
    ensures SchedulerDown in IssuesOf(h) <==> h.schedulerStatus != Some("running")
    ensures QueueBackingUp in IssuesOf(h) <==> QueueLength(h) > 50
    ensures LowSuccessRate in IssuesOf(h) <==> QueueSuccessRate(h) < 90.0
    ensures |IssuesOf(h)| <= 4
  {
  }

  /** Missing queue figures raise no queue issue: the status then depends on the database and the scheduler alone. */
  lemma MissingQueueStatsAreQuiet(h: HealthInputs)
    requires h.queueLength.None? && h.successRate.None?
    ensures IssuesOf(h) == (if !h.dbConnected then [DatabaseIssues] else [])
                           + (if h.schedulerStatus != Some("running") then [SchedulerDown] else [])
    ensures StatusOf(h) == (if h.dbConnected && h.schedulerStatus == Some("running") then "healthy" else "error")
  {
  }

  // ---------------------------------------------------------------------
  // Retrying failed records
  // ---------------------------------------------------------------------

  /** The records the reset selects: failed with fewer than three retries. */
  predicate Retryable(rec: QueueRecord)
  {
    rec.status == Failed && rec.retryCount < MaxRetries
  }

  /** The ids of the retryable records, in the order the table lists them. */
  function RetryableIds(records: map<string, QueueRecord>, listing: seq<string>): (ids: seq<string>)
    ensures forall i :: 0 <= i < |ids| ==> ids[i] in records && Retryable(records[ids[i]])
    ensures forall id :: id in listing && id in records && Retryable(records[id]) ==> id in ids
  {
    if listing == [] then []
    else
      var rest := RetryableIds(records, listing[..|listing| - 1]);
      var id := listing[|listing| - 1];
      assert forall x :: x in listing ==> x in listing[..|listing| - 1] || x == id;
      if id in records && Retryable(records[id]) then rest + [id] else rest
  }

  /** A record put back to work: pending, no retries, empty log. */
  function Reset(rec: QueueRecord, now: int): QueueRecord
  {
    rec.(status := Pending, retryCount := 0, errorLog := [], updatedAt := Some(now))
  }

  /** The entry put back on the work list for a record: its stored fields, as the message had them. */
  function Resubmitted(rec: QueueRecord): QueueEntry
  {
    QueueEntry(rec.messageId, IncomingMessage(rec.phoneNumber, rec.fromPhone, rec.content, Some(rec.messageType)))
  }

  /** The entries pushed for the selected ids, each one pushed on the left in turn. */
  function Pushed(records: map<string, QueueRecord>, ids: seq<string>): seq<QueueEntry>
    requires forall i :: 0 <= i < |ids| ==> ids[i] in records
  {
    if ids == [] then []
    else [Resubmitted(records[ids[|ids| - 1]])] + Pushed(records, ids[..|ids| - 1])
  }

  /**
   * `retry_failed_messages` for an administrator.  `listing` is the order
   * in which the table returns its records.  Every retryable record is
   * reset and pushed back; the result is the number retried.
   */
  method RetryFailedMessages(q: MessageQueue, listing: seq<string>, now: int) returns (retried: nat, message: string)
    requires q.Valid()
    modifies q
    ensures q.Valid()
    ensures retried == |RetryableIds(old(q.records), listing)|
    ensures message == if retried == 0 then "No failed messages to retry"
                       else "Retried " + NatToString(retried) + " failed messages"
    ensures q.records.Keys == old(q.records).Keys
    ensures forall id :: id in q.records ==>
      q.records[id] == if id in RetryableIds(old(q.records), listing) then Reset(old(q.records)[id], now) else old(q.records)[id]
    ensures q.work == Pushed(old(q.records), RetryableIds(old(q.records), listing)) + old(q.work)
  {
    var ids := RetryableIds(q.records, listing);
    if ids == [] {
      return 0, "No failed messages to retry";
    }
    var before := q.records;
    q.records := map id | id in before :: if id in ids then Reset(before[id], now) else before[id];
    PushResubmitted(q, before, ids);
    retried := |ids|;
    message := "Retried " + NatToString(retried) + " failed messages";
  }

  /** The loop of `retry_failed_messages` that pushes each selected record back on the work list. */
  method PushResubmitted(q: MessageQueue, before: map<string, QueueRecord>, ids: seq<string>)
    requires forall i :: 0 <= i < |ids| ==> ids[i] in before
    modifies q
    ensures q.work == Pushed(before, ids) + old(q.work)
    ensures q.records == old(q.records)
  {
    var k := 0;
    while k < |ids|
      invariant 0 <= k <= |ids|
      invariant q.work == Pushed(before, ids[..k]) + old(q.work)
      invariant q.records == old(q.records)
    {
      assert ids[..k + 1][..k] == ids[..k];
      q.work := [Resubmitted(before[ids[k]])] + q.work;
      k := k + 1;
    }
    assert ids[..|ids|] == ids;
  }

  /**
   * A record the queue gives up on has used its three retries, so the
   * reset never selects it: only records failed some other way come back.
   */
  lemma ExhaustedNotRetryable(rec: QueueRecord, error: string, now: int)
    requires rec.retryCount <= MaxRetries
    ensures AfterFailure(rec, error, now).status == Failed ==> !Retryable(AfterFailure(rec, error, now))
  {
    AfterFailureSpec(rec, error, now);
  }

  /**
   * The refusal of `retry_failed_messages`, on what reading
   * `current_user.is_admin` yields, as written: the missing attribute and the
   * 403 for a non-admin are both raised inside the handler's catch-all,
   * which turns them into a 500.
   */
  function RetryRefusal(adminAttr: Option<bool>): (r: Option<(int, string)>)
    ensures r.None? <==> adminAttr == Some(true)
    ensures r.Some? ==> r.value == (500, "Failed to retry failed messages")
  {
    if adminAttr == Some(true) then None else Some((500, "Failed to retry failed messages"))
  }

  /** As written, every caller is refused with a 500, the stored admins included. */
  lemma RetryAlwaysRefused(s: AuthHandler.StoredUser)
    ensures RetryRefusal(AuthHandler.AdminAttribute(AuthHandler.UserOf(s))) ==
      Some((500, "Failed to retry failed messages"))
  {
  }

  /**
   * The refusal evidently meant: the stored flag is read, and a non-admin
   * gets the 403 with its own detail.
   */
  function RetryRefusalIntended(s: AuthHandler.StoredUser): (r: Option<(int, string)>)
    ensures r.None? <==> s.isAdmin
    ensures !s.isAdmin ==> r == Some((403, "Only administrators can retry failed messages"))
  {
    AuthHandler.AdminGate(AuthHandler.AdminAttributeFixed(s), "Only administrators can retry failed messages")
  }

  // ---------------------------------------------------------------------
  // Hourly breakdown
  // ---------------------------------------------------------------------

  /** An hour of the day, as the database's hour operator yields it. */
  type Hour = h: int | 0 <= h < 24

  /** One row of the aggregation grouped by hour and status. */
  datatype HourlyResult = HourlyResult(hour: Hour, status: string, count: nat)

  datatype HourRow = HourRow(hour: Hour, stats: map<string, nat>)

  /** The nested table after the first `n` results: per hour, per status, the last count given. */
  function Grouped(results: seq<HourlyResult>, n: nat): (m: map<Hour, map<string, nat>>)
    requires n <= |results|
    ensures forall h :: h in m <==> exists i :: 0 <= i < n && results[i].hour == h
  {
    if n == 0 then map[]
    else
      var m := Grouped(results, n - 1);
      var r := results[n - 1];
      m[r.hour := (if r.hour in m then m[r.hour] else map[])[r.status := r.count]]
  }

  /** The rows for the hours below `n` present in the table, in increasing hour order. */
  function RowsBelow(m: map<Hour, map<string, nat>>, n: nat): (rows: seq<HourRow>)
    requires n <= 24
    ensures forall i :: 0 <= i < |rows| ==> rows[i].hour < n
  {
    if n == 0 then []
    else
      var h: Hour := n - 1;
      RowsBelow(m, n - 1) + (if h in m then [HourRow(h, m[h])] else [])
  }

  /** `_get_hourly_message_stats`: the nested table is filled, then listed by hour. */
  method HourlyMessageStats(results: seq<HourlyResult>) returns (rows: seq<HourRow>)
    ensures rows == RowsBelow(Grouped(results, |results|), 24)
  {
    var hourly: map<Hour, map<string, nat>> := map[];
    for i := 0 to |results|
      invariant hourly == Grouped(results, i)
    {
      var r := results[i];
      var stats: map<string, nat> := if r.hour in hourly then hourly[r.hour] else map[];
      hourly := hourly[r.hour := stats[r.status := r.count]];
    }
    rows := [];
    for h := 0 to 24
      invariant rows == RowsBelow(hourly, h)
    {
      if h in hourly {
        rows := rows + [HourRow(h, hourly[h])];
      }
    }
  }

  /** Strictly increasing hours. */
  predicate HoursIncrease(rows: seq<HourRow>)
  {
    forall i, j :: 0 <= i < j < |rows| ==> rows[i].hour < rows[j].hour
  }

  /** The rows are in strictly increasing hour order. */
  lemma {:induction false} RowsSorted(m: map<Hour, map<string, nat>>, n: nat)
    requires n <= 24
    ensures HoursIncrease(RowsBelow(m, n))
  {
    if n > 0 {
      RowsSorted(m, n - 1);
      var prev := RowsBelow(m, n - 1);
      var rows := RowsBelow(m, n);
      forall i, j | 0 <= i < j < |rows| ensures rows[i].hour < rows[j].hour {
        assert rows[i] == prev[i];
        if j < |prev| {
          assert rows[j] == prev[j];
        }
      }
    }
  }

  /** Each row carries an hour of the table and that hour's counts. */
  lemma {:induction false} RowsFromTable(m: map<Hour, map<string, nat>>, n: nat)
    requires n <= 24
    ensures forall i :: 0 <= i < |RowsBelow(m, n)| ==> RowsBelow(m, n)[i].hour in m && RowsBelow(m, n)[i].stats == m[RowsBelow(m, n)[i].hour]
  {
    if n > 0 {
      RowsFromTable(m, n - 1);
      var prev := RowsBelow(m, n - 1);
      var rows := RowsBelow(m, n);
      forall i | 0 <= i < |rows| ensures rows[i].hour in m && rows[i].stats == m[rows[i].hour] {
        if i < |prev| {
          assert rows[i] == prev[i];
        }
      }
    }
  }

  /** Every hour of the table below `n` has a row, with that hour's counts. */
  lemma {:induction false} RowsCoverTable(m: map<Hour, map<string, nat>>, n: nat)
    requires n <= 24
    ensures forall h: Hour :: h < n && h in m ==> HourRow(h, m[h]) in RowsBelow(m, n)
  {
    if n > 0 {
      RowsCoverTable(m, n - 1);
      var prev := RowsBelow(m, n - 1);
      var last: Hour := n - 1;
      assert RowsBelow(m, n) == prev + (if last in m then [HourRow(last, m[last])] else []);
    }
  }

  /** Each result's hour has a row. */
  predicate ResultsListed(results: seq<HourlyResult>, rows: seq<HourRow>)
  {
    forall i :: 0 <= i < |results| ==> exists j :: 0 <= j < |rows| && rows[j].hour == results[i].hour
  }

  /** Each row's hour is the hour of some result. */
  predicate RowsFromResults(results: seq<HourlyResult>, rows: seq<HourRow>)
  {
    forall j :: 0 <= j < |rows| ==> exists i :: 0 <= i < |results| && results[i].hour == rows[j].hour
  }

  /** The hourly listing: sorted by hour, with a row for an hour exactly when some result falls in it. */
  lemma HourlyRowsSpec(results: seq<HourlyResult>)
    ensures var rows := RowsBelow(Grouped(results, |results|), 24);
      HoursIncrease(rows) && ResultsListed(results, rows) && RowsFromResults(results, rows)
  {
    var m := Grouped(results, |results|);
    RowsSorted(m, 24);
    RowsCoverResults(results);
    RowsOnlyResults(results);
  }

  lemma RowsCoverResults(results: seq<HourlyResult>)
    ensures ResultsListed(results, RowsBelow(Grouped(results, |results|), 24))
  {
    var m := Grouped(results, |results|);
    RowsCoverTable(m, 24);
    var rows := RowsBelow(m, 24);
    forall i | 0 <= i < |results|
      ensures exists j :: 0 <= j < |rows| && rows[j].hour == results[i].hour
    {
      var h := results[i].hour;
      assert h in m;
      assert HourRow(h, m[h]) in rows;
      var j :| 0 <= j < |rows| && rows[j] == HourRow(h, m[h]);
    }
  }

  lemma RowsOnlyResults(results: seq<HourlyResult>)
    ensures RowsFromResults(results, RowsBelow(Grouped(results, |results|), 24))
  {
    var m := Grouped(results, |results|);
    RowsFromTable(m, 24);
    var rows := RowsBelow(m, 24);
    forall j | 0 <= j < |rows|
      ensures exists i :: 0 <= i < |results| && results[i].hour == rows[j].hour
    {
      var h := rows[j].hour;
      assert h in m;
      var i :| 0 <= i < |results| && results[i].hour == h;
    }
  }

  // ---------------------------------------------------------------------
  // Assistant usage
  // ---------------------------------------------------------------------

  /** The share of outgoing messages written by the assistant, 0 without outgoing messages. */
  function AiUsagePercentage(aiMessages: nat, totalOutgoing: nat): real
  {
    MessageBlasts.Percentage(aiMessages, totalOutgoing)
  }

  /** The usage is 0 without outgoing messages, and lies in [0, 100] when the assistant's messages are among them. */
  lemma AiUsageBounds(aiMessages: nat, totalOutgoing: nat)
    ensures totalOutgoing == 0 ==> AiUsagePercentage(aiMessages, totalOutgoing) == 0.0
    ensures aiMessages <= totalOutgoing ==> 0.0 <= AiUsagePercentage(aiMessages, totalOutgoing) <= 100.0
  {
    if aiMessages <= totalOutgoing {
      MessageBlasts.PercentageBounds(aiMessages, totalOutgoing);
    }
  }
}
