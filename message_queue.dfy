/**
 * The queue of incoming WhatsApp messages: every message gets a tracking
 * record, is pushed on a work list, is processed once popped, and on
 * failure is retried up to three times with a growing delay before it is
 * marked failed for good.  The record table is a map from message id to
 * record and the work list a sequence whose left end is the push end; times
 * are seconds passed in by the caller.
 */
module QueueService {
  import opened Text
  import MessageBlasts

  datatype QueueStatus = Pending | Processing | Completed | Failed | Retry

  /** The fields of an incoming message; `None` for a field that is absent. */
  datatype IncomingMessage = IncomingMessage(
    phoneNumber: Option<string>,
    from: Option<string>,
    message: Option<string>,
    messageType: Option<string>)

  datatype ErrorEntry = ErrorEntry(error: string, timestamp: int, retryAttempt: nat)

  datatype QueueRecord = QueueRecord(
    messageId: string,
    phoneNumber: Option<string>,
    fromPhone: Option<string>,
    content: Option<string>,
    messageType: string,
    status: QueueStatus,
    createdAt: int,
    retryCount: nat,
    errorLog: seq<ErrorEntry>,
    processingTime: Option<real>,
    completedAt: Option<int>,
    nextRetryAt: Option<int>,
    updatedAt: Option<int>)

  /** What the work list holds: the tracked id and the message itself. */
  datatype QueueEntry = QueueEntry(messageId: string, data: IncomingMessage)

  const MaxRetries: nat := 3
  const RetryDelay: nat := 5

  /** The tracking id: the enqueue time stamp and the sender, `unknown` when there is none. */
  function MessageId(stamp: string, data: IncomingMessage): (id: string)
    ensures StartsWith(id, "msg_" + stamp + "_")
  {
    "msg_" + stamp + "_" + (if data.from.Some? then data.from.value else "unknown")
  }

  /** The record created for a new message. */
  function NewRecord(id: string, data: IncomingMessage, now: int): (rec: QueueRecord)
    ensures rec.messageId == id && rec.status == Pending && rec.retryCount == 0 && rec.errorLog == []
    ensures rec.processingTime.None? && rec.completedAt.None? && rec.createdAt == now
    ensures rec.messageType == if data.messageType.Some? then data.messageType.value else "text"
  {
    QueueRecord(id, data.phoneNumber, data.from, data.message,
                if data.messageType.Some? then data.messageType.value else "text",
                Pending, now, 0, [], None, None, None, None)
  }

  /** A field counts as given when it is present and not empty. */
  predicate Given(field: Option<string>)
  {
    field.Some? && field.value != ""
  }

  /**
   * The error handling a message raises: the missing-field check comes
   * first, then whatever the chat handling reports (`None` when it succeeds).
   */
  function IncomingError(data: IncomingMessage, handlerError: Option<string>): (e: Option<string>)
    ensures !(Given(data.phoneNumber) && Given(data.from) && Given(data.message)) ==>
      e == Some("Missing required message fields")
    ensures Given(data.phoneNumber) && Given(data.from) && Given(data.message) ==> e == handlerError
  {
    if !(Given(data.phoneNumber) && Given(data.from) && Given(data.message))
    then Some("Missing required message fields")
    else handlerError
  }

  /**
   * `_update_message_status`: the status and update time always change, the
   * processing time only when one is given, the completion time only when
   * the new status is completed, the error log only when one is given.
   */
  function StatusUpdated(rec: QueueRecord, status: QueueStatus, processingTime: Option<real>,
                         errorLog: Option<seq<ErrorEntry>>, now: int): (r: QueueRecord)
  {
    rec.(status := status,
         updatedAt := Some(now),
         processingTime := if processingTime.Some? then processingTime else rec.processingTime,
         completedAt := if status == Completed then Some(now) else rec.completedAt,
         errorLog := if errorLog.Some? then errorLog.value else rec.errorLog)
  }

  /** A status update touches no other field, and sets the completion time exactly for completion. */
  lemma StatusUpdatedSpec(rec: QueueRecord, status: QueueStatus, processingTime: Option<real>,
                          errorLog: Option<seq<ErrorEntry>>, now: int)
    ensures var r := StatusUpdated(rec, status, processingTime, errorLog, now);
      r.status == status && r.updatedAt == Some(now)
      && (r.completedAt != rec.completedAt ==> status == Completed)
      && (status == Completed ==> r.completedAt == Some(now))
      && (processingTime.None? ==> r.processingTime == rec.processingTime)
      && (errorLog.None? ==> r.errorLog == rec.errorLog)
      && r.retryCount == rec.retryCount && r.messageId == rec.messageId
      && r.createdAt == rec.createdAt && r.nextRetryAt == rec.nextRetryAt
  {
  }

  /** One failure of a record: the log grows by one entry and the retry counter decides what follows. */
  function AfterFailure(rec: QueueRecord, error: string, now: int): (r: QueueRecord)
  {
    var log := rec.errorLog + [ErrorEntry(error, now, rec.retryCount + 1)];
    if rec.retryCount < MaxRetries
    then rec.(status := Retry, retryCount := rec.retryCount + 1, errorLog := log,
              nextRetryAt := Some(now + RetryDelay * (rec.retryCount + 1)))
    else StatusUpdated(rec, Failed, None, Some(log), now)
  }

  /** Whether a failure sends the message back to the work list. */
  predicate Requeued(rec: QueueRecord)
  {
    rec.retryCount < MaxRetries
  }

  /** A failure logs one entry numbered after the attempts so far, and either schedules a retry or gives up. */
  lemma AfterFailureSpec(rec: QueueRecord, error: string, now: int)
    ensures var r := AfterFailure(rec, error, now);
      r.errorLog == rec.errorLog + [ErrorEntry(error, now, rec.retryCount + 1)]
      && r.messageId == rec.messageId && r.createdAt == rec.createdAt
      && (Requeued(rec) ==>
            r.status == Retry && r.retryCount == rec.retryCount + 1
            && r.nextRetryAt == Some(now + RetryDelay * r.retryCount))
      && (!Requeued(rec) ==> r.status == Failed && r.retryCount == rec.retryCount)
  {
  }

  /** `n` consecutive failures, each at the given time, while the message keeps coming back. */
  function Failures(rec: QueueRecord, errors: seq<string>, now: int): QueueRecord
    decreases |errors|
  {
    if errors == [] then rec else AfterFailure(Failures(rec, errors[..|errors| - 1], now), errors[|errors| - 1], now)
  }

  /**
   * A fresh record that fails again and again is retried three times: after
   * `n` failures its log holds `n` entries numbered 1 to `n`, it is waiting
   * for a retry while `n` is at most three and the fourth failure marks it
   * failed with the counter left at three, so a message is attempted at most
   * four times.
   */
  lemma {:induction false} RetriesBounded(rec: QueueRecord, errors: seq<string>, now: int)
    requires rec.status == Pending && rec.retryCount == 0 && rec.errorLog == []
    requires |errors| <= MaxRetries + 1
    ensures var r := Failures(rec, errors, now);
      |r.errorLog| == |errors|
      && (forall i :: 0 <= i < |errors| ==> r.errorLog[i] == ErrorEntry(errors[i], now, i + 1))
      && r.retryCount == (if |errors| <= MaxRetries then |errors| else MaxRetries)
      && (0 < |errors| <= MaxRetries ==> r.status == Retry && Requeued(r) == (|errors| < MaxRetries))
      && (|errors| == MaxRetries + 1 ==> r.status == Failed && !Requeued(r))
    decreases |errors|
  {
    if errors != [] {
      var before := errors[..|errors| - 1];
      RetriesBounded(rec, before, now);
      var prev := Failures(rec, before, now);
      AfterFailureSpec(prev, errors[|errors| - 1], now);
      forall i | 0 <= i < |errors|
        ensures Failures(rec, errors, now).errorLog[i] == ErrorEntry(errors[i], now, i + 1)
      {
        if i < |before| {
          assert before[i] == errors[i];
        }
      }
    }
  }

  /** The records cleanup removes: completed or failed, and created before the cutoff. */
  predicate Stale(rec: QueueRecord, cutoff: int)
  {
    rec.createdAt < cutoff && rec.status in {Completed, Failed}
  }

  /** The number of completed records. */
  function CompletedCount(messages: seq<QueueRecord>): (n: nat)
    ensures n <= |messages|
  {
    if messages == [] then 0
    else CompletedCount(messages[..|messages| - 1]) + (if messages[|messages| - 1].status == Completed then 1 else 0)
  }

  /** `_calculate_success_rate`: the share of completed records as a percentage, 0 for none. */
  function SuccessRate(messages: seq<QueueRecord>): (rate: real)
  {
    MessageBlasts.Percentage(CompletedCount(messages), |messages|)
  }

  /** Every record is completed exactly when the completed count is the length. */
  lemma {:induction false} AllCompleted(messages: seq<QueueRecord>)
    ensures CompletedCount(messages) == |messages| <==> forall i :: 0 <= i < |messages| ==> messages[i].status == Completed
  {
    if messages != [] {
      var init := messages[..|messages| - 1];
      AllCompleted(init);
      if CompletedCount(messages) == |messages| {
        forall i | 0 <= i < |messages| ensures messages[i].status == Completed {
          if i < |init| {
            assert init[i] == messages[i];
          }
        }
      }
    }
  }

  /** The rate lies in [0, 100], is 0 without records and 100 exactly when all are completed. */
  lemma SuccessRateBounds(messages: seq<QueueRecord>)
    ensures 0.0 <= SuccessRate(messages) <= 100.0
    ensures messages == [] ==> SuccessRate(messages) == 0.0
    ensures SuccessRate(messages) == 100.0 <==>
      messages != [] && forall i :: 0 <= i < |messages| ==> messages[i].status == Completed
  {
    MessageBlasts.PercentageBounds(CompletedCount(messages), |messages|);
    AllCompleted(messages);
  }

  /** No key is longer than the bound. */
  ghost function MaxKeyLength(keys: set<string>): (n: nat)
    ensures forall k :: k in keys ==> |k| <= n
  {
    if keys == {} then 0
    else
      var k :| k in keys;
      var rest := MaxKeyLength(keys - {k});
      if |k| > rest then |k| else rest
  }

  /**
   * The id is the second's time stamp and the sender only: two different
   * messages from one sender within the same second get the same id.
   */
  lemma SameSecondIdsCollide()
    ensures var stamp := "20240101_120000";
      var first := IncomingMessage(Some("+911111111111"), Some("+919876543210"), Some("Hi"), None);
      var second := IncomingMessage(Some("+911111111111"), Some("+919876543210"), Some("Price?"), None);
      first != second && MessageId(stamp, first) == MessageId(stamp, second)
  {
  }

  class MessageQueue {
    /** The tracking records, by message id. */
    var records: map<string, QueueRecord>
    /** The work list; pushes go on the left and the worker pops from the right. */
    var work: seq<QueueEntry>

    /** Every record is stored under its own id and has been retried at most three times. */
    ghost predicate Valid()
      reads this
    {
      forall id :: id in records ==> records[id].messageId == id && records[id].retryCount <= MaxRetries
    }

    constructor()
      ensures records == map[] && work == []
      ensures Valid()
    {
      records := map[];
      work := [];
    }

    /**
     * `enqueue_message`: a pending record and an entry at the push end of the
     * work list.  The record table has a unique index on the message id, so
     * an id already stored makes the insert raise, the error is re-raised and
     * nothing is pushed (`stored` is false).
     */
    method Enqueue(data: IncomingMessage, stamp: string, now: int) returns (id: string, stored: bool)
      requires Valid()
      modifies this
      ensures Valid()
      ensures id == MessageId(stamp, data)
      ensures stored <==> id !in old(records)
      ensures stored ==> records == old(records)[id := NewRecord(id, data, now)] && work == [QueueEntry(id, data)] + old(work)
      ensures !stored ==> records == old(records) && work == old(work)
    {
      id := MessageId(stamp, data);
      if id in records {
        return id, false;
      }
      records := records[id := NewRecord(id, data, now)];
      work := [QueueEntry(id, data)] + work;
      stored := true;
    }

    /**
     * The enqueue with the unique id its comment asks for: the time-stamped id
     * is extended until no record has it, so every message is queued and no
     * stored record is touched.
     */
    method EnqueueUnique(data: IncomingMessage, stamp: string, now: int) returns (id: string)
      requires Valid()
      modifies this
      ensures Valid()
      ensures StartsWith(id, MessageId(stamp, data)) && id !in old(records)
      ensures records == old(records)[id := NewRecord(id, data, now)]
      ensures work == [QueueEntry(id, data)] + old(work)
      ensures forall k :: k in old(records) ==> k in records && records[k] == old(records)[k]
    {
      id := MessageId(stamp, data);
      ghost var bound := MaxKeyLength(records.Keys);
      while id in records
        invariant StartsWith(id, MessageId(stamp, data))
        decreases bound + 1 - |id|
      {
        id := id + "_";
      }
      records := records[id := NewRecord(id, data, now)];
      work := [QueueEntry(id, data)] + work;
    }

    /** The `brpop` step: the oldest entry leaves the work list. */
    method Pop() returns (entry: Option<QueueEntry>)
      modifies this
      ensures records == old(records)
      ensures old(work) == [] ==> entry.None? && work == []
      ensures old(work) != [] ==> entry == Some(old(work)[|old(work)| - 1]) && work == old(work)[..|old(work)| - 1]
    {
      if work == [] {
        return None;
      }
      entry := Some(work[|work| - 1]);
      work := work[..|work| - 1];
    }

    /** `_update_message_status`; an unknown id matches nothing. */
    method UpdateMessageStatus(id: string, status: QueueStatus, processingTime: Option<real>,
                               errorLog: Option<seq<ErrorEntry>>, now: int)
      requires Valid()
      modifies this
      ensures Valid()
      ensures work == old(work)
      ensures records == if id in old(records)
                         then old(records)[id := StatusUpdated(old(records)[id], status, processingTime, errorLog, now)]
                         else old(records)
    {
      if id in records {
        records := records[id := StatusUpdated(records[id], status, processingTime, errorLog, now)];
      }
    }

    /**
     * `_handle_message_failure`: an unknown id is ignored; otherwise the
     * record takes the failure and, while retries remain, the entry goes
     * back on the work list.
     */
    method HandleMessageFailure(id: string, error: string, entry: QueueEntry, now: int)
      requires Valid()
      modifies this
      ensures Valid()
      ensures id !in old(records) ==> records == old(records) && work == old(work)
      ensures id in old(records) ==>
        records == old(records)[id := AfterFailure(old(records)[id], error, now)]
        && work == (if Requeued(old(records)[id]) then [entry] + old(work) else old(work))
    {
      if id !in records {
        return;
      }
      var rec := records[id];
      var retryCount := rec.retryCount;
      var errorLog := rec.errorLog + [ErrorEntry(error, now, retryCount + 1)];
      if retryCount < MaxRetries {
        retryCount := retryCount + 1;
        records := records[id := rec.(status := Retry, retryCount := retryCount, errorLog := errorLog,
                                       nextRetryAt := Some(now + RetryDelay * retryCount))];
        work := [entry] + work;
      } else {
        UpdateMessageStatus(id, Failed, None, Some(errorLog), now);
      }
    }

    /**
     * `_process_single_message` for a popped entry: the record goes to
     * processing, then to completed with the elapsed time, or takes the
     * failure the handling raised.
     */
    method ProcessSingleMessage(entry: QueueEntry, handlerError: Option<string>, elapsed: real, now: int)
      requires Valid()
      modifies this
      ensures Valid()
      ensures var id := entry.messageId;
        var e := IncomingError(entry.data, handlerError);
        if id !in old(records) then records == old(records) && work == old(work)
        else if e.None?
        then records == old(records)[id := StatusUpdated(StatusUpdated(old(records)[id], Processing, None, None, now),
                                                         Completed, Some(elapsed), None, now)]
             && work == old(work)
        else records == old(records)[id := AfterFailure(StatusUpdated(old(records)[id], Processing, None, None, now), e.value, now)]
             && work == (if Requeued(old(records)[id]) then [entry] + old(work) else old(work))
    {
      var id := entry.messageId;
      UpdateMessageStatus(id, Processing, None, None, now);
      var e := IncomingError(entry.data, handlerError);
      if e.None? {
        UpdateMessageStatus(id, Completed, Some(elapsed), None, now);
      } else {
        HandleMessageFailure(id, e.value, entry, now);
      }
    }

    /** `cleanup_old_messages`: stale records go, every other record stays as it is. */
    method CleanupOldMessages(cutoff: int)
      requires Valid()
      modifies this
      ensures Valid()
      ensures work == old(work)
      ensures forall id :: id in records <==> id in old(records) && !Stale(old(records)[id], cutoff)
      ensures forall id :: id in records ==> records[id] == old(records)[id]
    {
      records := map id | id in records && !Stale(records[id], cutoff) :: records[id];
    }
  }
}
