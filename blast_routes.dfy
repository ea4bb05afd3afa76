/**
 * The HTTP layer over the blast service: creating a blast from a form and
 * an uploaded spreadsheet, the phone-list preview, and the per-workspace
 * statistics.
 */
module BlastRoutes {
  import opened Text
  import opened MessageBlasts
  import opened Http
  import ExcelWorksheets

  // ---------------------------------------------------------------------
  // Creating a blast
  // ---------------------------------------------------------------------

  /** The form fields of `POST /` other than the file and the times. */
  datatype BlastForm = BlastForm(
    workspaceId: nat,
    title: string,
    messageContent: string,
    senderPhoneId: nat,
    batchSize: int,
    batchIntervalMinutes: int)

  /** Python's `max(lo, min(hi, x))`. */
  function Clamp(lo: int, hi: int, x: int): (r: int)
    requires lo <= hi
    ensures lo <= r <= hi
    ensures lo <= x <= hi ==> r == x
    ensures x < lo ==> r == lo
    ensures hi < x ==> r == hi
  {
    if x < lo then lo else if hi < x then hi else x
  }

  /** The request the route hands to the service: trimmed texts, clamped batch settings, status draft. */
  function RequestOf(form: BlastForm, numbers: seq<string>): BlastRequest
  {
    BlastRequest(form.workspaceId, Strip(form.title), Strip(form.messageContent), form.senderPhoneId,
                 Clamp(MinBatchSize, MaxBatchSize, form.batchSize),
                 Clamp(MinBatchInterval, MaxBatchInterval, form.batchIntervalMinutes),
                 Draft, numbers)
  }

  /**
   * Whatever batch size and interval the form carries, the service's range
   * checks pass: a request with between 1 and 1000 numbers is refused only
   * for its sender phone, and the new blast is a draft.
   */
  lemma RequestPassesRangeChecks(form: BlastForm, numbers: seq<string>, phones: map<nat, SenderPhone>)
    requires 1 <= |numbers| <= MaxPhoneNumbers
    ensures var req := RequestOf(form, numbers);
      MinBatchSize <= req.batchSize <= MaxBatchSize
      && MinBatchInterval <= req.batchIntervalMinutes <= MaxBatchInterval
      && req.status == Draft
      && (CreateBlastError(req, phones).None? <==>
            form.senderPhoneId in phones && phones[form.senderPhoneId].workspaceId == form.workspaceId
            && phones[form.senderPhoneId].status == "connected")
  {
  }

  /** The service's collections and counter are as they were. */
  twostate predicate Untouched(svc: BlastService)
    reads svc
  {
    svc.blasts == old(svc.blasts) && svc.targets == old(svc.targets) && svc.nextId == old(svc.nextId)
  }

  /** The error text the route gives for every failure past the file checks. */
  const CreateFailed: string := "Failed to create message blast"

  /**
   * `create_blast` as written.  `start` is the parsed start time (`None`
   * when it does not parse), `endParses` whether the end time parses, and
   * `now` the current time.  Once the blast is stored, the scheduled branch
   * fails on the name `ObjectId`, which the module never imports, and the
   * immediate branch asks the service to start a draft, which it refuses;
   * both end in a 500 with the blast left stored as a draft.
   */
  method CreateBlastRoute(svc: BlastService, isAdmin: bool, form: BlastForm, fileName: string,
                          sheet: seq<Column>, start: Option<int>, endParses: bool, now: int,
                          phones: map<nat, SenderPhone>) returns (r: Response<nat>)
    requires svc.Valid()
    modifies svc
    ensures svc.Valid()
    ensures r.Refused?
    ensures !isAdmin ==>
      r == Refused(403, "Only workspace administrators can create message blasts") && Untouched(svc)
    ensures isAdmin && !ExcelWorksheets.IsExcelName(fileName) ==>
      r == Refused(400, "File must be an Excel file (.xlsx or .xls)") && Untouched(svc)
    ensures isAdmin && ExcelWorksheets.IsExcelName(fileName) && sheet != [] && ImportedNumbers(sheet) == [] ==>
      r == Refused(400, "No valid phone numbers found in Excel file") && Untouched(svc)
    ensures svc.nextId == old(svc.nextId) || svc.nextId == old(svc.nextId) + 1
    ensures svc.nextId == old(svc.nextId) ==> Untouched(svc)
    ensures svc.nextId == old(svc.nextId) + 1 ==>
      r == Refused(500, CreateFailed) && old(svc.nextId) in svc.blasts && svc.blasts[old(svc.nextId)].status == Draft
    ensures isAdmin && ExcelWorksheets.IsExcelName(fileName) && sheet != []
            && 1 <= |ImportedNumbers(sheet)| <= MaxPhoneNumbers && start.Some? && endParses
            && CreateBlastError(RequestOf(form, ImportedNumbers(sheet)), phones).None? ==>
      svc.nextId == old(svc.nextId) + 1
      && svc.blasts == old(svc.blasts)[old(svc.nextId) := NewBlast(RequestOf(form, ImportedNumbers(sheet)), |CleanedNumbers(ImportedNumbers(sheet))|)]
      && r == Refused(500, CreateFailed)
  {
    if !isAdmin {
      return Refused(403, "Only workspace administrators can create message blasts");
    }
    if !ExcelWorksheets.IsExcelName(fileName) {
      return Refused(400, "File must be an Excel file (.xlsx or .xls)");
    }
    var upload := UploadPhoneNumbersFromExcel(sheet);
    if upload.Err? {
      return Refused(500, CreateFailed);
    }
    var phoneNumbers := upload.value;
    if phoneNumbers == [] {
      return Refused(400, "No valid phone numbers found in Excel file");
    }
    if start.None? || !endParses {
      return Refused(500, CreateFailed);
    }
    var created := svc.CreateBlast(RequestOf(form, phoneNumbers), phones);
    if created.Err? {
      return Refused(500, CreateFailed);
    }
    var id := created.value;
    if start.value > now {
      // The scheduler call succeeds; building the status filter then fails on the missing name.
      return Refused(500, CreateFailed);
    }
    var started := svc.StartBlast(id);
    if started.Err? {
      return Refused(500, CreateFailed);
    }
    r := Done(id);
  }

  /**
   * `create_blast` as its branches evidently intend: a start in the future
   * leaves the new blast scheduled, any other start makes it active, and
   * the route answers with the stored blast.
   */
  method CreateBlastRouteIntended(svc: BlastService, isAdmin: bool, form: BlastForm, fileName: string,
                                  sheet: seq<Column>, start: Option<int>, endParses: bool, now: int,
                                  phones: map<nat, SenderPhone>) returns (r: Response<nat>)
    requires svc.Valid()
    modifies svc
    ensures svc.Valid()
    ensures !isAdmin ==>
      r == Refused(403, "Only workspace administrators can create message blasts") && Untouched(svc)
    ensures isAdmin && !ExcelWorksheets.IsExcelName(fileName) ==>
      r == Refused(400, "File must be an Excel file (.xlsx or .xls)") && Untouched(svc)
    ensures r.Refused? ==> Untouched(svc)
    ensures r.Done? ==>
      r.value == old(svc.nextId) && svc.nextId == old(svc.nextId) + 1 && start.Some? && r.value in svc.blasts
      && svc.blasts[r.value].status == (if start.value > now then Scheduled else Active)
    ensures isAdmin && ExcelWorksheets.IsExcelName(fileName) && sheet != []
            && 1 <= |ImportedNumbers(sheet)| <= MaxPhoneNumbers && start.Some? && endParses
            && CreateBlastError(RequestOf(form, ImportedNumbers(sheet)), phones).None? ==>
      r == Done(old(svc.nextId))
  {
    if !isAdmin {
      return Refused(403, "Only workspace administrators can create message blasts");
    }
    if !ExcelWorksheets.IsExcelName(fileName) {
      return Refused(400, "File must be an Excel file (.xlsx or .xls)");
    }
    var upload := UploadPhoneNumbersFromExcel(sheet);
    if upload.Err? {
      return Refused(500, CreateFailed);
    }
    var phoneNumbers := upload.value;
    if phoneNumbers == [] {
      return Refused(400, "No valid phone numbers found in Excel file");
    }
    if start.None? || !endParses {
      return Refused(500, CreateFailed);
    }
    var created := svc.CreateBlast(RequestOf(form, phoneNumbers), phones);
    if created.Err? {
      return Refused(500, CreateFailed);
    }
    var id := created.value;
    var moved := svc.SetStatusIf(id, {Draft}, if start.value > now then Scheduled else Active);
    r := Done(id);
  }

  // ---------------------------------------------------------------------
  // Preview
  // ---------------------------------------------------------------------

  datatype PhonePreview = PhonePreview(totalNumbers: nat, preview: seq<string>, valid: bool, message: string)

  const PreviewSize: nat := 10

  /** The preview of an imported list: its size and its first ten numbers. */
  function PreviewOf(numbers: seq<string>): (p: PhonePreview)
    ensures p.totalNumbers == |numbers| && p.valid
    ensures p.preview <= numbers
    ensures |p.preview| == if |numbers| < PreviewSize then |numbers| else PreviewSize
  {
    var shown := if |numbers| < PreviewSize then numbers else numbers[..PreviewSize];
    PhonePreview(|numbers|, shown, true, "Found " + NatToString(|numbers|) + " valid phone numbers")
  }

  /**
   * `preview_phone_numbers`.  Every failure after the access check, the
   * suffix check included, is reported as a 400 carrying the failure's text.
   */
  method PreviewRoute(isAdmin: bool, fileName: string, sheet: seq<Column>) returns (r: Response<PhonePreview>)
    ensures !isAdmin ==> r == Refused(403, "Only workspace administrators can upload phone lists")
    ensures isAdmin && !ExcelWorksheets.IsExcelName(fileName) ==>
      r == Refused(400, "Failed to process Excel file: 400: File must be an Excel file (.xlsx or .xls)")
    ensures isAdmin && sheet == [] ==> r.Refused? && r.code == 400
    ensures isAdmin && ExcelWorksheets.IsExcelName(fileName) && sheet != [] ==>
      if |ImportedNumbers(sheet)| <= MaxPhoneNumbers then r == Done(PreviewOf(ImportedNumbers(sheet)))
      else r == Refused(400, "Failed to process Excel file: " + "Too many phone numbers. Maximum 1000 allowed")
  {
    if !isAdmin {
      return Refused(403, "Only workspace administrators can upload phone lists");
    }
    if !ExcelWorksheets.IsExcelName(fileName) {
      return Refused(400, "Failed to process Excel file: 400: File must be an Excel file (.xlsx or .xls)");
    }
    var upload := UploadPhoneNumbersFromExcel(sheet);
    if upload.Err? {
      return Refused(400, "Failed to process Excel file: " + upload.message);
    }
    r := Done(PreviewOf(upload.value));
  }

  // ---------------------------------------------------------------------
  // Statistics
  // ---------------------------------------------------------------------

  /** One row of the aggregation grouped by status: blast count and summed counters. */
  datatype StatusGroup = StatusGroup(status: BlastStatus, count: nat, totalSent: nat, totalFailed: nat)

  datatype BlastStatistics = BlastStatistics(
    totalBlasts: nat,
    activeBlasts: nat,
    completedBlasts: nat,
    totalMessagesSent: nat,
    totalMessagesFailed: nat,
    successRate: real)

  function SumCount(gs: seq<StatusGroup>, n: nat): nat
    requires n <= |gs|
  {
    if n == 0 then 0 else SumCount(gs, n - 1) + gs[n - 1].count
  }

  function SumSent(gs: seq<StatusGroup>, n: nat): nat
    requires n <= |gs|
  {
    if n == 0 then 0 else SumSent(gs, n - 1) + gs[n - 1].totalSent
  }

  function SumFailed(gs: seq<StatusGroup>, n: nat): nat
    requires n <= |gs|
  {
    if n == 0 then 0 else SumFailed(gs, n - 1) + gs[n - 1].totalFailed
  }

  /** The count of the last group among the first `n` with status `st`, or 0 when there is none. */
  function LastCount(gs: seq<StatusGroup>, st: BlastStatus, n: nat): nat
    requires n <= |gs|
  {
    if n == 0 then 0 else if gs[n - 1].status == st then gs[n - 1].count else LastCount(gs, st, n - 1)
  }

  /** The figures after folding the first `n` groups, before the success rate is computed. */
  function Tally(gs: seq<StatusGroup>, n: nat): BlastStatistics
    requires n <= |gs|
  {
    BlastStatistics(SumCount(gs, n), LastCount(gs, Active, n), LastCount(gs, Completed, n),
                    SumSent(gs, n), SumFailed(gs, n), 0.0)
  }

  /** The statistics of the whole aggregation. */
  function StatisticsOf(gs: seq<StatusGroup>): BlastStatistics
  {
    var t := Tally(gs, |gs|);
    t.(successRate := Percentage(t.totalMessagesSent, t.totalMessagesSent + t.totalMessagesFailed))
  }

  /** The statistics loop over the aggregation's groups. */
  method FoldStatistics(groups: seq<StatusGroup>) returns (stats: BlastStatistics)
    ensures stats == StatisticsOf(groups)
  {
    stats := BlastStatistics(0, 0, 0, 0, 0, 0.0);
    for i := 0 to |groups|
      invariant stats == Tally(groups, i)
    {
      var g := groups[i];
      stats := stats.(totalBlasts := stats.totalBlasts + g.count,
                      totalMessagesSent := stats.totalMessagesSent + g.totalSent,
                      totalMessagesFailed := stats.totalMessagesFailed + g.totalFailed);
      if g.status == Active {
        stats := stats.(activeBlasts := g.count);
      } else if g.status == Completed {
        stats := stats.(completedBlasts := g.count);
      }
    }
    var totalMessages := stats.totalMessagesSent + stats.totalMessagesFailed;
    if totalMessages > 0 {
      stats := stats.(successRate := (stats.totalMessagesSent as real) / (totalMessages as real) * 100.0);
    }
  }

  /** The count reported for a status is one group's count, so it stays within the total. */
  lemma {:induction false} LastCountWithinTotal(gs: seq<StatusGroup>, st: BlastStatus, n: nat)
    requires n <= |gs|
    ensures LastCount(gs, st, n) <= SumCount(gs, n)
  {
    if n > 0 {
      LastCountWithinTotal(gs, st, n - 1);
    }
  }

  /** Two different statuses pick two different groups, so their counts together stay within the total. */
  lemma {:induction false} LastCountsWithinTotal(gs: seq<StatusGroup>, a: BlastStatus, b: BlastStatus, n: nat)
    requires n <= |gs| && a != b
    ensures LastCount(gs, a, n) + LastCount(gs, b, n) <= SumCount(gs, n)
  {
    if n > 0 {
      var last := gs[n - 1];
      if last.status == a {
        LastCountWithinTotal(gs, b, n - 1);
        assert LastCount(gs, b, n) == LastCount(gs, b, n - 1);
      } else if last.status == b {
        LastCountWithinTotal(gs, a, n - 1);
        assert LastCount(gs, a, n) == LastCount(gs, a, n - 1);
      } else {
        LastCountsWithinTotal(gs, a, b, n - 1);
      }
    }
  }

  /** With one group per status, the count reported for a status is that group's count. */
  lemma {:induction false} LastCountOfGroup(gs: seq<StatusGroup>, st: BlastStatus, n: nat)
    requires n <= |gs|
    requires forall i, j :: 0 <= i < j < |gs| ==> gs[i].status != gs[j].status
    ensures forall i :: 0 <= i < n && gs[i].status == st ==> LastCount(gs, st, n) == gs[i].count
    ensures (forall i :: 0 <= i < n ==> gs[i].status != st) ==> LastCount(gs, st, n) == 0
  {
    if n > 0 {
      LastCountOfGroup(gs, st, n - 1);
    }
  }

  /**
   * The active and completed counts never exceed the total, and the success
   * rate lies in [0, 100], is 0 without messages and 100 exactly when
   * messages were sent and none failed.
   */
  lemma StatisticsBounds(gs: seq<StatusGroup>)
    ensures var s := StatisticsOf(gs);
      s.activeBlasts + s.completedBlasts <= s.totalBlasts
      && 0.0 <= s.successRate <= 100.0
      && (s.totalMessagesSent + s.totalMessagesFailed == 0 ==> s.successRate == 0.0)
      && (s.successRate == 100.0 <==> s.totalMessagesSent > 0 && s.totalMessagesFailed == 0)
  {
    LastCountsWithinTotal(gs, Active, Completed, |gs|);
    var s := StatisticsOf(gs);
    PercentageBounds(s.totalMessagesSent, s.totalMessagesSent + s.totalMessagesFailed);
  }

  datatype StatisticsReport = StatisticsReport(workspaceId: nat, periodDays: int, statistics: BlastStatistics)

  const StatisticsFailed: string := "Failed to retrieve statistics"

  /**
   * `get_blast_statistics` as written: computing the cutoff uses the name
   * `timedelta`, which the module never imports, so every caller with
   * access gets a 500.
   */
  method StatisticsRoute(hasAccess: bool, workspaceId: nat, days: int, groups: seq<StatusGroup>)
    returns (r: Response<StatisticsReport>)
    ensures !hasAccess ==> r == Refused(403, "Access denied to workspace")
    ensures hasAccess ==> r == Refused(500, StatisticsFailed)
  {
    if !hasAccess {
      return Refused(403, "Access denied to workspace");
    }
    r := Refused(500, StatisticsFailed);
  }

  /** `get_blast_statistics` with the missing import supplied: the fold over the grouped blasts. */
  method StatisticsRouteIntended(hasAccess: bool, workspaceId: nat, days: int, groups: seq<StatusGroup>)
    returns (r: Response<StatisticsReport>)
    ensures !hasAccess ==> r == Refused(403, "Access denied to workspace")
    ensures hasAccess ==> r == Done(StatisticsReport(workspaceId, days, StatisticsOf(groups)))
  {
    if !hasAccess {
      return Refused(403, "Access denied to workspace");
    }
    var stats := FoldStatistics(groups);
    r := Done(StatisticsReport(workspaceId, days, stats));
  }
}
