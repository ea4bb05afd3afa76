/**
 * The scheduled WhatsApp message export: for every active workspace with an
 * address configured in the environment, the messages since its last export
 * are written to a spreadsheet and mailed, and the workspace's export
 * timestamp moves to the time of the export.
 *
 * The environment is a map from workspace id to address; whether the
 * spreadsheet step raised and whether the e-mail went out are parameters.
 * The per-workspace result and the pass's counters have the shape of the
 * notification service's, and are that module's `NotifyResult` and
 * `Summary`.
 */
module ExcelExport {
  import opened Text
  import opened ChatMessages
  import opened EmailNotifications

  // ---------------------------------------------------------------------
  // File names and rows
  // ---------------------------------------------------------------------

  /** The export's `_sanitize_filename`: as the notification's, then lower-cased. */
  function ExportFilename(name: string): (r: string)
    ensures r != []
    ensures forall i :: 0 <= i < |r| ==> IsFileChar(r[i]) && !('A' <= r[i] <= 'Z')
  {
    var kept := Strip(KeepNameChars(name));
    NameCharsLowered(KeepNameChars(name));
    var lowered := Lower(ReplaceChar(kept, ' ', '_'));
    if lowered == [] then
      assert FallbackName == ['w'] + "orkspace";
      FallbackName
    else lowered
  }

  /** Name characters, trimmed, with '_' for ' ' and lower-cased, are lower-case file characters. */
  lemma NameCharsLowered(kept: string)
    requires forall i :: 0 <= i < |kept| ==> IsNameChar(kept[i])
    ensures var r := Lower(ReplaceChar(Strip(kept), ' ', '_'));
      forall i :: 0 <= i < |r| ==> IsFileChar(r[i]) && !('A' <= r[i] <= 'Z')
  {
    var stripped := Strip(kept);
    StripNameChars(kept);
    var r := Lower(ReplaceChar(stripped, ' ', '_'));
    forall i | 0 <= i < |r| ensures IsFileChar(r[i]) && !('A' <= r[i] <= 'Z') {
      FileCharLowered(stripped[i]);
    }
  }

  lemma FileCharLowered(c: char)
    requires IsNameChar(c)
    ensures var d := LowerChar(if c == ' ' then '_' else c);
      IsFileChar(d) && !('A' <= d <= 'Z')
  {
  }

  /** The export's file name is the notification's, lower-cased. */
  lemma ExportFilenameIsLowered(name: string)
    ensures ExportFilename(name) == Lower(SanitizeFilename(name))
  {
    var joined := ReplaceChar(Strip(KeepNameChars(name)), ' ', '_');
    if joined == [] {
      LowerFallback();
    }
  }

  lemma LowerFallback()
    ensures Lower(FallbackName) == FallbackName
  {
    var w := FallbackName;
    assert forall i :: 0 <= i < |w| ==> !('A' <= w[i] <= 'Z');
    assert forall i :: 0 <= i < |w| ==> Lower(w)[i] == w[i];
  }

  /** The export's status column. */
  function ExportStatus(m: ChatMessage): (s: string)
    ensures s == "received" <==> Incoming(m)
    ensures s == "sent_via_ai" <==> !Incoming(m) && AiFlag(m)
    ensures s == "sent_by_human" <==> !Incoming(m) && !AiFlag(m)
  {
    if Incoming(m) then "received" else if AiFlag(m) then "sent_via_ai" else "sent_by_human"
  }

  /** The export's status and the notification report's source column classify a message alike. */
  lemma ExportStatusAgreesWithReport(m: ChatMessage)
    ensures ExportStatus(m) == "received" <==> Row(m).source == "Customer"
    ensures ExportStatus(m) == "sent_via_ai" <==> Row(m).source == "AI Generated"
    ensures ExportStatus(m) == "sent_by_human" <==> Row(m).source == "Human"
  {
  }

  /** A row of the export; the timestamp column is not modelled. */
  datatype ExportRow = ExportRow(senderPhone: string, receiverPhone: string, content: string, status: string, workspaceId: string)

  function ExportRowOf(m: ChatMessage, workspaceId: string): (r: ExportRow)
    ensures (r.senderPhone, r.receiverPhone) == Parties(m)
    ensures r.status == ExportStatus(m) && r.workspaceId == workspaceId
  {
    var parties := Parties(m);
    ExportRow(parties.0, parties.1, Or(m.content, ""), ExportStatus(m), workspaceId)
  }

  /** The loop of `_create_excel_file` that fills the sheet. */
  method BuildExportRows(messages: seq<ChatMessage>, workspaceId: string) returns (rows: seq<ExportRow>)
    ensures |rows| == |messages|
    ensures forall i :: 0 <= i < |messages| ==> rows[i] == ExportRowOf(messages[i], workspaceId)
  {
    rows := [];
    for i := 0 to |messages|
      invariant |rows| == i
      invariant forall k :: 0 <= k < i ==> rows[k] == ExportRowOf(messages[k], workspaceId)
    {
      rows := rows + [ExportRowOf(messages[i], workspaceId)];
    }
  }

  // ---------------------------------------------------------------------
  // One workspace
  // ---------------------------------------------------------------------

  /** The default window when a workspace was never exported: 15 minutes. */
  const DefaultWindow: int := 15 * 60

  /** `os.getenv(...)` is truthy: set and non-empty. */
  predicate Configured(emails: map<string, string>, workspaceId: string)
  {
    workspaceId in emails && emails[workspaceId] != ""
  }

  /** What one workspace's export answers, and whether it moves the export timestamp. */
  datatype ExportStep = ExportStep(result: NotifyResult, advance: bool)

  /**
   * `_export_workspace_messages` as written: the result of the e-mail is not
   * looked at, so a batch whose e-mail failed is reported as exported and the
   * timestamp moves past it.
   */
  function ExportAsWritten(configured: bool, batch: seq<ChatMessage>, fileError: Option<string>): (s: ExportStep)
    ensures s.advance <==> configured && batch != [] && fileError.None?
    ensures s.result.success <==> configured && (batch == [] || fileError.None?)
  {
    if !configured then ExportStep(NotifyResult(false, 0, "no_email_configured"), false)
    else if batch == [] then ExportStep(NotifyResult(true, 0, "no_new_messages"), false)
    else if fileError.Some? then ExportStep(NotifyResult(false, 0, "error: " + fileError.value), false)
    else ExportStep(NotifyResult(true, |batch|, "exported_successfully"), true)
  }

  /**
   * The export as intended: a failed e-mail is a failure, as in the
   * notification service, and leaves the timestamp where it was.
   */
  function ExportIntended(configured: bool, batch: seq<ChatMessage>, fileError: Option<string>, emailSent: bool): (s: ExportStep)
    ensures s.advance <==> configured && batch != [] && fileError.None? && emailSent
    ensures s.result.success <==> configured && (batch == [] || (fileError.None? && emailSent))
    ensures s.result.success && s.result.messageCount != 0 ==> s.advance && s.result.messageCount == |batch|
    ensures emailSent ==> s == ExportAsWritten(configured, batch, fileError)
  {
    if configured && batch != [] && fileError.None? && !emailSent then
      ExportStep(NotifyResult(false, |batch|, "email_send_failed"), false)
    else ExportAsWritten(configured, batch, fileError)
  }

  /**
   * With an address, new messages and a spreadsheet, a failed e-mail is
   * reported as a successful export and the timestamp moves to now: every
   * message of the batch older than now is outside the next window, so it is
   * never mailed.
   */
  lemma FailedEmailCountsAsExported(messages: seq<ChatMessage>, workspaceId: string, since: int, now: int)
    requires Since(messages, workspaceId, since) != []
    ensures ExportAsWritten(true, Since(messages, workspaceId, since), None) ==
      ExportStep(NotifyResult(true, |Since(messages, workspaceId, since)|, "exported_successfully"), true)
    ensures !ExportIntended(true, Since(messages, workspaceId, since), None, false).result.success
    ensures forall m :: m in Since(messages, workspaceId, since) && m.timestamp < now ==> m !in Since(messages, workspaceId, now)
  {
  }

  /** The export timestamps: the one upserted record per workspace. */
  class ExportLog {
    var lastExport: map<string, int>

    constructor()
      ensures lastExport == map[]
    {
      lastExport := map[];
    }

    /** `_get_last_export_timestamp`. */
    function LastExportTime(workspaceId: string, now: int): (t: int)
      reads this
      ensures workspaceId !in lastExport ==> t == now - DefaultWindow
    {
      WindowOf(lastExport, workspaceId, now)
    }

    /** `_update_last_export_timestamp`. */
    method UpdateLastExport(workspaceId: string, now: int)
      modifies this
      ensures lastExport == old(lastExport)[workspaceId := now]
      ensures LastExportTime(workspaceId, now + 1) == now
    {
      lastExport := lastExport[workspaceId := now];
    }

    /** One workspace's export, as intended. */
    method ExportWorkspace(workspaceId: string, emails: map<string, string>, messages: seq<ChatMessage>, now: int,
                           fileError: Option<string>, emailSent: bool)
      returns (res: NotifyResult)
      modifies this
      ensures var step := ExportIntended(Configured(emails, workspaceId),
                                         Since(messages, workspaceId, old(LastExportTime(workspaceId, now))),
                                         fileError, emailSent);
        res == step.result &&
        lastExport == if step.advance then old(lastExport)[workspaceId := now] else old(lastExport)
    {
      var step := ExportIntended(Configured(emails, workspaceId),
                                 Since(messages, workspaceId, LastExportTime(workspaceId, now)),
                                 fileError, emailSent);
      res := step.result;
      if step.advance {
        UpdateLastExport(workspaceId, now);
      }
    }

    /**
     * `export_all_workspace_messages` over the active workspaces `ids`, in
     * order; `None` when there is none.
     */
    method ExportAll(ids: seq<string>, emails: map<string, string>, messages: seq<ChatMessage>, now: int,
                     fileError: string -> Option<string>, emailSent: string -> bool)
      returns (summary: Option<Summary>)
      modifies this
      ensures ids == [] ==> summary == None && lastExport == old(lastExport)
      ensures ids != [] ==>
        var pass := Pass(ids, old(lastExport), emails, messages, now, fileError, emailSent);
        summary == Some(Tally(pass.0)) && lastExport == pass.1
    {
      if ids == [] {
        return None;
      }
      var tally := ExportEach(ids, emails, messages, now, fileError, emailSent);
      summary := Some(tally);
    }

    /** The loop of `export_all_workspaces`: export each of `ids` in turn, each seeing the timestamps the earlier ones left. */
    method ExportEach(ids: seq<string>, emails: map<string, string>, messages: seq<ChatMessage>, now: int,
                      fileError: string -> Option<string>, emailSent: string -> bool)
      returns (tally: Summary)
      modifies this
      ensures var pass := Pass(ids, old(lastExport), emails, messages, now, fileError, emailSent);
        tally == Tally(pass.0) && lastExport == pass.1
    {
      tally := Summary(0, 0, 0, 0);
      for i := 0 to |ids|
        invariant var pass := Pass(ids[..i], old(lastExport), emails, messages, now, fileError, emailSent);
          tally == Tally(pass.0) && lastExport == pass.1
      {
        var w := ids[i];
        var res := ExportWorkspace(w, emails, messages, now, fileError(w), emailSent(w));
        PassNext(ids, i, old(lastExport), emails, messages, now, fileError, emailSent);
        tally := Add(tally, res);
      }
      assert ids[..|ids|] == ids;
    }
  }

  // ---------------------------------------------------------------------
  // The pass, as a fold over the workspaces
  // ---------------------------------------------------------------------

  /** The window start of a workspace under the timestamps `last`. */
  function WindowOf(last: map<string, int>, workspaceId: string, now: int): int
  {
    if workspaceId in last then last[workspaceId] else now - DefaultWindow
  }

  /** The results of the pass over `ids` from timestamps `last`, and the timestamps after it. */
  function Pass(ids: seq<string>, last: map<string, int>, emails: map<string, string>, messages: seq<ChatMessage>,
                now: int, fileError: string -> Option<string>, emailSent: string -> bool): (p: (seq<NotifyResult>, map<string, int>))
    ensures |p.0| == |ids|
    ensures forall w :: w in last ==> w in p.1
    ensures forall w :: w in p.1 && w !in ids ==> w in last && p.1[w] == last[w]
  {
    if ids == [] then ([], last)
    else
      var before := Pass(ids[..|ids| - 1], last, emails, messages, now, fileError, emailSent);
      var w := ids[|ids| - 1];
      var step := ExportIntended(Configured(emails, w), Since(messages, w, WindowOf(before.1, w, now)), fileError(w), emailSent(w));
      (before.0 + [step.result], if step.advance then before.1[w := now] else before.1)
  }

  lemma PassNext(ids: seq<string>, i: nat, last: map<string, int>, emails: map<string, string>,
                 messages: seq<ChatMessage>, now: int, fileError: string -> Option<string>, emailSent: string -> bool)
    requires i < |ids|
    ensures var before := Pass(ids[..i], last, emails, messages, now, fileError, emailSent);
      var w := ids[i];
      var step := ExportIntended(Configured(emails, w), Since(messages, w, WindowOf(before.1, w, now)), fileError(w), emailSent(w));
      Pass(ids[..i + 1], last, emails, messages, now, fileError, emailSent) ==
        (before.0 + [step.result], if step.advance then before.1[w := now] else before.1) &&
      Tally(before.0 + [step.result]) == Add(Tally(before.0), step.result)
  {
    assert ids[..i + 1][..i] == ids[..i];
    var before := Pass(ids[..i], last, emails, messages, now, fileError, emailSent);
    var w := ids[i];
    var step := ExportIntended(Configured(emails, w), Since(messages, w, WindowOf(before.1, w, now)), fileError(w), emailSent(w));
    assert (before.0 + [step.result])[..|before.0|] == before.0;
  }

  /** A workspace whose export failed keeps its window: its messages are offered again on the next pass. */
  lemma FailedExportKeepsWindow(ids: seq<string>, last: map<string, int>, emails: map<string, string>,
                                messages: seq<ChatMessage>, now: int,
                                fileError: string -> Option<string>, emailSent: string -> bool)
    requires ids != []
    ensures var w := ids[|ids| - 1];
      var after := Pass(ids, last, emails, messages, now, fileError, emailSent);
      var before := Pass(ids[..|ids| - 1], last, emails, messages, now, fileError, emailSent);
      !after.0[|ids| - 1].success ==> WindowOf(after.1, w, now) == WindowOf(before.1, w, now)
  {
  }
}
