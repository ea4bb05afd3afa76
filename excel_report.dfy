/**
 * The scheduled Excel report: every active workspace with an address in the
 * environment gets the messages of the last 15 minutes as a spreadsheet by
 * e-mail; the manual report covers a date range and mails it only when an
 * address is given.
 *
 * The environment is a map from workspace id to address; whether writing
 * the spreadsheet or sending the e-mail raised is a parameter. The scheduled
 * report keeps no timestamp, so nothing is stored.
 */
module ExcelReport {
  import opened Text
  import opened ChatMessages
  import opened EmailNotifications
  import opened ExcelExport

  // ---------------------------------------------------------------------
  // Rows and the file name
  // ---------------------------------------------------------------------

  /** The report's status column. */
  function ReportStatus(m: ChatMessage): (s: string)
    ensures s == "Received" <==> Incoming(m)
    ensures s == "AI Generated" <==> !Incoming(m) && AiFlag(m)
    ensures s == "Human Sent" <==> !Incoming(m) && !AiFlag(m)
  {
    if Incoming(m) then "Received" else if AiFlag(m) then "AI Generated" else "Human Sent"
  }

  /** The report's status and the export's status name the same three classes, one for one. */
  lemma ReportStatusMatchesExport(m: ChatMessage, n: ChatMessage)
    ensures ReportStatus(m) == ReportStatus(n) <==> ExportStatus(m) == ExportStatus(n)
  {
  }

  /** A row of the report; the timestamp column is not modelled. */
  datatype ReportLine = ReportLine(
    senderPhone: string,
    receiverPhone: string,
    content: string,
    status: string,
    messageType: string,
    workspaceId: string,
    workspaceName: string,
    chatId: string,
    customerName: string,
    direction: string)

  function ReportLineOf(m: ChatMessage, workspaceId: string, workspaceName: string): (r: ReportLine)
    ensures (r.senderPhone, r.receiverPhone) == Parties(m)
    ensures r.status == ReportStatus(m)
    ensures Incoming(m) ==> r.direction == "Incoming"
    ensures m.direction.None? ==> r.direction == ""
    ensures m.messageType.None? ==> r.messageType == "Text"
  {
    var parties := Parties(m);
    TitledText();
    TitledIncoming();
    ReportLine(parties.0, parties.1, Or(m.content, ""), ReportStatus(m),
               Title(Or(m.messageType, "text")), workspaceId, workspaceName, m.chatId,
               Or(m.chat.customerName, ""), Title(Or(m.direction, "")))
  }

  /** The default message type, titled. */
  lemma TitledText()
    ensures Title("text") == "Text"
  {
  }

  /** The incoming direction, titled. */
  lemma TitledIncoming()
    ensures Title("incoming") == "Incoming"
  {
  }

  /** The loop of `_create_excel_file` that fills the sheet. */
  method BuildReportLines(messages: seq<ChatMessage>, workspaceId: string, workspaceName: string)
    returns (lines: seq<ReportLine>)
    ensures |lines| == |messages|
    ensures forall i :: 0 <= i < |messages| ==> lines[i] == ReportLineOf(messages[i], workspaceId, workspaceName)
  {
    lines := [];
    for i := 0 to |messages|
      invariant |lines| == i
      invariant forall k :: 0 <= k < i ==> lines[k] == ReportLineOf(messages[k], workspaceId, workspaceName)
    {
      lines := lines + [ReportLineOf(messages[i], workspaceId, workspaceName)];
    }
  }

  /** The report's file-name stem: name characters, trimmed; spaces stay and it may be empty. */
  function ReportFileStem(name: string): (r: string)
    ensures forall i :: 0 <= i < |r| ==> IsNameChar(r[i])
    ensures r != [] ==> !IsSpace(r[0]) && !IsSpace(r[|r| - 1])
  {
    var kept := KeepNameChars(name);
    StripNameChars(kept);
    Strip(kept)
  }

  /** The notification's file name is the report's stem with '_' for ' ', or "workspace" for an empty stem. */
  lemma ReportStemVsNotification(name: string)
    ensures ReportFileStem(name) == [] ==> SanitizeFilename(name) == FallbackName
    ensures ReportFileStem(name) != [] ==> SanitizeFilename(name) == ReplaceChar(ReportFileStem(name), ' ', '_')
  {
  }

  // ---------------------------------------------------------------------
  // The scheduled report
  // ---------------------------------------------------------------------

  /** The window of the scheduled report: 15 minutes back. */
  const ReportWindow: int := 15 * 60

  /** How `_generate_workspace_report` ends. */
  datatype ReportOutcome = NoAddress | NoRecentMessages | Mailed(count: nat) | Raised(error: string)

  /** One workspace's scheduled report; `failure` is the error writing or mailing raised, if any. */
  function WorkspaceReport(emails: map<string, string>, workspaceId: string, messages: seq<ChatMessage>, now: int,
                           failure: Option<string>): (r: ReportOutcome)
    ensures r.Mailed? <==> Configured(emails, workspaceId) && Since(messages, workspaceId, now - ReportWindow) != [] && failure.None?
    ensures r.Mailed? ==> r.count == |Since(messages, workspaceId, now - ReportWindow)| && r.count > 0
    ensures r == NoRecentMessages ==> forall m :: m in messages && m.chat.workspaceId == workspaceId ==> m.timestamp < now - ReportWindow
  {
    var batch := Since(messages, workspaceId, now - ReportWindow);
    if !Configured(emails, workspaceId) then NoAddress
    else if batch == [] then NoRecentMessages
    else if failure.Some? then Raised(failure.value)
    else Mailed(|batch|)
  }

  /** Two runs within the same minute-window report nested windows: a later run never sees a message older than an earlier one's window. */
  lemma ReportWindowSlides(emails: map<string, string>, workspaceId: string, messages: seq<ChatMessage>,
                           now: int, later: int, m: ChatMessage)
    requires now <= later
    ensures m in Since(messages, workspaceId, later - ReportWindow) ==> m in Since(messages, workspaceId, now - ReportWindow)
  {
  }

  /**
   * `generate_workspace_reports` over the active workspaces `ids`: a
   * workspace whose report raised is logged and the loop goes on.
   */
  method GenerateReports(ids: seq<string>, emails: map<string, string>, messages: seq<ChatMessage>, now: int,
                         failure: string -> Option<string>)
    returns (outcomes: seq<ReportOutcome>)
    ensures |outcomes| == |ids|
    ensures forall i :: 0 <= i < |ids| ==> outcomes[i] == WorkspaceReport(emails, ids[i], messages, now, failure(ids[i]))
  {
    outcomes := [];
    for i := 0 to |ids|
      invariant |outcomes| == i
      invariant forall k :: 0 <= k < i ==> outcomes[k] == WorkspaceReport(emails, ids[k], messages, now, failure(ids[k]))
    {
      outcomes := outcomes + [WorkspaceReport(emails, ids[i], messages, now, failure(ids[i]))];
    }
  }

  // ---------------------------------------------------------------------
  // The manual report
  // ---------------------------------------------------------------------

  /** The range query: the workspace's messages with `start <= timestamp <= end`. */
  function Between(messages: seq<ChatMessage>, workspaceId: string, start: int, end: int): (r: seq<ChatMessage>)
    ensures |r| <= |messages|
    ensures forall m :: m in r <==> m in messages && m.chat.workspaceId == workspaceId && start <= m.timestamp <= end
  {
    if messages == [] then []
    else
      var m := messages[0];
      (if m.chat.workspaceId == workspaceId && start <= m.timestamp <= end then [m] else []) +
      Between(messages[1..], workspaceId, start, end)
  }

  /** A range that ends after every message is the window query from its start. */
  lemma {:induction false} BetweenOpenEnd(messages: seq<ChatMessage>, workspaceId: string, start: int, end: int)
    requires forall i :: 0 <= i < |messages| ==> messages[i].timestamp <= end
    ensures Between(messages, workspaceId, start, end) == Since(messages, workspaceId, start)
  {
    if messages != [] {
      BetweenOpenEnd(messages[1..], workspaceId, start, end);
    }
  }

  /** What a manual report produced: the number of rows and whether it was mailed. */
  datatype ManualReport = ManualReport(rows: nat, mailed: bool)

  /**
   * `generate_manual_report`: `names` maps workspace ids to names; `email`
   * is mailed to when given and non-empty; `failure` is the error writing or
   * mailing raised, if any.
   */
  function GenerateManualReport(names: map<string, string>, workspaceId: string, messages: seq<ChatMessage>,
                                start: int, end: int, email: Option<string>, failure: Option<string>): (r: Result<ManualReport>)
    ensures workspaceId !in names ==> r == Err("Workspace " + workspaceId + " not found")
    ensures workspaceId in names && Between(messages, workspaceId, start, end) == [] ==>
      r == Err("No messages found for the specified date range")
    ensures r.Ok? ==> r.value.rows == |Between(messages, workspaceId, start, end)| && r.value.rows > 0
    ensures r.Ok? ==> (r.value.mailed <==> email.Some? && email.value != "")
    ensures r.Ok? <==> workspaceId in names && Between(messages, workspaceId, start, end) != [] && failure.None?
  {
    var batch := Between(messages, workspaceId, start, end);
    if workspaceId !in names then Err("Workspace " + workspaceId + " not found")
    else if batch == [] then Err("No messages found for the specified date range")
    else if failure.Some? then Err(failure.value)
    else Ok(ManualReport(|batch|, email.Some? && email.value != ""))
  }

  /** An empty range (start after end) always fails for an existing workspace. */
  lemma EmptyRangeFails(names: map<string, string>, workspaceId: string, messages: seq<ChatMessage>,
                        start: int, end: int, email: Option<string>, failure: Option<string>)
    requires workspaceId in names && end < start
    ensures GenerateManualReport(names, workspaceId, messages, start, end, email, failure) ==
      Err("No messages found for the specified date range")
  {
    BetweenEmpty(messages, workspaceId, start, end);
  }

  lemma {:induction false} BetweenEmpty(messages: seq<ChatMessage>, workspaceId: string, start: int, end: int)
    requires end < start
    ensures Between(messages, workspaceId, start, end) == []
  {
    if messages != [] {
      BetweenEmpty(messages[1..], workspaceId, start, end);
    }
  }

  /** `get_report_history`: no report collection is kept, so the history is always empty. */
  function ReportHistory(workspaceId: string, limit: int): (r: seq<ManualReport>)
    ensures |r| == 0
  {
    []
  }
}
