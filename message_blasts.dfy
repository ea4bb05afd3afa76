/**
 * Message blasts: one message sent to a list of phone numbers in batches.
 * The phone-number cleaning and validation, the import of numbers from a
 * spreadsheet, and the blast service: its records, its targets, the status
 * machine draft / scheduled / active / paused / cancelled / completed /
 * failed, the batch sending and the progress figures.  The blast and target
 * collections are fields of the service; timestamps are left out.
 */
module MessageBlasts {
  import opened Text
  import opened Ranking

  const MaxPhoneNumbers: nat := 1000
  const MinBatchSize: int := 1
  const MaxBatchSize: int := 50
  const MinBatchInterval: int := 1
  const MaxBatchInterval: int := 30

  // ---------------------------------------------------------------------
  // Phone numbers
  // ---------------------------------------------------------------------

  predicate IsPhoneChar(c: char) { IsDigit(c) || c == '+' }

  /** `re.sub(r'[^\d+]', '', s)`: the digits and plus signs of `s`, in order. */
  function KeepPhoneChars(s: string): (r: string)
    ensures |r| <= |s|
  {
    if s == [] then []
    else (if IsPhoneChar(s[0]) then [s[0]] else []) + KeepPhoneChars(s[1..])
  }

  /** The filter keeps only digits and '+', and a string made of them is kept whole. */
  lemma {:induction false} KeepPhoneCharsSpec(s: string)
    ensures forall i :: 0 <= i < |KeepPhoneChars(s)| ==> IsPhoneChar(KeepPhoneChars(s)[i])
    ensures (forall i :: 0 <= i < |s| ==> IsPhoneChar(s[i])) ==> KeepPhoneChars(s) == s
  {
    if s != [] {
      KeepPhoneCharsSpec(s[1..]);
      if forall i :: 0 <= i < |s| ==> IsPhoneChar(s[i]) {
        assert forall i :: 0 <= i < |s[1..]| ==> IsPhoneChar(s[1..][i]) by {
          forall i | 0 <= i < |s[1..]| ensures IsPhoneChar(s[1..][i]) {
            assert s[1..][i] == s[i + 1];
          }
        }
        assert [s[0]] + s[1..] == s;
      }
    }
  }

  /** `_clean_phone_number`: keep digits and '+', then put a '+' in front when it is missing. */
  function CleanPhoneNumber(phone: string): (r: string)
    ensures r == [] <==> KeepPhoneChars(Strip(phone)) == []
    ensures r != [] ==> r[0] == '+'
  {
    var cleaned := KeepPhoneChars(Strip(phone));
    if cleaned != [] && cleaned[0] != '+' then "+" + cleaned else cleaned
  }

  /** A cleaned number is made of digits and '+' only. */
  lemma CleanPhoneNumberChars(phone: string)
    ensures forall i :: 0 <= i < |CleanPhoneNumber(phone)| ==> IsPhoneChar(CleanPhoneNumber(phone)[i])
  {
    var cleaned := KeepPhoneChars(Strip(phone));
    KeepPhoneCharsSpec(Strip(phone));
    if cleaned != [] && cleaned[0] != '+' {
      var r := "+" + cleaned;
      assert forall i :: 1 <= i < |r| ==> r[i] == cleaned[i - 1];
    }
  }

  /** Cleaning a cleaned number changes nothing. */
  lemma CleanPhoneNumberIdempotent(phone: string)
    ensures CleanPhoneNumber(CleanPhoneNumber(phone)) == CleanPhoneNumber(phone)
  {
    var c := CleanPhoneNumber(phone);
    CleanPhoneNumberChars(phone);
    if c != [] {
      assert !IsSpace(c[0]) && !IsSpace(c[|c| - 1]);
    }
    StripOfTrimmed(c);
    KeepPhoneCharsSpec(c);
  }

  /** `^\+[1-9]\d{7,14}` spanning the whole of `s`. */
  predicate PhonePattern(s: string)
  {
    9 <= |s| <= 16 && s[0] == '+' && '1' <= s[1] <= '9' && forall i :: 2 <= i < |s| ==> IsDigit(s[i])
  }

  /**
   * `_is_valid_phone_format`.  Python's `$` also matches just before a
   * final newline, so the pattern may be followed by one.
   */
  predicate IsValidPhoneFormat(phone: string)
  {
    if phone == [] || |phone| < 8 then false
    else PhonePattern(phone) || (phone[|phone| - 1] == '\n' && PhonePattern(phone[..|phone| - 1]))
  }

  /** Without a final newline the check is exactly the pattern. */
  lemma ValidPhoneFormatSpec(phone: string)
    ensures (phone == [] || phone[|phone| - 1] != '\n') ==> (IsValidPhoneFormat(phone) <==> PhonePattern(phone))
    ensures IsValidPhoneFormat(phone) ==> phone[0] == '+' && 9 <= |phone| <= 17
  {
  }

  /** A cleaned number is valid exactly when it has the pattern. */
  lemma CleanedValidity(phone: string)
    ensures IsValidPhoneFormat(CleanPhoneNumber(phone)) <==> PhonePattern(CleanPhoneNumber(phone))
  {
    var c := CleanPhoneNumber(phone);
    CleanPhoneNumberChars(phone);
    if c != [] {
      assert IsPhoneChar(c[|c| - 1]);
    }
  }

  /** The test `_clean_phone_numbers` applies to a cleaned number. */
  predicate Accepted(c: string)
  {
    c != [] && IsValidPhoneFormat(c)
  }

  /** The accepted entries among the first `n` of `cs`, each kept at its first occurrence. */
  function Dedup(cs: seq<string>, n: nat): (r: seq<string>)
    requires n <= |cs|
    ensures |r| <= n
  {
    if n == 0 then []
    else
      var prev := Dedup(cs, n - 1);
      if Accepted(cs[n - 1]) && cs[n - 1] !in prev then prev + [cs[n - 1]] else prev
  }

  /** Every input, put through the cleaner `clean`. */
  function CleanAll(phones: seq<string>, clean: string -> string): (r: seq<string>)
    ensures |r| == |phones| && forall i :: 0 <= i < |phones| ==> r[i] == clean(phones[i])
  {
    seq(|phones|, i requires 0 <= i < |phones| => clean(phones[i]))
  }

  /** What `_clean_phone_numbers` returns. */
  function CleanedNumbers(phones: seq<string>): seq<string>
  {
    Dedup(CleanAll(phones, CleanPhoneNumber), |phones|)
  }

  /** `_clean_phone_numbers`. */
  method CleanPhoneNumbers(phones: seq<string>) returns (cleaned: seq<string>)
    ensures cleaned == CleanedNumbers(phones)
  {
    cleaned := KeepFirstAccepted(phones, CleanPhoneNumber);
  }

  /**
   * The loop of `_clean_phone_numbers`, with the cleaner as a parameter:
   * each number is cleaned and kept when it is accepted and not yet listed.
   */
  method KeepFirstAccepted(phones: seq<string>, clean: string -> string) returns (cleaned: seq<string>)
    ensures cleaned == Dedup(CleanAll(phones, clean), |phones|)
  {
    ghost var cs := CleanAll(phones, clean);
    cleaned := [];
    for k := 0 to |phones|
      invariant cleaned == Dedup(cs, k)
    {
      var cleanedPhone := clean(phones[k]);
      if Accepted(cleanedPhone) {
        if cleanedPhone !in cleaned {
          cleaned := cleaned + [cleanedPhone];
        }
      }
    }
  }

  predicate Distinct(s: seq<string>)
  {
    forall a, b :: 0 <= a < b < |s| ==> s[a] != s[b]
  }

  /** The deduplicated list holds exactly the accepted entries, each once. */
  lemma {:induction false} DedupMembers(cs: seq<string>, n: nat)
    requires n <= |cs|
    ensures forall x :: x in Dedup(cs, n) <==> exists i :: 0 <= i < n && cs[i] == x && Accepted(x)
    ensures Distinct(Dedup(cs, n))
  {
    if n > 0 {
      DedupMembers(cs, n - 1);
      var prev := Dedup(cs, n - 1);
      if Accepted(cs[n - 1]) && cs[n - 1] !in prev {
        assert Dedup(cs, n) == prev + [cs[n - 1]];
      }
    }
  }

  /**
   * The deduplicated list keeps the order of first occurrence: each
   * occurrence of a later entry is preceded by an occurrence of every
   * earlier one.
   */
  lemma {:induction false} DedupOrder(cs: seq<string>, n: nat)
    requires n <= |cs|
    ensures forall a, b, j :: 0 <= a < b < |Dedup(cs, n)| && 0 <= j < n && cs[j] == Dedup(cs, n)[b]
              ==> exists i :: 0 <= i < j && cs[i] == Dedup(cs, n)[a]
  {
    if n > 0 {
      DedupOrder(cs, n - 1);
      DedupMembers(cs, n - 1);
      var prev := Dedup(cs, n - 1);
      var r := Dedup(cs, n);
      assert r == prev || (r == prev + [cs[n - 1]] && cs[n - 1] !in prev && Accepted(cs[n - 1]));
      forall a, b, j | 0 <= a < b < |r| && 0 <= j < n && cs[j] == r[b]
        ensures exists i :: 0 <= i < j && cs[i] == r[a]
      {
        assert r[a] == prev[a];
        if b < |prev| {
          assert r[b] == prev[b];
        } else {
          assert prev[a] in prev;
          var i0 :| 0 <= i0 < n - 1 && cs[i0] == prev[a] && Accepted(prev[a]);
        }
      }
    }
  }

  /**
   * `_clean_phone_numbers` keeps exactly the inputs whose cleaned form has
   * the full pattern, each cleaned number once.
   */
  lemma CleanedNumbersMembers(phones: seq<string>)
    ensures forall x :: x in CleanedNumbers(phones)
              <==> exists i :: 0 <= i < |phones| && CleanAll(phones, CleanPhoneNumber)[i] == x && PhonePattern(x)
    ensures Distinct(CleanedNumbers(phones))
  {
    var cs := CleanAll(phones, CleanPhoneNumber);
    DedupMembers(cs, |phones|);
    forall i | 0 <= i < |phones| ensures Accepted(cs[i]) <==> PhonePattern(cs[i]) {
      CleanedValidity(phones[i]);
    }
  }


  // ---------------------------------------------------------------------
  // Phone numbers from a spreadsheet
  // ---------------------------------------------------------------------

  /** A spreadsheet column: its name and its cells as text, `None` for an empty cell. */
  datatype Column = Column(name: string, cells: seq<Option<string>>)

  const PhoneKeywords: seq<string> := ["phone", "mobile", "number", "contact"]

  predicate IsPhoneColumn(name: string)
  {
    exists k :: 0 <= k < |PhoneKeywords| && Contains(Lower(name), PhoneKeywords[k])
  }

  /** The positions among the first `n` columns whose name mentions a phone keyword. */
  function KeywordColumns(sheet: seq<Column>, n: nat): (r: seq<nat>)
    requires n <= |sheet|
    ensures forall j :: 0 <= j < |r| ==> r[j] < n && IsPhoneColumn(sheet[r[j]].name)
    ensures forall c :: 0 <= c < n && IsPhoneColumn(sheet[c].name) ==> c in r
  {
    if n == 0 then []
    else KeywordColumns(sheet, n - 1) + if IsPhoneColumn(sheet[n - 1].name) then [n - 1] else []
  }

  /** The columns read: the keyword columns, or the first column when there is none. */
  function PhoneColumns(sheet: seq<Column>): (r: seq<nat>)
    requires sheet != []
    ensures r != [] && forall j :: 0 <= j < |r| ==> r[j] < |sheet|
  {
    var found := KeywordColumns(sheet, |sheet|);
    if found == [] then [0] else found
  }

  /** One cell of the import: a number valid as written is cleaned and kept when new. */
  function ImportCell(numbers: seq<string>, cell: Option<string>): seq<string>
  {
    match cell
    case None => numbers
    case Some(value) =>
      var phone := Strip(value);
      if phone != [] && IsValidPhoneFormat(phone) then
        var cleaned := CleanPhoneNumber(phone);
        if cleaned != [] && cleaned !in numbers then numbers + [cleaned] else numbers
      else numbers
  }

  function ImportCells(numbers: seq<string>, cells: seq<Option<string>>, n: nat): seq<string>
    requires n <= |cells|
  {
    if n == 0 then numbers else ImportCell(ImportCells(numbers, cells, n - 1), cells[n - 1])
  }

  function ImportColumns(sheet: seq<Column>, cols: seq<nat>, m: nat): seq<string>
    requires m <= |cols|
    requires forall j :: 0 <= j < |cols| ==> cols[j] < |sheet|
  {
    if m == 0 then []
    else
      var cells := sheet[cols[m - 1]].cells;
      ImportCells(ImportColumns(sheet, cols, m - 1), cells, |cells|)
  }

  /** The numbers read from the phone columns, column by column and cell by cell. */
  function ImportedNumbers(sheet: seq<Column>): seq<string>
    requires sheet != []
  {
    ImportColumns(sheet, PhoneColumns(sheet), |PhoneColumns(sheet)|)
  }

  /** `upload_phone_numbers_from_excel` once the workbook is read. */
  method UploadPhoneNumbersFromExcel(sheet: seq<Column>) returns (r: Result<seq<string>>)
    ensures sheet == [] ==> r.Err?
    ensures sheet != [] ==> r == if |ImportedNumbers(sheet)| > MaxPhoneNumbers
                                 then Err("Too many phone numbers. Maximum 1000 allowed")
                                 else Ok(ImportedNumbers(sheet))
  {
    if sheet == [] {
      return Err("index 0 is out of bounds for axis 0 with size 0");
    }
    var phoneColumns := PhoneColumns(sheet);
    var phoneNumbers := [];
    for m := 0 to |phoneColumns|
      invariant phoneNumbers == ImportColumns(sheet, phoneColumns, m)
    {
      var cells := sheet[phoneColumns[m]].cells;
      for k := 0 to |cells|
        invariant phoneNumbers == ImportCells(ImportColumns(sheet, phoneColumns, m), cells, k)
      {
        phoneNumbers := ImportCell(phoneNumbers, cells[k]);
      }
    }
    if |phoneNumbers| > MaxPhoneNumbers {
      return Err("Too many phone numbers. Maximum 1000 allowed");
    }
    r := Ok(phoneNumbers);
  }

  /** What the import keeps: distinct numbers of the full pattern. */
  predicate ImportSound(numbers: seq<string>)
  {
    Distinct(numbers) && forall j :: 0 <= j < |numbers| ==> PhonePattern(numbers[j])
  }

  /** A cell whose text is valid as written is kept unchanged by the cleaning. */
  lemma CleanKeepsValidText(phone: string)
    requires phone != [] && !IsSpace(phone[0]) && !IsSpace(phone[|phone| - 1])
    requires IsValidPhoneFormat(phone)
    ensures CleanPhoneNumber(phone) == phone && PhonePattern(phone)
  {
    StripOfTrimmed(phone);
    assert phone[|phone| - 1] != '\n';
    assert forall i :: 0 <= i < |phone| ==> IsPhoneChar(phone[i]);
    KeepPhoneCharsSpec(phone);
  }

  lemma ImportCellSound(numbers: seq<string>, cell: Option<string>)
    requires ImportSound(numbers)
    ensures ImportSound(ImportCell(numbers, cell))
  {
    if cell.Some? {
      var phone := Strip(cell.value);
      if phone != [] && IsValidPhoneFormat(phone) {
        CleanKeepsValidText(phone);
      }
    }
  }

  lemma {:induction false} ImportCellsSound(numbers: seq<string>, cells: seq<Option<string>>, n: nat)
    requires n <= |cells|
    requires ImportSound(numbers)
    ensures ImportSound(ImportCells(numbers, cells, n))
  {
    if n > 0 {
      ImportCellsSound(numbers, cells, n - 1);
      ImportCellSound(ImportCells(numbers, cells, n - 1), cells[n - 1]);
    }
  }

  lemma {:induction false} ImportColumnsSound(sheet: seq<Column>, cols: seq<nat>, m: nat)
    requires m <= |cols|
    requires forall j :: 0 <= j < |cols| ==> cols[j] < |sheet|
    ensures ImportSound(ImportColumns(sheet, cols, m))
  {
    if m > 0 {
      ImportColumnsSound(sheet, cols, m - 1);
      var cells := sheet[cols[m - 1]].cells;
      ImportCellsSound(ImportColumns(sheet, cols, m - 1), cells, |cells|);
    }
  }

  /** Every imported number is distinct from the others and has the full pattern, leading '+' included. */
  lemma ImportedNumbersSound(sheet: seq<Column>)
    requires sheet != []
    ensures ImportSound(ImportedNumbers(sheet))
  {
    ImportColumnsSound(sheet, PhoneColumns(sheet), |PhoneColumns(sheet)|);
  }

  /** A '+', a leading digit other than 0, then only digits. */
  predicate CountryPrefix(cc: string)
  {
    |cc| >= 2 && cc[0] == '+' && '1' <= cc[1] <= '9' && forall i :: 2 <= i < |cc| ==> IsDigit(cc[i])
  }

  predicate AllDigits(s: string)
  {
    forall i :: 0 <= i < |s| ==> IsDigit(s[i])
  }

  /**
   * As written the validity check reads the cell text before cleaning, so
   * a number written with a space after its country code, such as
   * "+91 9876543210", is dropped; cleaning first, as `_clean_phone_numbers`
   * does, keeps it as "+919876543210".
   */
  lemma ImportDropsSpacedNumbers(cc: string, subscriber: string)
    requires CountryPrefix(cc) && subscriber != [] && AllDigits(subscriber)
    requires 9 <= |cc| + |subscriber| <= 16
    ensures ImportCell([], Some(cc + (" " + subscriber))) == []
    ensures ImportCellCleaningFirst([], Some(cc + (" " + subscriber))) == [cc + subscriber]
  {
    SpacedNumberRead(cc, subscriber);
    SpacedNumberCleans(cc, subscriber);
  }

  lemma SpacedNumberRead(cc: string, subscriber: string)
    requires CountryPrefix(cc) && subscriber != [] && AllDigits(subscriber)
    ensures Strip(cc + (" " + subscriber)) == cc + (" " + subscriber)
    ensures !IsValidPhoneFormat(cc + (" " + subscriber))
  {
    var raw := cc + (" " + subscriber);
    assert raw[|cc|] == ' ' && raw[|raw| - 1] == subscriber[|subscriber| - 1];
    StripOfTrimmed(raw);
  }

  lemma SpacedNumberCleans(cc: string, subscriber: string)
    requires CountryPrefix(cc) && subscriber != [] && AllDigits(subscriber)
    requires 9 <= |cc| + |subscriber| <= 16
    ensures CleanPhoneNumber(cc + (" " + subscriber)) == cc + subscriber
    ensures PhonePattern(cc + subscriber)
  {
    var raw := cc + (" " + subscriber);
    var kept := cc + subscriber;
    assert KeepPhoneChars(raw) == kept by {
      KeepPhoneCharsAppend(cc, " " + subscriber);
      KeepPhoneCharsAppend(" ", subscriber);
      assert KeepPhoneChars(" ") == [];
      KeptWhole(subscriber);
      KeptWhole(cc);
    }
    SpacedNumberRead(cc, subscriber);
    assert kept[0] == '+';
    DigitsMakePattern(cc, subscriber);
  }

  /** A country prefix or a run of digits survives the filtering whole. */
  lemma KeptWhole(s: string)
    requires CountryPrefix(s) || AllDigits(s)
    ensures KeepPhoneChars(s) == s
  {
    forall i | 0 <= i < |s| ensures IsPhoneChar(s[i]) {
      if !AllDigits(s) && i >= 2 {
        assert IsDigit(s[i]);
      }
    }
    KeepPhoneCharsSpec(s);
  }

  /** A country prefix followed by digits, 9 to 16 characters in all: the full pattern. */
  lemma DigitsMakePattern(cc: string, rest: string)
    requires CountryPrefix(cc) && AllDigits(rest)
    requires 9 <= |cc| + |rest| <= 16
    ensures PhonePattern(cc + rest)
  {
    var s := cc + rest;
    assert forall i :: |cc| <= i < |s| ==> s[i] == rest[i - |cc|];
  }

  /** Filtering distributes over concatenation. */
  lemma {:induction false} KeepPhoneCharsAppend(a: string, b: string)
    ensures KeepPhoneChars(a + b) == KeepPhoneChars(a) + KeepPhoneChars(b)
  {
    if a != [] {
      assert (a + b)[1..] == a[1..] + b;
      KeepPhoneCharsAppend(a[1..], b);
    } else {
      assert a + b == b;
    }
  }

  /** The import of one cell with the cleaning done before the check, as the list cleaning does. */
  function ImportCellCleaningFirst(numbers: seq<string>, cell: Option<string>): (r: seq<string>)
    ensures ImportSound(numbers) ==> ImportSound(r)
  {
    match cell
    case None => numbers
    case Some(value) =>
      var cleaned := CleanPhoneNumber(value);
      CleanedValidity(value);
      if cleaned != [] && IsValidPhoneFormat(cleaned) && cleaned !in numbers then numbers + [cleaned] else numbers
  }

  /** The cleaning-first import accepts every cell whose cleaned form is valid, as the list cleaning does. */
  lemma CleaningFirstMatchesListCleaning(numbers: seq<string>, value: string)
    ensures ImportCellCleaningFirst(numbers, Some(value))
            == if CleanPhoneNumber(value) != [] && IsValidPhoneFormat(CleanPhoneNumber(value)) && CleanPhoneNumber(value) !in numbers
               then numbers + [CleanPhoneNumber(value)] else numbers
    ensures ImportCell(numbers, Some(value)) != numbers ==> ImportCellCleaningFirst(numbers, Some(value)) == ImportCell(numbers, Some(value))
  {
    var phone := Strip(value);
    if phone != [] && IsValidPhoneFormat(phone) && CleanPhoneNumber(phone) !in numbers {
      CleanKeepsValidText(phone);
      StripIdempotent(value);
    }
  }

  // ---------------------------------------------------------------------
  // Blast records
  // ---------------------------------------------------------------------

  datatype BlastStatus = Draft | Scheduled | Active | Completed | Paused | Cancelled | Failed

  datatype MessageStatus = Pending | Sent | Failed | Delivered

  datatype Blast = Blast(
    workspaceId: nat,
    title: string,
    messageContent: string,
    senderPhoneId: nat,
    batchSize: int,
    batchIntervalMinutes: int,
    status: BlastStatus,
    targetCount: nat,
    sentCount: nat,
    failedCount: nat,
    deliveredCount: nat,
    errorMessage: Option<string>)

  datatype Target = Target(blastId: nat, phoneNumber: string, status: MessageStatus, batchNumber: int, errorMessage: Option<string>)

  /** What a client submits; the status defaults to draft. */
  datatype BlastRequest = BlastRequest(
    workspaceId: nat,
    title: string,
    messageContent: string,
    senderPhoneId: nat,
    batchSize: int,
    batchIntervalMinutes: int,
    status: BlastStatus,
    phoneNumbers: seq<string>)

  /** The fields an update may set; `None` leaves a field as it is. */
  datatype BlastUpdate = BlastUpdate(
    title: Option<string>,
    messageContent: Option<string>,
    senderPhoneId: Option<nat>,
    batchSize: Option<int>,
    batchIntervalMinutes: Option<int>,
    status: Option<BlastStatus>)

  /** A registered phone: the workspace it belongs to and its connection status. */
  datatype SenderPhone = SenderPhone(workspaceId: nat, status: string)

  /** The outcome of one WhatsApp send: accepted, refused, or an exception with its text. */
  datatype SendOutcome = SendOk | SendRefused | SendRaised(error: string)

  /** The reason `create_blast` refuses a request, checked in the source's order. */
  function CreateBlastError(req: BlastRequest, phones: map<nat, SenderPhone>): (e: Option<string>)
    ensures e.None? <==>
      1 <= |req.phoneNumbers| <= MaxPhoneNumbers
      && MinBatchSize <= req.batchSize <= MaxBatchSize
      && MinBatchInterval <= req.batchIntervalMinutes <= MaxBatchInterval
      && req.senderPhoneId in phones && phones[req.senderPhoneId].workspaceId == req.workspaceId
      && phones[req.senderPhoneId].status == "connected"
  {
    if |req.phoneNumbers| > MaxPhoneNumbers then Some("Maximum 1000 phone numbers allowed")
    else if |req.phoneNumbers| == 0 then Some("At least one phone number is required")
    else if !(MinBatchSize <= req.batchSize <= MaxBatchSize) then Some("Batch size must be between 1 and 50")
    else if !(MinBatchInterval <= req.batchIntervalMinutes <= MaxBatchInterval) then Some("Batch interval must be between 1 and 30 minutes")
    else if req.senderPhoneId !in phones || phones[req.senderPhoneId].workspaceId != req.workspaceId then Some("Sender phone not found in workspace")
    else if phones[req.senderPhoneId].status != "connected" then Some("Sender phone must be connected to WhatsApp")
    else None
  }

  /** The stored record of an accepted request with `targets` cleaned numbers: all counters at 0. */
  function NewBlast(req: BlastRequest, targets: nat): Blast
  {
    Blast(req.workspaceId, req.title, req.messageContent, req.senderPhoneId, req.batchSize,
          req.batchIntervalMinutes, req.status, targets, 0, 0, 0, None)
  }

  /** The record after an update: each field given replaces the stored one. */
  function Updated(b: Blast, u: BlastUpdate): Blast
  {
    b.(title := if u.title.Some? then u.title.value else b.title,
       messageContent := if u.messageContent.Some? then u.messageContent.value else b.messageContent,
       senderPhoneId := if u.senderPhoneId.Some? then u.senderPhoneId.value else b.senderPhoneId,
       batchSize := if u.batchSize.Some? then u.batchSize.value else b.batchSize,
       batchIntervalMinutes := if u.batchIntervalMinutes.Some? then u.batchIntervalMinutes.value else b.batchIntervalMinutes,
       status := if u.status.Some? then u.status.value else b.status)
  }

  /** The target after one send. */
  function Processed(t: Target, send: string -> SendOutcome): (r: Target)
    ensures r.blastId == t.blastId && r.phoneNumber == t.phoneNumber && r.batchNumber == t.batchNumber
    ensures r.status == (if send(t.phoneNumber).SendOk? then Sent else MessageStatus.Failed)
  {
    match send(t.phoneNumber)
    case SendOk => t.(status := Sent)
    case SendRefused => t.(status := MessageStatus.Failed, errorMessage := Some("Failed to send via WhatsApp"))
    case SendRaised(error) => t.(status := MessageStatus.Failed, errorMessage := Some(error))
  }

  // ---------------------------------------------------------------------
  // Counting targets
  // ---------------------------------------------------------------------

  /** The target belongs to blast `id` and, when `st` is given, has that status. */
  predicate Counts(t: Target, id: nat, st: Option<MessageStatus>)
  {
    t.blastId == id && (st.None? || t.status == st.value)
  }

  function Count(ts: seq<Target>, id: nat, st: Option<MessageStatus>): (n: nat)
    ensures n <= |ts|
  {
    if ts == [] then 0
    else Count(ts[..|ts| - 1], id, st) + if Counts(ts[|ts| - 1], id, st) then 1 else 0
  }

  lemma {:induction false} CountAppend(a: seq<Target>, b: seq<Target>, id: nat, st: Option<MessageStatus>)
    ensures Count(a + b, id, st) == Count(a, id, st) + Count(b, id, st)
    decreases |b|
  {
    if b == [] {
      assert a + b == a;
    } else {
      assert (a + b)[..|a + b| - 1] == a + b[..|b| - 1];
      assert (a + b)[|a + b| - 1] == b[|b| - 1];
      CountAppend(a, b[..|b| - 1], id, st);
    }
  }

  lemma {:induction false} CountUpdate(ts: seq<Target>, k: nat, t: Target, id: nat, st: Option<MessageStatus>)
    requires k < |ts|
    ensures Count(ts[k := t], id, st) + (if Counts(ts[k], id, st) then 1 else 0)
            == Count(ts, id, st) + (if Counts(t, id, st) then 1 else 0)
  {
    var last := |ts| - 1;
    if k < last {
      assert ts[k := t][..last] == ts[..last][k := t];
      CountUpdate(ts[..last], k, t, id, st);
    } else {
      assert ts[k := t][..last] == ts[..last];
    }
  }

  lemma {:induction false} CountNone(ts: seq<Target>, id: nat, st: Option<MessageStatus>)
    requires forall k :: 0 <= k < |ts| ==> ts[k].blastId != id
    ensures Count(ts, id, st) == 0
  {
    if ts != [] {
      CountNone(ts[..|ts| - 1], id, st);
    }
  }

  lemma {:induction false} CountZero(ts: seq<Target>, id: nat, st: Option<MessageStatus>)
    ensures Count(ts, id, st) == 0 <==> forall k :: 0 <= k < |ts| ==> !Counts(ts[k], id, st)
  {
    if ts != [] {
      CountZero(ts[..|ts| - 1], id, st);
    }
  }

  /** Every target has one of the four statuses, so the per-status counts add up to the total. */
  lemma {:induction false} CountByStatus(ts: seq<Target>, id: nat)
    ensures Count(ts, id, None) == Count(ts, id, Some(Pending)) + Count(ts, id, Some(Sent))
                                   + Count(ts, id, Some(MessageStatus.Failed)) + Count(ts, id, Some(Delivered))
  {
    if ts != [] {
      CountByStatus(ts[..|ts| - 1], id);
    }
  }

  /** The targets of other blasts. */
  function WithoutBlast(ts: seq<Target>, id: nat): (r: seq<Target>)
    ensures forall k :: 0 <= k < |r| ==> r[k].blastId != id && r[k] in ts
  {
    if ts == [] then []
    else WithoutBlast(ts[..|ts| - 1], id) + if ts[|ts| - 1].blastId != id then [ts[|ts| - 1]] else []
  }

  lemma {:induction false} CountWithoutBlast(ts: seq<Target>, id: nat, other: nat, st: Option<MessageStatus>)
    requires other != id
    ensures Count(WithoutBlast(ts, id), other, st) == Count(ts, other, st)
  {
    if ts != [] {
      var prefix := ts[..|ts| - 1];
      var last := ts[|ts| - 1];
      CountWithoutBlast(prefix, id, other, st);
      CountAppend(WithoutBlast(prefix, id), if last.blastId != id then [last] else [], other, st);
      assert Count([last], other, st) == if Counts(last, other, st) then 1 else 0 by {
        assert [last][..0] == [];
      }
    }
  }

  /** The targets `_create_blast_targets` inserts for `numbers`. */
  function NewTargets(blastId: nat, numbers: seq<string>): (r: seq<Target>)
    ensures |r| == |numbers|
  {
    seq(|numbers|, i requires 0 <= i < |numbers| => Target(blastId, numbers[i], Pending, i / 5 + 1, None))
  }

  lemma {:induction false} CountNewTargets(blastId: nat, numbers: seq<string>, id: nat, st: Option<MessageStatus>)
    ensures Count(NewTargets(blastId, numbers), id, st)
            == if id == blastId && (st.None? || st.value == Pending) then |numbers| else 0
    decreases |numbers|
  {
    if numbers != [] {
      var prefix := numbers[..|numbers| - 1];
      assert NewTargets(blastId, numbers)[..|numbers| - 1] == NewTargets(blastId, prefix);
      CountNewTargets(blastId, prefix, id, st);
    }
  }

  /** The indices among the first `n` targets that are pending for blast `id`, in order. */
  function PendingIndices(ts: seq<Target>, id: nat, n: nat): (r: seq<nat>)
    requires n <= |ts|
    ensures forall j :: 0 <= j < |r| ==> r[j] < n && Counts(ts[r[j]], id, Some(Pending))
    ensures forall a, b :: 0 <= a < b < |r| ==> r[a] < r[b]
    ensures forall k :: 0 <= k < n && Counts(ts[k], id, Some(Pending)) ==> k in r
  {
    if n == 0 then []
    else PendingIndices(ts, id, n - 1) + if Counts(ts[n - 1], id, Some(Pending)) then [n - 1] else []
  }

  /** MongoDB's `limit(n)`: 0 means no limit, a negative limit counts like its absolute value. */
  function Limit(s: seq<nat>, n: int): (r: seq<nat>)
    ensures |r| <= |s| && r == s[..|r|]
    ensures s != [] ==> r != []
  {
    TakeIsPrefix(s, if n < 0 then -n else n);
    if n == 0 then s else Take(s, if n < 0 then -n else n)
  }

  /** The targets after sending to the indices of `batch` one after the other. */
  function SendTargets(ts: seq<Target>, batch: seq<nat>, send: string -> SendOutcome): (r: seq<Target>)
    requires forall j :: 0 <= j < |batch| ==> batch[j] < |ts|
    ensures |r| == |ts|
  {
    if batch == [] then ts
    else
      var k := batch[|batch| - 1];
      var prev := SendTargets(ts, batch[..|batch| - 1], send);
      prev[k := Processed(prev[k], send)]
  }

  /** With distinct indices, exactly the batch's targets are processed, each once. */
  lemma {:induction false} SendTargetsSpec(ts: seq<Target>, batch: seq<nat>, send: string -> SendOutcome)
    requires forall j :: 0 <= j < |batch| ==> batch[j] < |ts|
    requires forall a, b :: 0 <= a < b < |batch| ==> batch[a] != batch[b]
    ensures forall k :: 0 <= k < |ts| ==>
              SendTargets(ts, batch, send)[k] == if k in batch then Processed(ts[k], send) else ts[k]
  {
    if batch != [] {
      var init := batch[..|batch| - 1];
      var last := batch[|batch| - 1];
      SendTargetsSpec(ts, init, send);
      assert last !in init by {
        forall i | 0 <= i < |init| ensures init[i] != last {
          assert init[i] == batch[i];
        }
      }
      assert forall k :: k in batch <==> k in init || k == last by {
        assert batch == init + [last];
      }
    }
  }

  /** Sending to a batch of distinct pending targets lowers the pending count by the batch's size. */
  lemma {:induction false} SendTargetsPending(ts: seq<Target>, batch: seq<nat>, send: string -> SendOutcome, id: nat)
    requires forall j :: 0 <= j < |batch| ==> batch[j] < |ts| && Counts(ts[batch[j]], id, Some(Pending))
    requires forall a, b :: 0 <= a < b < |batch| ==> batch[a] != batch[b]
    ensures Count(SendTargets(ts, batch, send), id, Some(Pending)) + |batch| == Count(ts, id, Some(Pending))
  {
    if batch != [] {
      var init := batch[..|batch| - 1];
      var last := batch[|batch| - 1];
      SendTargetsPending(ts, init, send, id);
      PendingBeforeSend(ts, batch, |batch| - 1, send);
      var prev := SendTargets(ts, init, send);
      CountUpdate(prev, last, Processed(prev[last], send), id, Some(Pending));
    }
  }

  /** The next index of a batch of distinct indices still holds its original target. */
  lemma PendingBeforeSend(ts: seq<Target>, batch: seq<nat>, j: nat, send: string -> SendOutcome)
    requires forall i :: 0 <= i < |batch| ==> batch[i] < |ts|
    requires forall a, b :: 0 <= a < b < |batch| ==> batch[a] != batch[b]
    requires j < |batch|
    ensures SendTargets(ts, batch[..j], send)[batch[j]] == ts[batch[j]]
  {
    var done := batch[..j];
    SendTargetsSpec(ts, done, send);
    assert batch[j] !in done by {
      forall i | 0 <= i < j ensures done[i] != batch[j] {
        assert done[i] == batch[i];
      }
    }
  }

  /** Every target is as it was, or was pending for blast `id` and has been sent to. */
  predicate History(orig: seq<Target>, ts: seq<Target>, id: nat, send: string -> SendOutcome)
  {
    |ts| == |orig|
    && forall k :: 0 <= k < |ts| ==>
         ts[k] == orig[k] || (Counts(orig[k], id, Some(Pending)) && ts[k] == Processed(orig[k], send))
  }

  /** The targets once every pending target of blast `id` has been sent to. */
  function Dispatched(ts: seq<Target>, id: nat, send: string -> SendOutcome): (r: seq<Target>)
    ensures |r| == |ts|
  {
    seq(|ts|, k requires 0 <= k < |ts| => if Counts(ts[k], id, Some(Pending)) then Processed(ts[k], send) else ts[k])
  }

  /** Sending a batch of distinct pending targets extends the history. */
  lemma HistoryStep(orig: seq<Target>, prev: seq<Target>, batch: seq<nat>, send: string -> SendOutcome, id: nat)
    requires History(orig, prev, id, send)
    requires forall j :: 0 <= j < |batch| ==> batch[j] < |prev| && Counts(prev[batch[j]], id, Some(Pending))
    requires forall a, b :: 0 <= a < b < |batch| ==> batch[a] != batch[b]
    ensures History(orig, SendTargets(prev, batch, send), id, send)
  {
    SendTargetsSpec(prev, batch, send);
    var next := SendTargets(prev, batch, send);
    forall k | 0 <= k < |next|
      ensures next[k] == orig[k] || (Counts(orig[k], id, Some(Pending)) && next[k] == Processed(orig[k], send))
    {
      if k in batch {
        var j :| 0 <= j < |batch| && batch[j] == k;
        assert Counts(prev[k], id, Some(Pending));
      }
    }
  }

  /** Once no target of blast `id` is pending, every target that was pending has been sent to. */
  lemma HistoryComplete(orig: seq<Target>, ts: seq<Target>, id: nat, send: string -> SendOutcome)
    requires History(orig, ts, id, send) && Count(ts, id, Some(Pending)) == 0
    ensures ts == Dispatched(orig, id, send)
  {
    CountZero(ts, id, Some(Pending));
    forall k | 0 <= k < |ts| ensures ts[k] == Dispatched(orig, id, send)[k] {
      assert !Counts(ts[k], id, Some(Pending));
    }
  }

  /** The batch taken from the pending targets: distinct indices of pending targets. */
  lemma BatchOfPending(ts: seq<Target>, id: nat, size: int)
    ensures var batch := Limit(PendingIndices(ts, id, |ts|), size);
      (forall j :: 0 <= j < |batch| ==> batch[j] < |ts| && Counts(ts[batch[j]], id, Some(Pending)))
      && (forall a, b :: 0 <= a < b < |batch| ==> batch[a] != batch[b])
      && (batch == [] <==> Count(ts, id, Some(Pending)) == 0)
  {
    var pending := PendingIndices(ts, id, |ts|);
    var batch := Limit(pending, size);
    assert forall j :: 0 <= j < |batch| ==> batch[j] == pending[j];
    CountZero(ts, id, Some(Pending));
    if batch == [] {
      assert pending == [];
    } else {
      assert Counts(ts[batch[0]], id, Some(Pending));
    }
  }

  // ---------------------------------------------------------------------
  // The blast service
  // ---------------------------------------------------------------------

  /** The counters of blast `b` (stored under `id`) agree with the statuses of its targets. */
  predicate Accounted(b: Blast, ts: seq<Target>, id: nat)
  {
    b.targetCount == Count(ts, id, None)
    && b.sentCount == Count(ts, id, Some(Sent))
    && b.failedCount == Count(ts, id, Some(MessageStatus.Failed))
    && b.deliveredCount == Count(ts, id, Some(Delivered))
  }

  /** Two records agree on everything but their status, sent and failed counters and error. */
  predicate SameSettings(a: Blast, b: Blast)
  {
    a.workspaceId == b.workspaceId && a.title == b.title && a.messageContent == b.messageContent
    && a.senderPhoneId == b.senderPhoneId && a.batchSize == b.batchSize
    && a.batchIntervalMinutes == b.batchIntervalMinutes && a.targetCount == b.targetCount
    && a.deliveredCount == b.deliveredCount
  }

  predicate SameCounters(a: Blast, b: Blast)
  {
    a.targetCount == b.targetCount && a.sentCount == b.sentCount
    && a.failedCount == b.failedCount && a.deliveredCount == b.deliveredCount
  }

  /**
   * The service's state is consistent: ids below `nextId` are the only ones
   * used, every target belongs to a stored blast, and every blast's
   * counters agree with its targets.
   */
  predicate Consistent(blasts: map<nat, Blast>, ts: seq<Target>, nextId: nat)
  {
    (forall id :: id in blasts ==> id < nextId)
    && (forall k :: 0 <= k < |ts| ==> ts[k].blastId in blasts)
    && (forall id :: id in blasts ==> Accounted(blasts[id], ts, id))
  }

  /** The blast's counters after one send. */
  function Tallied(b: Blast, outcome: SendOutcome): Blast
  {
    if outcome.SendOk? then b.(sentCount := b.sentCount + 1) else b.(failedCount := b.failedCount + 1)
  }

  lemma CountsPerStatus(ts: seq<Target>, ts': seq<Target>, id: nat)
    requires forall st: Option<MessageStatus> :: Count(ts', id, st) == Count(ts, id, st)
    ensures forall b :: Accounted(b, ts, id) ==> Accounted(b, ts', id)
  {
  }

  /** A new blast with all counters at 0 and its cleaned numbers as pending targets keeps the state consistent. */
  lemma ConsistentCreate(blasts: map<nat, Blast>, ts: seq<Target>, nextId: nat, b: Blast, numbers: seq<string>)
    requires Consistent(blasts, ts, nextId)
    requires b.targetCount == |numbers| && b.sentCount == 0 && b.failedCount == 0 && b.deliveredCount == 0
    ensures Consistent(blasts[nextId := b], ts + NewTargets(nextId, numbers), nextId + 1)
  {
    var blasts', ts' := blasts[nextId := b], ts + NewTargets(nextId, numbers);
    forall id | id in blasts'
      ensures Accounted(blasts'[id], ts', id)
    {
      CountAfterCreate(blasts, ts, nextId, numbers, id, None);
      CountAfterCreate(blasts, ts, nextId, numbers, id, Some(Sent));
      CountAfterCreate(blasts, ts, nextId, numbers, id, Some(MessageStatus.Failed));
      CountAfterCreate(blasts, ts, nextId, numbers, id, Some(Delivered));
    }
  }

  lemma CountAfterCreate(blasts: map<nat, Blast>, ts: seq<Target>, nextId: nat, numbers: seq<string>, id: nat, st: Option<MessageStatus>)
    requires Consistent(blasts, ts, nextId)
    ensures Count(ts + NewTargets(nextId, numbers), id, st)
            == if id == nextId then (if st.None? || st.value == Pending then |numbers| else 0) else Count(ts, id, st)
  {
    CountAppend(ts, NewTargets(nextId, numbers), id, st);
    CountNewTargets(nextId, numbers, id, st);
    if id == nextId {
      CountNone(ts, id, st);
    }
  }

  /** Removing a blast together with its targets keeps the state consistent. */
  lemma ConsistentDelete(blasts: map<nat, Blast>, ts: seq<Target>, nextId: nat, id: nat)
    requires Consistent(blasts, ts, nextId)
    ensures Consistent(blasts - {id}, WithoutBlast(ts, id), nextId)
  {
    var ts' := WithoutBlast(ts, id);
    forall other | other in blasts - {id}
      ensures Accounted(blasts[other], ts', other)
    {
      forall st: Option<MessageStatus> ensures Count(ts', other, st) == Count(ts, other, st) {
        CountWithoutBlast(ts, id, other, st);
      }
    }
    forall k | 0 <= k < |ts'| ensures ts'[k].blastId in blasts - {id} {
      assert ts'[k] in ts;
    }
  }

  /** A change of a stored blast that keeps its counters keeps the state consistent. */
  lemma ConsistentRecord(blasts: map<nat, Blast>, ts: seq<Target>, nextId: nat, id: nat, b: Blast)
    requires Consistent(blasts, ts, nextId)
    requires id in blasts && SameCounters(blasts[id], b)
    ensures Consistent(blasts[id := b], ts, nextId)
  {
  }

  /** One pending target sent, with its blast's counter moved accordingly, keeps the state consistent. */
  lemma ConsistentSend(blasts: map<nat, Blast>, ts: seq<Target>, nextId: nat, id: nat, k: nat, send: string -> SendOutcome)
    requires Consistent(blasts, ts, nextId)
    requires id in blasts && k < |ts| && Counts(ts[k], id, Some(Pending))
    ensures Consistent(blasts[id := Tallied(blasts[id], send(ts[k].phoneNumber))], ts[k := Processed(ts[k], send)], nextId)
    ensures Count(ts[k := Processed(ts[k], send)], id, Some(Pending)) + 1 == Count(ts, id, Some(Pending))
  {
    var t' := Processed(ts[k], send);
    var ts' := ts[k := t'];
    var blasts' := blasts[id := Tallied(blasts[id], send(ts[k].phoneNumber))];
    forall other | other in blasts'
      ensures Accounted(blasts'[other], ts', other)
    {
      CountUpdate(ts, k, t', other, None);
      CountUpdate(ts, k, t', other, Some(Sent));
      CountUpdate(ts, k, t', other, Some(MessageStatus.Failed));
      CountUpdate(ts, k, t', other, Some(Delivered));
    }
    CountUpdate(ts, k, t', id, Some(Pending));
  }

  lemma UpdateTwice(m: map<nat, Blast>, id: nat, x: Blast, y: Blast)
    ensures m[id := x][id := y] == m[id := y]
  {
  }

  class BlastService {
    var blasts: map<nat, Blast>
    var targets: seq<Target>
    var nextId: nat

    ghost predicate Valid()
      reads this
    {
      Consistent(blasts, targets, nextId)
    }

    constructor()
      ensures blasts == map[] && targets == [] && nextId == 0
      ensures Valid()
    {
      blasts := map[];
      targets := [];
      nextId := 0;
    }

    /** `_create_blast_targets`: one pending target per number, five to a batch number. */
    method CreateBlastTargets(blastId: nat, phoneNumbers: seq<string>)
      modifies this
      ensures targets == old(targets) + NewTargets(blastId, phoneNumbers)
      ensures blasts == old(blasts) && nextId == old(nextId)
    {
      var newTargets := [];
      for i := 0 to |phoneNumbers|
        invariant newTargets == NewTargets(blastId, phoneNumbers[..i])
      {
        var batchNumber := i / 5 + 1;
        newTargets := newTargets + [Target(blastId, phoneNumbers[i], Pending, batchNumber, None)];
      }
      assert phoneNumbers[..|phoneNumbers|] == phoneNumbers;
      targets := targets + newTargets;
    }

    /**
     * `create_blast`.  A refused request changes nothing; an accepted one
     * stores the blast with its cleaned numbers as pending targets.
     */
    method CreateBlast(req: BlastRequest, phones: map<nat, SenderPhone>) returns (r: Result<nat>)
      requires Valid()
      modifies this
      ensures Valid()
      ensures CreateBlastError(req, phones).Some? ==>
        r == Err(CreateBlastError(req, phones).value) && blasts == old(blasts) && targets == old(targets) && nextId == old(nextId)
      ensures CreateBlastError(req, phones).None? ==>
        r == Ok(old(nextId)) && nextId == old(nextId) + 1
        && blasts == old(blasts)[old(nextId) := NewBlast(req, |CleanedNumbers(req.phoneNumbers)|)]
        && targets == old(targets) + NewTargets(old(nextId), CleanedNumbers(req.phoneNumbers))
    {
      var error := CreateBlastError(req, phones);
      if error.Some? {
        return Err(error.value);
      }
      var cleanedNumbers := CleanPhoneNumbers(req.phoneNumbers);
      var id := nextId;
      ConsistentCreate(blasts, targets, id, NewBlast(req, |cleanedNumbers|), cleanedNumbers);
      blasts := blasts[id := NewBlast(req, |cleanedNumbers|)];
      nextId := nextId + 1;
      CreateBlastTargets(id, cleanedNumbers);
      r := Ok(id);
    }

    /** `update_blast`: only a draft or scheduled blast may change, and then in every field given. */
    method UpdateBlast(id: nat, u: BlastUpdate) returns (r: Result<Blast>)
      requires Valid()
      modifies this
      ensures Valid()
      ensures targets == old(targets) && nextId == old(nextId)
      ensures id !in old(blasts) || old(blasts[id]).status !in {Draft, Scheduled} ==>
        r == Err("Can only update draft or scheduled blasts") && blasts == old(blasts)
      ensures id in old(blasts) && old(blasts[id]).status in {Draft, Scheduled} ==>
        r == Ok(Updated(old(blasts[id]), u)) && blasts == old(blasts)[id := Updated(old(blasts[id]), u)]
    {
      if id !in blasts || blasts[id].status !in {Draft, Scheduled} {
        return Err("Can only update draft or scheduled blasts");
      }
      var b := Updated(blasts[id], u);
      ConsistentRecord(blasts, targets, nextId, id, b);
      blasts := blasts[id := b];
      r := Ok(b);
    }

    /** `delete_blast`: refused for active and scheduled blasts; the targets go first, then the blast. */
    method DeleteBlast(id: nat) returns (r: Result<bool>)
      requires Valid()
      modifies this
      ensures Valid()
      ensures nextId == old(nextId)
      ensures id !in old(blasts) || old(blasts[id]).status in {Active, Scheduled} ==>
        r == Err("Cannot delete active or scheduled blasts") && blasts == old(blasts) && targets == old(targets)
      ensures id in old(blasts) && old(blasts[id]).status !in {Active, Scheduled} ==>
        r == Ok(true) && blasts == old(blasts) - {id} && targets == WithoutBlast(old(targets), id)
    {
      if id !in blasts || blasts[id].status in {Active, Scheduled} {
        return Err("Cannot delete active or scheduled blasts");
      }
      ConsistentDelete(blasts, targets, nextId, id);
      targets := WithoutBlast(targets, id);
      blasts := blasts - {id};
      r := Ok(true);
    }

    /** `start_blast`: only a scheduled blast starts. */
    method StartBlast(id: nat) returns (r: Result<bool>)
      requires Valid()
      modifies this
      ensures Valid()
      ensures targets == old(targets) && nextId == old(nextId)
      ensures id !in old(blasts) ==> r == Err("Blast not found") && blasts == old(blasts)
      ensures id in old(blasts) ==>
        if old(blasts[id]).status == Scheduled
        then r == Ok(true) && blasts == old(blasts)[id := old(blasts[id]).(status := Active)]
        else r == Err("Can only start scheduled blasts") && blasts == old(blasts)
      ensures id in old(blasts) ==> (r.Ok? <==> NextStatus(Start, old(blasts[id]).status).Some?)
      ensures r.Ok? ==> blasts[id].status == NextStatus(Start, old(blasts[id]).status).value
    {
      if id !in blasts {
        return Err("Blast not found");
      }
      if blasts[id].status != Scheduled {
        return Err("Can only start scheduled blasts");
      }
      ConsistentRecord(blasts, targets, nextId, id, blasts[id].(status := Active));
      blasts := blasts[id := blasts[id].(status := Active)];
      r := Ok(true);
    }

    /** A conditional status update, as `update_one` with a status filter performs it. */
    method SetStatusIf(id: nat, from: set<BlastStatus>, to: BlastStatus) returns (modified: bool)
      requires Valid()
      modifies this
      ensures Valid()
      ensures targets == old(targets) && nextId == old(nextId)
      ensures modified <==> id in old(blasts) && old(blasts[id]).status in from
      ensures blasts == if modified then old(blasts)[id := old(blasts[id]).(status := to)] else old(blasts)
    {
      modified := id in blasts && blasts[id].status in from;
      if modified {
        ConsistentRecord(blasts, targets, nextId, id, blasts[id].(status := to));
        blasts := blasts[id := blasts[id].(status := to)];
      }
    }

    /** `pause_blast`: active to paused. */
    method PauseBlast(id: nat) returns (modified: bool)
      requires Valid()
      modifies this
      ensures Valid()
      ensures targets == old(targets) && nextId == old(nextId)
      ensures modified <==> id in old(blasts) && old(blasts[id]).status == Active
      ensures blasts == if modified then old(blasts)[id := old(blasts[id]).(status := Paused)] else old(blasts)
      ensures id in old(blasts) ==> (modified <==> NextStatus(Pause, old(blasts[id]).status).Some?)
      ensures modified ==> blasts[id].status == NextStatus(Pause, old(blasts[id]).status).value
    {
      modified := SetStatusIf(id, {Active}, Paused);
    }

    /** `resume_blast`: paused to active. */
    method ResumeBlast(id: nat) returns (modified: bool)
      requires Valid()
      modifies this
      ensures Valid()
      ensures targets == old(targets) && nextId == old(nextId)
      ensures modified <==> id in old(blasts) && old(blasts[id]).status == Paused
      ensures blasts == if modified then old(blasts)[id := old(blasts[id]).(status := Active)] else old(blasts)
      ensures id in old(blasts) ==> (modified <==> NextStatus(Resume, old(blasts[id]).status).Some?)
      ensures modified ==> blasts[id].status == NextStatus(Resume, old(blasts[id]).status).value
    {
      modified := SetStatusIf(id, {Paused}, Active);
    }

    /** `cancel_blast`: active, scheduled or paused to cancelled. */
    method CancelBlast(id: nat) returns (modified: bool)
      requires Valid()
      modifies this
      ensures Valid()
      ensures targets == old(targets) && nextId == old(nextId)
      ensures modified <==> id in old(blasts) && old(blasts[id]).status in {Active, Scheduled, Paused}
      ensures blasts == if modified then old(blasts)[id := old(blasts[id]).(status := Cancelled)] else old(blasts)
      ensures id in old(blasts) ==> (modified <==> NextStatus(Cancel, old(blasts[id]).status).Some?)
      ensures modified ==> blasts[id].status == NextStatus(Cancel, old(blasts[id]).status).value
    {
      modified := SetStatusIf(id, {Active, Scheduled, Paused}, Cancelled);
    }

    /**
     * One send of `_send_batch_messages`: the target at `k` becomes sent or
     * failed, and exactly one of the blast's two counters goes up by one.
     */
    method SendOne(id: nat, k: nat, send: string -> SendOutcome)
      requires Valid() && id in blasts
      requires k < |targets| && Counts(targets[k], id, Some(Pending))
      modifies this
      ensures Valid()
      ensures nextId == old(nextId)
      ensures targets == old(targets)[k := Processed(old(targets[k]), send)]
      ensures blasts == old(blasts)[id := Tallied(old(blasts[id]), send(old(targets[k]).phoneNumber))]
    {
      ConsistentSend(blasts, targets, nextId, id, k, send);
      var t := targets[k];
      var outcome := send(t.phoneNumber);
      targets := targets[k := Processed(t, send)];
      blasts := blasts[id := Tallied(blasts[id], outcome)];
    }

    /** `_send_batch_messages` for a batch of distinct pending targets of blast `id`. */
    method SendBatch(id: nat, batch: seq<nat>, send: string -> SendOutcome)
      requires Valid() && id in blasts
      requires forall j :: 0 <= j < |batch| ==> batch[j] < |targets| && Counts(targets[batch[j]], id, Some(Pending))
      requires forall a, b :: 0 <= a < b < |batch| ==> batch[a] != batch[b]
      modifies this
      ensures Valid() && id in blasts
      ensures blasts == old(blasts)[id := blasts[id]] && nextId == old(nextId)
      ensures targets == SendTargets(old(targets), batch, send)
      ensures blasts[id] == old(blasts[id]).(sentCount := blasts[id].sentCount, failedCount := blasts[id].failedCount)
    {
      for j := 0 to |batch|
        invariant Valid() && id in blasts
        invariant blasts == old(blasts)[id := blasts[id]] && nextId == old(nextId)
        invariant targets == SendTargets(old(targets), batch[..j], send)
        invariant blasts[id] == old(blasts[id]).(sentCount := blasts[id].sentCount, failedCount := blasts[id].failedCount)
      {
        PendingBeforeSend(old(targets), batch, j, send);
        ghost var beforeBlast := blasts[id];
        SendOne(id, batch[j], send);
        UpdateTwice(old(blasts), id, beforeBlast, blasts[id]);
        assert batch[..j + 1][..j] == batch[..j];
      }
      assert batch[..|batch|] == batch;
    }

    /**
     * `_process_blast_batches` run to its end, with nothing else changing
     * the blast meanwhile: while the blast is active, take the next pending
     * targets (at most the batch size, in the order they were stored) and
     * send them; with none left the blast is completed.  A sender phone
     * that cannot be found raises inside the batch, which marks the blast
     * failed.
     */
    method ProcessBlastBatches(id: nat, senderFound: bool, send: string -> SendOutcome)
      requires Valid()
      modifies this
      ensures Valid() && nextId == old(nextId)
      ensures id !in old(blasts) || old(blasts[id]).status != Active ==> blasts == old(blasts) && targets == old(targets)
      ensures id in old(blasts) && old(blasts[id]).status == Active && senderFound ==>
        id in blasts && blasts == old(blasts)[id := blasts[id]]
        && blasts[id] == old(blasts[id]).(status := Completed, sentCount := blasts[id].sentCount, failedCount := blasts[id].failedCount)
        && targets == Dispatched(old(targets), id, send)
      ensures id in old(blasts) && old(blasts[id]).status == Active && !senderFound ==>
        targets == old(targets)
        && blasts == old(blasts)[id := if Count(old(targets), id, Some(Pending)) == 0
                                      then old(blasts[id]).(status := Completed)
                                      else old(blasts[id]).(status := BlastStatus.Failed, errorMessage := Some("Sender phone not found"))]
    {
      if id !in blasts || blasts[id].status != Active {
        return;
      }
      while true
        invariant Valid() && id in blasts && blasts[id].status == Active
        invariant blasts == old(blasts)[id := blasts[id]] && nextId == old(nextId)
        invariant blasts[id] == old(blasts[id]).(sentCount := blasts[id].sentCount, failedCount := blasts[id].failedCount)
        invariant History(old(targets), targets, id, send)
        invariant !senderFound ==> targets == old(targets) && blasts == old(blasts)
        decreases Count(targets, id, Some(Pending))
      {
        var pending := PendingIndices(targets, id, |targets|);
        var batch := Limit(pending, blasts[id].batchSize);
        BatchOfPending(targets, id, blasts[id].batchSize);
        if batch == [] {
          HistoryComplete(old(targets), targets, id, send);
          ConsistentRecord(blasts, targets, nextId, id, blasts[id].(status := Completed));
          blasts := blasts[id := blasts[id].(status := Completed)];
          return;
        }
        if !senderFound {
          var failed := blasts[id].(status := BlastStatus.Failed, errorMessage := Some("Sender phone not found"));
          ConsistentRecord(blasts, targets, nextId, id, failed);
          blasts := blasts[id := failed];
          return;
        }
        ghost var before, beforeBlast := targets, blasts[id];
        SendBatch(id, batch, send);
        SendTargetsPending(before, batch, send, id);
        HistoryStep(old(targets), before, batch, send, id);
        UpdateTwice(old(blasts), id, beforeBlast, blasts[id]);
      }
    }
  }

  // ---------------------------------------------------------------------
  // Status transitions
  // ---------------------------------------------------------------------

  /** The operations a user can ask of a blast. */
  datatype BlastCommand = Start | Pause | Resume | Cancel

  /**
   * The status a command moves a blast to, if it applies: the transition table
   * that `StartBlast`, `PauseBlast`, `ResumeBlast` and `CancelBlast` follow.
   */
  function NextStatus(cmd: BlastCommand, from: BlastStatus): (to: Option<BlastStatus>)
    ensures to.Some? ==> to.value in {Active, Paused, Cancelled}
  {
    match cmd
    case Start => if from == Scheduled then Some(Active) else None
    case Pause => if from == Active then Some(Paused) else None
    case Resume => if from == Paused then Some(Active) else None
    case Cancel => if from in {Active, Scheduled, Paused} then Some(Cancelled) else None
  }

  /**
   * Only start and resume make a blast active, from scheduled and paused
   * respectively; a draft, completed, cancelled or failed blast accepts no
   * command.
   */
  lemma NextStatusSpec(cmd: BlastCommand, from: BlastStatus)
    ensures NextStatus(cmd, from) == Some(Active) <==> (cmd == Start && from == Scheduled) || (cmd == Resume && from == Paused)
    ensures from in {Draft, Completed, Cancelled, BlastStatus.Failed} ==> NextStatus(cmd, from).None?
    ensures NextStatus(cmd, from).Some? ==> NextStatus(cmd, from).value != from
  {
  }

  // ---------------------------------------------------------------------
  // Progress
  // ---------------------------------------------------------------------

  datatype BlastProgress = BlastProgress(
    totalTargets: nat,
    pendingCount: nat,
    sentCount: nat,
    failedCount: nat,
    deliveredCount: nat,
    currentBatch: int,
    totalBatches: int,
    progressPercentage: real,
    estimatedMinutes: Option<int>)

  /** Python's `a // b`: the floor of the quotient. */
  function FloorDiv(a: int, b: int): int
    requires b != 0
  {
    if b > 0 then a / b else (-a) / (-b)
  }

  /** `get_blast_progress` for the blast `b` stored under `id`; a zero batch size divides by zero. */
  function Progress(b: Blast, ts: seq<Target>, id: nat): Result<BlastProgress>
  {
    if b.batchSize == 0 then Err("integer division or modulo by zero")
    else
      var total := Count(ts, id, None);
      var pending := Count(ts, id, Some(Pending));
      var sent := Count(ts, id, Some(Sent));
      var failed := Count(ts, id, Some(MessageStatus.Failed));
      var delivered := Count(ts, id, Some(Delivered));
      var processed := sent + failed + delivered;
      var totalBatches := FloorDiv(total + b.batchSize - 1, b.batchSize);
      var currentBatch := FloorDiv(processed, b.batchSize) + 1;
      var eta := if b.status == Active && pending > 0
                 then Some(FloorDiv(pending + b.batchSize - 1, b.batchSize) * b.batchIntervalMinutes)
                 else None;
      Ok(BlastProgress(total, pending, sent, failed, delivered,
                       if currentBatch < totalBatches then currentBatch else totalBatches,
                       totalBatches, Percentage(processed, total), eta))
  }

  /** The share of processed targets, as a percentage. */
  function Percentage(processed: nat, total: nat): (r: real)
  {
    if total > 0 then (processed as real) / (total as real) * 100.0 else 0.0
  }

  lemma PercentageBounds(processed: nat, total: nat)
    requires processed <= total
    ensures 0.0 <= Percentage(processed, total) <= 100.0
    ensures Percentage(processed, total) == 100.0 <==> total > 0 && processed == total
  {
    if total > 0 {
      if processed == total {
        assert (processed as real) / (total as real) == 1.0;
      } else {
        assert (processed as real) / (total as real) < 1.0;
      }
    }
  }

  /** `(n + size - 1) // size` is the number of batches of `size` needed for `n` items. */
  lemma BatchesNeeded(n: nat, size: int)
    requires size >= 1
    ensures FloorDiv(n + size - 1, size) >= 0
    ensures n == 0 ==> FloorDiv(n + size - 1, size) == 0
    ensures n > 0 ==> (FloorDiv(n + size - 1, size) - 1) * size < n <= FloorDiv(n + size - 1, size) * size
  {
    var q := (n + size - 1) / size;
    assert q * size <= n + size - 1 < q * size + size;
  }

  /** With a positive batch size the progress is reported, and the per-status counts add up to the total. */
  lemma ProgressCounts(b: Blast, ts: seq<Target>, id: nat)
    requires b.batchSize >= 1
    ensures Progress(b, ts, id).Ok?
    ensures var p := Progress(b, ts, id).value;
      p.totalTargets == p.pendingCount + p.sentCount + p.failedCount + p.deliveredCount
      && p.totalTargets == Count(ts, id, None) && p.pendingCount == Count(ts, id, Some(Pending))
  {
    CountByStatus(ts, id);
  }

  /**
   * The percentage lies in [0, 100] and is 100 exactly when targets exist
   * and none is pending.
   */
  lemma ProgressPercentage(b: Blast, ts: seq<Target>, id: nat)
    requires b.batchSize >= 1
    ensures Progress(b, ts, id).Ok?
    ensures var p := Progress(b, ts, id).value;
      0.0 <= p.progressPercentage <= 100.0
      && (p.progressPercentage == 100.0 <==> p.totalTargets > 0 && p.pendingCount == 0)
  {
    ProgressCounts(b, ts, id);
    var p := Progress(b, ts, id).value;
    PercentageBounds(p.sentCount + p.failedCount + p.deliveredCount, p.totalTargets);
  }

  /**
   * The batch count is the ceiling of targets over batch size, the current
   * batch never exceeds it, and an estimate exists exactly for an active
   * blast with pending targets.
   */
  lemma ProgressBatches(b: Blast, ts: seq<Target>, id: nat)
    requires b.batchSize >= 1
    ensures Progress(b, ts, id).Ok?
    ensures var p := Progress(b, ts, id).value;
      (p.totalTargets == 0 ==> p.totalBatches == 0)
      && (p.totalTargets > 0 ==> (p.totalBatches - 1) * b.batchSize < p.totalTargets <= p.totalBatches * b.batchSize)
      && p.currentBatch <= p.totalBatches
      && (p.estimatedMinutes.Some? <==> b.status == Active && p.pendingCount > 0)
  {
    ProgressCounts(b, ts, id);
    BatchesNeeded(Count(ts, id, None), b.batchSize);
  }
}
