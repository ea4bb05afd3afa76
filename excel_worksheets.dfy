/**
 * Worksheet rendering in the Excel processor.  A worksheet is an already-read
 * grid of cells (openpyxl) or of values (pandas, read with `header=None`).
 * Rendering writes a title line, an optional "Headers:" line, then one
 * "Row n: ..." line per row that has content, grouped in blocks of 50 rows
 * separated by blank lines.  A workbook's sheets are joined by blank lines.
 */
module ExcelWorksheets {
  import opened Text
  import opened ExcelCells

  const MaxRowsPerChunk: nat := 50
  const EmptyWorksheet: string := "(Empty worksheet)"

  /** An openpyxl worksheet: title, `max_column`, and its rows (`max_row` of them). */
  datatype Worksheet = Worksheet(title: string, maxCol: nat, rows: seq<seq<Cell>>)

  /** A pandas frame read without a header row: its column count and its rows. */
  datatype Frame = Frame(columns: nat, rows: seq<seq<CellValue>>)

  function SheetTitle(number: int, name: string): string
  {
    "=== WORKSHEET " + IntToString(number) + ": " + name + " ==="
  }

  function HeadersLine(headers: seq<string>): string
  {
    "Headers: " + Join(" | ", headers)
  }

  // ---------------------------------------------------------------------
  // Blocks of at most 50 row lines
  // ---------------------------------------------------------------------

  /**
   * The parts the row lines become: every run of 50 lines is one block
   * followed by a blank separator, and a shorter remainder is a last block
   * without separator.
   */
  function BlockParts(lines: seq<string>): (r: seq<string>)
    decreases |lines|
  {
    if lines == [] then []
    else if |lines| < MaxRowsPerChunk then [Join("\n", lines)]
    else [Join("\n", lines[..MaxRowsPerChunk]), ""] + BlockParts(lines[MaxRowsPerChunk..])
  }

  /** n row lines become ceil(n / 50) blocks, each whole block followed by a separator. */
  lemma {:induction false} BlockPartsCount(lines: seq<string>)
    ensures |BlockParts(lines)| == 2 * (|lines| / MaxRowsPerChunk) + if |lines| % MaxRowsPerChunk == 0 then 0 else 1
    decreases |lines|
  {
    if |lines| >= MaxRowsPerChunk {
      BlockPartsCount(lines[MaxRowsPerChunk..]);
    }
  }

  /** Lines that split into whole blocks of 50. */
  predicate WholeBlocks(lines: seq<string>)
    decreases |lines|
  {
    lines == [] || (|lines| >= MaxRowsPerChunk && WholeBlocks(lines[MaxRowsPerChunk..]))
  }

  lemma {:induction false} BlockPartsAppendBlock(done: seq<string>, block: seq<string>)
    requires WholeBlocks(done) && |block| == MaxRowsPerChunk
    ensures WholeBlocks(done + block)
    ensures BlockParts(done + block) == BlockParts(done) + [Join("\n", block), ""]
    decreases |done|
  {
    if done == [] {
      assert done + block == block;
      assert block[MaxRowsPerChunk..] == [];
      assert block[..MaxRowsPerChunk] == block;
    } else {
      var rest := done[MaxRowsPerChunk..];
      BlockPartsAppendBlock(rest, block);
      assert (done + block)[..MaxRowsPerChunk] == done[..MaxRowsPerChunk];
      assert (done + block)[MaxRowsPerChunk..] == rest + block;
    }
  }

  lemma {:induction false} BlockPartsAppendRest(done: seq<string>, rest: seq<string>)
    requires WholeBlocks(done) && |rest| < MaxRowsPerChunk
    ensures BlockParts(done + rest) == BlockParts(done) + if rest != [] then [Join("\n", rest)] else []
    decreases |done|
  {
    if done == [] {
      assert done + rest == rest;
    } else {
      var tail := done[MaxRowsPerChunk..];
      BlockPartsAppendRest(tail, rest);
      assert (done + rest)[..MaxRowsPerChunk] == done[..MaxRowsPerChunk];
      assert (done + rest)[MaxRowsPerChunk..] == tail + rest;
    }
  }

  /**
   * The loop state of a renderer: the lines written so far are `done`, whole
   * blocks already among the parts, followed by the open block `current` of
   * fewer than 50 lines.
   */
  predicate Packed(base: seq<string>, parts: seq<string>, done: seq<string>, current: seq<string>)
  {
    |current| < MaxRowsPerChunk && WholeBlocks(done) && parts == base + BlockParts(done)
  }

  /** The 50th line of a block closes it: the block and a blank separator are written. */
  lemma PackFlush(base: seq<string>, parts: seq<string>, done: seq<string>, current: seq<string>)
    requires WholeBlocks(done) && parts == base + BlockParts(done)
    requires |current| == MaxRowsPerChunk
    ensures Packed(base, parts + [Join("\n", current), ""], done + current, [])
  {
    BlockPartsAppendBlock(done, current);
  }

  /** At the end the open block, if any, is written as the last part. */
  lemma PackFinish(base: seq<string>, parts: seq<string>, done: seq<string>, current: seq<string>)
    requires Packed(base, parts, done, current)
    ensures parts + (if current != [] then [Join("\n", current)] else []) == base + BlockParts(done + current)
  {
    BlockPartsAppendRest(done, current);
  }

  /**
   * The block loop of both renderers: row lines are collected into the open
   * block, which is written out with a blank separator when it reaches 50
   * lines; a last, shorter block is written at the end.
   */
  method PackLines(base: seq<string>, lines: seq<string>) returns (parts: seq<string>)
    ensures parts == base + BlockParts(lines)
  {
    parts := base;
    ghost var done: seq<string> := [];
    var current: seq<string> := [];
    var count := 0;
    for i := 0 to |lines|
      invariant count == |current|
      invariant lines[..i] == done + current
      invariant Packed(base, parts, done, current)
    {
      assert lines[..i + 1] == done + (current + [lines[i]]);
      current := current + [lines[i]];
      count := count + 1;
      if count >= MaxRowsPerChunk {
        PackFlush(base, parts, done, current);
        parts := parts + [Join("\n", current), ""];
        done := done + current;
        current := [];
        count := 0;
        assert done + current == done;
      }
    }
    assert lines[..|lines|] == lines;
    PackFinish(base, parts, done, current);
    if current != [] {
      parts := parts + [Join("\n", current)];
    }
  }

  // ---------------------------------------------------------------------
  // openpyxl rendering
  // ---------------------------------------------------------------------

  /** The rendered content of each cell of a row (`_extract_cell_content`, cell by cell). */
  function RowContents(row: seq<Cell>): seq<string>
  {
    seq(|row|, k requires 0 <= k < |row| => ExtractCellContent(row[k]))
  }

  /** A worksheet whose cells have been rendered to text, one string per cell. */
  datatype Grid = Grid(title: string, maxCol: nat, rows: seq<seq<string>>)

  function Render(ws: Worksheet): Grid
  {
    Grid(ws.title, ws.maxCol, seq(|ws.rows|, i requires 0 <= i < |ws.rows| => RowContents(ws.rows[i])))
  }

  /** The first row as `iter_rows(max_col=max_col)` returns it. */
  function FirstRow(g: Grid): seq<string>
    requires |g.rows| >= 1
  {
    if |g.rows[0]| <= g.maxCol then g.rows[0] else g.rows[0][..g.maxCol]
  }

  /** The label `_detect_headers` gives a cell with this content in column i (0-based). */
  function HeaderLabel(content: string, i: nat): string
  {
    if content != "" then content else "Column_" + NatToString(i + 1)
  }

  function NonEmptyCount(contents: seq<string>): (n: nat)
    ensures n <= |contents|
  {
    if contents == [] then 0
    else NonEmptyCount(contents[..|contents| - 1]) + if contents[|contents| - 1] != "" then 1 else 0
  }

  /** The labels of the first n cells of the first row. */
  function HeaderLabels(first: seq<string>, n: nat): (r: seq<string>)
    requires n <= |first|
    ensures |r| == n
  {
    if n == 0 then [] else HeaderLabels(first, n - 1) + [HeaderLabel(first[n - 1], n - 1)]
  }

  /** `_detect_headers`, as a value. */
  function HeadersOf(g: Grid): Option<seq<string>>
  {
    if |g.rows| < 2 then None
    else
      var first := FirstRow(g);
      if 2 * NonEmptyCount(first) >= g.maxCol then Some(HeaderLabels(first, |first|)) else None
  }

  /** Each label is the cell's content, or "Column_k" (k counted from 1) for an empty cell. */
  lemma {:induction false} HeaderLabelsAt(first: seq<string>, n: nat)
    requires n <= |first|
    ensures forall i :: 0 <= i < n ==>
      (first[i] != "" ==> HeaderLabels(first, n)[i] == first[i])
      && (first[i] == "" ==> HeaderLabels(first, n)[i] == "Column_" + NatToString(i + 1))
  {
    if n > 0 {
      HeaderLabelsAt(first, n - 1);
    }
  }

  /**
   * No headers below two rows; otherwise one label per column of the first
   * row (its content, or "Column_k" when empty), and only when at least half
   * of the `max_column` cells are non-empty.
   */
  lemma HeadersOfShape(g: Grid)
    ensures HeadersOf(g).None? <==> |g.rows| < 2 || 2 * NonEmptyCount(FirstRow(g)) < g.maxCol
    ensures HeadersOf(g).Some? ==> |HeadersOf(g).value| == |FirstRow(g)|
    ensures HeadersOf(g).Some? ==> forall i :: 0 <= i < |FirstRow(g)| ==>
      (FirstRow(g)[i] != "" ==> HeadersOf(g).value[i] == FirstRow(g)[i])
      && (FirstRow(g)[i] == "" ==> HeadersOf(g).value[i] == "Column_" + NatToString(i + 1))
  {
    if |g.rows| >= 2 {
      HeaderLabelsAt(FirstRow(g), |FirstRow(g)|);
    }
  }

  /** `_detect_headers`: one pass over the first row, counting the non-empty cells. */
  method DetectHeaders(g: Grid) returns (headers: Option<seq<string>>)
    ensures headers == HeadersOf(g)
  {
    if |g.rows| < 2 {
      return None;
    }
    var first := FirstRow(g);
    var labels: seq<string> := [];
    var nonEmpty := 0;
    for i := 0 to |first|
      invariant labels == HeaderLabels(first, i)
      invariant nonEmpty == NonEmptyCount(first[..i])
    {
      var value := first[i];
      assert first[..i + 1][..i] == first[..i];
      if value != "" {
        labels := labels + [value];
        nonEmpty := nonEmpty + 1;
      } else {
        labels := labels + ["Column_" + NatToString(|labels| + 1)];
      }
    }
    assert first[..|first|] == first;
    if 2 * nonEmpty >= g.maxCol {
      headers := Some(labels);
    } else {
      headers := None;
    }
  }

  /** `if headers:` — a header list that is present and non-empty. */
  predicate HasHeaders(headers: Option<seq<string>>) { headers.Some? && headers.value != [] }

  /** One cell's entry in its row line: "header: content" under a header, else "B7: content". */
  function OpenpyxlEntry(content: string, col: nat, row: nat, headers: Option<seq<string>>): string
    requires col >= 1
  {
    if HasHeaders(headers) && col <= |headers.value| then headers.value[col - 1] + ": " + content
    else ColumnLetter(col) + IntToString(row) + ": " + content
  }

  /** The entries of the first n cells of a row: one per cell with content, in column order. */
  function OpenpyxlEntries(contents: seq<string>, row: nat, headers: Option<seq<string>>, n: nat): (r: seq<string>)
    requires n <= |contents|
    ensures |r| <= n
  {
    if n == 0 then []
    else
      var content := contents[n - 1];
      OpenpyxlEntries(contents, row, headers, n - 1) + if content != "" then [OpenpyxlEntry(content, n, row, headers)] else []
  }

  /** A row has no entries exactly when none of its cells has content. */
  lemma {:induction false} OpenpyxlEntriesEmpty(contents: seq<string>, row: nat, headers: Option<seq<string>>, n: nat)
    requires n <= |contents|
    ensures OpenpyxlEntries(contents, row, headers, n) == [] <==> forall k :: 0 <= k < n ==> contents[k] == ""
  {
    if n > 0 { OpenpyxlEntriesEmpty(contents, row, headers, n - 1); }
  }

  function RowLine(row: nat, entries: seq<string>): string
  {
    "Row " + IntToString(row) + ": " + Join(" | ", entries)
  }

  /** The row lines of the first n rows (rows numbered from 1, rows without content skipped). */
  function OpenpyxlRowLines(g: Grid, headers: Option<seq<string>>, n: nat): (r: seq<string>)
    requires n <= |g.rows|
    ensures |r| <= n
  {
    if n == 0 then []
    else
      var entries := OpenpyxlEntries(g.rows[n - 1], n, headers, |g.rows[n - 1]|);
      OpenpyxlRowLines(g, headers, n - 1) + if entries != [] then [RowLine(n, entries)] else []
  }

  function HeaderParts(headers: Option<seq<string>>): seq<string>
  {
    if HasHeaders(headers) then [HeadersLine(headers.value), ""] else []
  }

  /** `_extract_worksheet_content_openpyxl`, as the list of parts joined by newlines. */
  function OpenpyxlParts(g: Grid, number: int): seq<string>
  {
    if |g.rows| == 1 && g.maxCol == 1 then [SheetTitle(number, g.title), EmptyWorksheet]
    else
      var headers := HeadersOf(g);
      [SheetTitle(number, g.title)] + HeaderParts(headers) + BlockParts(OpenpyxlRowLines(g, headers, |g.rows|))
  }

  /** The row lines of n + 1 rows extend those of n rows by row n + 1's line, when it has entries. */
  lemma OpenpyxlRowLinesNext(g: Grid, headers: Option<seq<string>>, n: nat, entries: seq<string>)
    requires n < |g.rows|
    requires entries == OpenpyxlEntries(g.rows[n], n + 1, headers, |g.rows[n]|)
    ensures OpenpyxlRowLines(g, headers, n + 1)
      == OpenpyxlRowLines(g, headers, n) + if entries != [] then [RowLine(n + 1, entries)] else []
  {
  }

  /** `_extract_worksheet_content_openpyxl`: title, optional header line, then the packed row lines. */
  method ExtractWorksheetContentOpenpyxl(ws: Worksheet, number: int) returns (text: string)
    ensures text == Join("\n", OpenpyxlParts(Render(ws), number))
  {
    var g := Render(ws);
    var parts := [SheetTitle(number, g.title)];
    if |g.rows| == 1 && g.maxCol == 1 {
      parts := parts + [EmptyWorksheet];
      return Join("\n", parts);
    }
    var headers := DetectHeaders(g);
    if HasHeaders(headers) {
      parts := parts + [HeadersLine(headers.value), ""];
    }
    parts := PackLines(parts, OpenpyxlRowLines(g, headers, |g.rows|));
    text := Join("\n", parts);
  }

  // ---------------------------------------------------------------------
  // pandas rendering
  // ---------------------------------------------------------------------

  /** `_clean_cell_value` on each value of a row. */
  function CleanRow(values: seq<CellValue>): seq<string>
  {
    seq(|values|, k requires 0 <= k < |values| => CleanCellValue(values[k]))
  }

  /** `[str(v) for v in first_row if str(v).strip()]`. */
  function FrameHeaders(values: seq<CellValue>): (r: seq<string>)
    ensures |r| <= |values|
    ensures forall h :: h in r ==> !IsBlank(h)
  {
    if values == [] then []
    else FrameHeaders(values[..|values| - 1]) + if IsBlank(PyStr(values[|values| - 1])) then [] else [PyStr(values[|values| - 1])]
  }

  /** One value's entry: "header: content" under a header, else the bare column letter. */
  function PandasEntry(content: string, col: nat, headers: seq<string>): string
  {
    if headers != [] && col < |headers| then headers[col] + ": " + content
    else ColumnLetter(col + 1) + ": " + content
  }

  function PandasEntries(contents: seq<string>, headers: seq<string>, n: nat): (r: seq<string>)
    requires n <= |contents|
    ensures |r| <= n
  {
    if n == 0 then []
    else
      var content := contents[n - 1];
      PandasEntries(contents, headers, n - 1) + if content != "" then [PandasEntry(content, n - 1, headers)] else []
  }

  /** Row lines of rows [from, n) of the cleaned frame, labelled with their 1-based position. */
  function PandasRowLines(rows: seq<seq<string>>, headers: seq<string>, from: nat, n: nat): (r: seq<string>)
    requires from <= n <= |rows|
    ensures |r| <= n - from
    decreases n
  {
    if n == from then []
    else
      var entries := PandasEntries(rows[n - 1], headers, |rows[n - 1]|);
      PandasRowLines(rows, headers, from, n - 1) + if entries != [] then [RowLine(n, entries)] else []
  }

  function CleanRows(f: Frame): seq<seq<string>>
  {
    seq(|f.rows|, i requires 0 <= i < |f.rows| => CleanRow(f.rows[i]))
  }

  /** Whether the first row is taken as the header row: at least half the columns are non-blank. */
  predicate FirstRowIsHeader(f: Frame)
    requires f.rows != []
  {
    2 * |FrameHeaders(f.rows[0])| >= f.columns
  }

  /**
   * `_extract_worksheet_content_pandas`, as parts.  The header list computed
   * from the first row labels cells even when the first row is not taken as
   * a header row.
   */
  function PandasParts(f: Frame, name: string, number: int): seq<string>
  {
    if f.rows == [] || f.columns == 0 then [SheetTitle(number, name), EmptyWorksheet]
    else
      var headers := FrameHeaders(f.rows[0]);
      var skip := FirstRowIsHeader(f);
      [SheetTitle(number, name)] + (if skip then [HeadersLine(headers), ""] else [])
        + BlockParts(PandasRowLines(CleanRows(f), headers, if skip then 1 else 0, |f.rows|))
  }

  lemma PandasRowLinesNext(rows: seq<seq<string>>, headers: seq<string>, from: nat, n: nat, entries: seq<string>)
    requires from <= n < |rows|
    requires entries == PandasEntries(rows[n], headers, |rows[n]|)
    ensures PandasRowLines(rows, headers, from, n + 1)
      == PandasRowLines(rows, headers, from, n) + if entries != [] then [RowLine(n + 1, entries)] else []
  {
  }

  /** The imperative pandas renderer. */
  method ExtractWorksheetContentPandas(f: Frame, name: string, number: int) returns (text: string)
    ensures text == Join("\n", PandasParts(f, name, number))
  {
    var parts := [SheetTitle(number, name)];
    if f.rows == [] || f.columns == 0 {
      parts := parts + [EmptyWorksheet];
      return Join("\n", parts);
    }
    var rows := CleanRows(f);
    var headers := FrameHeaders(f.rows[0]);
    var from := 0;
    if 2 * |headers| >= f.columns {
      parts := parts + [HeadersLine(headers), ""];
      from := 1;
    }
    parts := PackLines(parts, PandasRowLines(rows, headers, from, |rows|));
    text := Join("\n", parts);
  }

  // ---------------------------------------------------------------------
  // Properties of the rendering
  // ---------------------------------------------------------------------

  /** Every rendered sheet opens with its "=== WORKSHEET n: name ===" line, so it is never blank. */
  lemma OpenpyxlTitleFirst(g: Grid, number: int)
    ensures StartsWith(Join("\n", OpenpyxlParts(g, number)), SheetTitle(number, g.title))
    ensures !IsBlank(Join("\n", OpenpyxlParts(g, number)))
  {
    var parts := OpenpyxlParts(g, number);
    JoinFirst("\n", parts);
    var text := Join("\n", parts);
    assert text[0] == SheetTitle(number, g.title)[0] == '=';
  }

  /** A 1x1 sheet renders as the empty-worksheet marker whatever its one cell holds. */
  lemma OneByOneIsEmpty(ws: Worksheet, number: int)
    requires |ws.rows| == 1 && ws.maxCol == 1
    ensures Join("\n", OpenpyxlParts(Render(ws), number)) == SheetTitle(number, ws.title) + "\n" + EmptyWorksheet
  {
  }

  predicate RowHasContent(contents: seq<string>)
  {
    exists k :: 0 <= k < |contents| && contents[k] != ""
  }

  /** The positions among the first n rows of rows that have some content. */
  function ContentRows(g: Grid, n: nat): set<nat>
    requires n <= |g.rows|
  {
    set i: nat | i < n && RowHasContent(g.rows[i])
  }

  lemma ContentRowsStep(g: Grid, n: nat)
    requires 0 < n <= |g.rows|
    ensures |ContentRows(g, n)| == |ContentRows(g, n - 1)| + if RowHasContent(g.rows[n - 1]) then 1 else 0
  {
    var extra: set<nat> := if RowHasContent(g.rows[n - 1]) then {n - 1} else {};
    assert ContentRows(g, n) == ContentRows(g, n - 1) + extra;
    assert n - 1 !in ContentRows(g, n - 1);
  }

  /** Row n gets a line exactly when it has content. */
  lemma OpenpyxlRowLinesStep(g: Grid, headers: Option<seq<string>>, n: nat)
    requires 0 < n <= |g.rows|
    ensures |OpenpyxlRowLines(g, headers, n)|
      == |OpenpyxlRowLines(g, headers, n - 1)| + if RowHasContent(g.rows[n - 1]) then 1 else 0
  {
    var row := g.rows[n - 1];
    OpenpyxlEntriesEmpty(row, n, headers, |row|);
    OpenpyxlRowLinesNext(g, headers, n - 1, OpenpyxlEntries(row, n, headers, |row|));
  }

  /** Exactly the rows with at least one non-empty cell get a row line. */
  lemma {:induction false} OpenpyxlRowLinesCount(g: Grid, headers: Option<seq<string>>, n: nat)
    requires n <= |g.rows|
    ensures |OpenpyxlRowLines(g, headers, n)| == |ContentRows(g, n)|
  {
    if n > 0 {
      var extra := if RowHasContent(g.rows[n - 1]) then 1 else 0;
      assert |OpenpyxlRowLines(g, headers, n - 1)| == |ContentRows(g, n - 1)| by {
        OpenpyxlRowLinesCount(g, headers, n - 1);
      }
      assert |OpenpyxlRowLines(g, headers, n)| == |OpenpyxlRowLines(g, headers, n - 1)| + extra by {
        OpenpyxlRowLinesStep(g, headers, n);
      }
      assert |ContentRows(g, n)| == |ContentRows(g, n - 1)| + extra by {
        ContentRowsStep(g, n);
      }
    }
  }

  /** `_process_xlsx_file`: every sheet, numbered from 1, joined by blank lines. */
  function WorkbookText(sheets: seq<Worksheet>): string
  {
    Join("\n\n", seq(|sheets|, i requires 0 <= i < |sheets| => Join("\n", OpenpyxlParts(Render(sheets[i]), i + 1))))
  }

  /** The blank-sheet filter of `_process_xlsx_file` never drops a sheet: each opens with its title. */
  lemma NoSheetIsDropped(sheets: seq<Worksheet>)
    ensures forall i :: 0 <= i < |sheets| ==> !IsBlank(Join("\n", OpenpyxlParts(Render(sheets[i]), i + 1)))
  {
    forall i | 0 <= i < |sheets| ensures !IsBlank(Join("\n", OpenpyxlParts(Render(sheets[i]), i + 1))) {
      OpenpyxlTitleFirst(Render(sheets[i]), i + 1);
    }
  }

  // ---------------------------------------------------------------------
  // validate_excel_file
  // ---------------------------------------------------------------------

  /** What opening the workbook gave: its sheet count, or the library's error message. */
  datatype OpenOutcome = Opened(sheetCount: nat) | OpenFailed(message: string)

  predicate IsExcelName(fileName: string)
  {
    EndsWith(Lower(fileName), ".xlsx") || EndsWith(Lower(fileName), ".xls")
  }

  /** `validate_excel_file`: the extension is checked before the workbook is opened. */
  function ValidateExcelFile(fileName: string, outcome: OpenOutcome): (r: (bool, string))
    ensures !IsExcelName(fileName) ==> r == (false, "File must be an Excel file (.xlsx or .xls)")
    ensures r.0 <==> IsExcelName(fileName) && outcome.Opened? && outcome.sheetCount > 0
    ensures r.0 ==> r.1 == ""
    ensures !r.0 ==> r.1 != ""
  {
    if !IsExcelName(fileName) then (false, "File must be an Excel file (.xlsx or .xls)")
    else match outcome
      case Opened(n) => if n == 0 then (false, "Excel file contains no worksheets") else (true, "")
      case OpenFailed(msg) =>
        if Contains(Lower(msg), "password") then (false, "Password-protected Excel files are not supported")
        else (false, "Invalid or corrupted Excel file: " + msg)
  }
}
