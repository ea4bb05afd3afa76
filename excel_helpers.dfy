/**
 * The spreadsheet helpers: a natural-language rendering of a table, the
 * re-ranking of spreadsheet chunks against a query, the detection of data
 * kinds in rendered content, the query enrichment that follows from it, and
 * the upload checks on an Excel file's name and size.
 */
module ExcelHelpers {
  import opened Text
  import opened Ranking
  import opened ExcelCells
  import opened ExcelWorksheets

  // ---------------------------------------------------------------------
  // format_table_for_ai
  // ---------------------------------------------------------------------

  /** A value that is neither empty nor only white space. */
  predicate Filled(value: string)
  {
    value != "" && Strip(value) != ""
  }

  /** The "header is value" phrases of the first `n` columns whose value is not blank. */
  function RowPhrases(headers: seq<string>, row: seq<string>, n: nat): (r: seq<string>)
    requires n <= |headers| && n <= |row|
    ensures |r| <= n
  {
    if n == 0 then []
    else
      RowPhrases(headers, row, n - 1)
      + if Filled(row[n - 1]) then [headers[n - 1] + " is " + row[n - 1]] else []
  }

  /** The line for the row numbered `index`, when the row has one value per header and some of them is not blank. */
  function RowDescription(headers: seq<string>, row: seq<string>, index: nat): Option<string>
  {
    if |row| != |headers| then None
    else
      var phrases := RowPhrases(headers, row, |headers|);
      if phrases == [] then None else Some("Row " + NatToString(index) + ": " + Join(", ", phrases))
  }

  /** The line of the row at position `j`, numbered from 1 among all rows, skipped ones included. */
  function RowLine(headers: seq<string>, rows: seq<seq<string>>, j: nat): Option<string>
    requires j < |rows|
  {
    RowDescription(headers, rows[j], j + 1)
  }

  /** The row lines of the first `n` rows. */
  function TableRowLines(headers: seq<string>, rows: seq<seq<string>>, n: nat): (r: seq<string>)
    requires n <= |rows|
    ensures |r| <= n
  {
    if n == 0 then []
    else
      TableRowLines(headers, rows, n - 1)
      + match RowLine(headers, rows, n - 1) case None => [] case Some(line) => [line]
  }

  function TitleLine(tableName: string): string { "=== " + tableName + " ===" }

  function SizeLine(headers: seq<string>, rows: seq<seq<string>>): string
  {
    "This table contains " + NatToString(|rows|) + " rows and " + NatToString(|headers|) + " columns."
  }

  function ColumnsLine(headers: seq<string>): string { "Columns: " + Join(", ", headers) }

  /** The four opening lines: the name, the size of the table, the columns, and a blank line. */
  function TableHeading(headers: seq<string>, rows: seq<seq<string>>, tableName: string): seq<string>
  {
    [TitleLine(tableName), SizeLine(headers, rows), ColumnsLine(headers), ""]
  }

  function FormatTable(headers: seq<string>, rows: seq<seq<string>>, tableName: string): string
  {
    if headers == [] || rows == [] then ""
    else Join("\n", TableHeading(headers, rows, tableName) + TableRowLines(headers, rows, |rows|))
  }

  /** The phrases of one well-formed row, column by column. */
  method DescribeRow(headers: seq<string>, row: seq<string>) returns (rowParts: seq<string>)
    requires |row| == |headers|
    ensures rowParts == RowPhrases(headers, row, |headers|)
  {
    rowParts := [];
    for k := 0 to |headers|
      invariant rowParts == RowPhrases(headers, row, k)
    {
      var value := row[k];
      if value != "" && Strip(value) != "" {
        rowParts := rowParts + [headers[k] + " is " + value];
      }
    }
  }

  /** `format_table_for_ai`. */
  method FormatTableForAI(headers: seq<string>, rows: seq<seq<string>>, tableName: string) returns (text: string)
    ensures text == FormatTable(headers, rows, tableName)
  {
    if headers == [] || rows == [] {
      return "";
    }
    var formattedParts := [];
    formattedParts := formattedParts + [TitleLine(tableName)];
    formattedParts := formattedParts + [SizeLine(headers, rows)];
    formattedParts := formattedParts + [ColumnsLine(headers)];
    formattedParts := formattedParts + [""];
    for rowIdx := 1 to |rows| + 1
      invariant formattedParts == TableHeading(headers, rows, tableName) + TableRowLines(headers, rows, rowIdx - 1)
    {
      var row := rows[rowIdx - 1];
      if |row| != |headers| {
        continue;
      }
      var rowDescription := "Row " + NatToString(rowIdx) + ": ";
      var rowParts := DescribeRow(headers, row);
      if rowParts != [] {
        rowDescription := rowDescription + Join(", ", rowParts);
        formattedParts := formattedParts + [rowDescription];
      }
    }
    text := Join("\n", formattedParts);
  }

  /** A row has phrases exactly when one of its first `n` values is not blank. */
  lemma {:induction false} RowPhrasesEmpty(headers: seq<string>, row: seq<string>, n: nat)
    requires n <= |headers| && n <= |row|
    ensures RowPhrases(headers, row, n) == [] <==> forall k :: 0 <= k < n ==> IsBlank(row[k])
  {
    if n > 0 {
      RowPhrasesEmpty(headers, row, n - 1);
    }
  }

  /**
   * A row gets a line exactly when it has one value per header and some
   * value is not blank; the line opens with the row's own number.
   */
  lemma RowDescriptionSpec(headers: seq<string>, row: seq<string>, index: nat)
    ensures RowDescription(headers, row, index).Some?
            <==> |row| == |headers| && exists k :: 0 <= k < |row| && !IsBlank(row[k])
    ensures RowDescription(headers, row, index).Some?
            ==> StartsWith(RowDescription(headers, row, index).value, "Row " + NatToString(index) + ": ")
  {
    if |row| == |headers| {
      RowPhrasesEmpty(headers, row, |headers|);
    }
  }

  /**
   * The row lines are exactly the lines of the rows that get one, each
   * numbered by the row's position among all rows, skipped ones included.
   */
  lemma {:induction false} TableRowLinesSpec(headers: seq<string>, rows: seq<seq<string>>, n: nat)
    requires n <= |rows|
    ensures forall line :: line in TableRowLines(headers, rows, n)
              ==> exists j :: 0 <= j < n && RowLine(headers, rows, j) == Some(line)
    ensures forall j :: 0 <= j < n && RowLine(headers, rows, j).Some?
              ==> RowLine(headers, rows, j).value in TableRowLines(headers, rows, n)
  {
    if n > 0 {
      TableRowLinesSpec(headers, rows, n - 1);
      var prev := TableRowLines(headers, rows, n - 1);
      var last := RowLine(headers, rows, n - 1);
      var lines := TableRowLines(headers, rows, n);
      assert lines == prev + match last case None => [] case Some(line) => [line];
      forall line | line in lines
        ensures exists j :: 0 <= j < n && RowLine(headers, rows, j) == Some(line)
      {
        if line !in prev {
          assert last == Some(line);
        }
      }
      forall j | 0 <= j < n && RowLine(headers, rows, j).Some?
        ensures RowLine(headers, rows, j).value in lines
      {
        if j < n - 1 {
          assert RowLine(headers, rows, j).value in prev;
        } else {
          assert lines == prev + [last.value];
        }
      }
    }
  }

  /** A join of three or more lines opens with the first three, each followed by the separator. */
  lemma JoinOpening(sep: string, a: string, b: string, c: string, rest: seq<string>)
    requires rest != []
    ensures Join(sep, [a, b, c] + rest) == a + sep + b + sep + c + sep + Join(sep, rest)
  {
    var all := [a, b, c] + rest;
    var j := Join(sep, rest);
    assert all[1..] == [b, c] + rest;
    assert all[1..][1..] == [c] + rest;
    assert all[1..][1..][1..] == rest;
    assert Join(sep, all[1..][1..]) == c + sep + j;
    assert Join(sep, all[1..]) == b + sep + (c + sep + j);
    assert Join(sep, all) == a + sep + (b + sep + (c + sep + j));
  }

  /**
   * No table gives the empty text; a table opens with its name, its row
   * count (skipped rows included), its column count and its columns, then a
   * blank line.
   */
  lemma FormatTableOpening(headers: seq<string>, rows: seq<seq<string>>, tableName: string)
    ensures FormatTable(headers, rows, tableName) == "" <==> headers == [] || rows == []
    ensures headers != [] && rows != [] ==>
      StartsWith(FormatTable(headers, rows, tableName),
        TitleLine(tableName) + "\n" + SizeLine(headers, rows) + "\n" + ColumnsLine(headers) + "\n")
  {
    if headers != [] && rows != [] {
      var a, b, c := TitleLine(tableName), SizeLine(headers, rows), ColumnsLine(headers);
      var rest := [""] + TableRowLines(headers, rows, |rows|);
      assert TableHeading(headers, rows, tableName) + TableRowLines(headers, rows, |rows|) == [a, b, c] + rest;
      JoinOpening("\n", a, b, c, rest);
      var opening := a + "\n" + b + "\n" + c + "\n";
      assert FormatTable(headers, rows, tableName) == opening + Join("\n", rest);
      assert |a| > 0;
    }
  }

  // ---------------------------------------------------------------------
  // rank_excel_chunks
  // ---------------------------------------------------------------------

  /** The metadata a chunk dictionary carries; a missing key reads as false, "" or 0. */
  datatype ChunkMetadata = ChunkMetadata(hasHeaders: bool, worksheetInfo: string, rowCount: int)

  /** A chunk dictionary: its content, its metadata, and the relevance written into it, if any. */
  datatype ExcelChunk = ExcelChunk(content: string, metadata: ChunkMetadata, excelRelevance: Option<real>)

  /** Some word of the (lower-cased) query occurs in `text`. */
  predicate SomeWordIn(queryLower: string, text: string)
  {
    exists k :: 0 <= k < |Words(queryLower)| && Contains(text, Words(queryLower)[k])
  }

  /** A chunk's relevance: 0.3 for headers and a query word in the content, 0.2 for a query word in the worksheet name, 0.1 for more than three rows. */
  function ChunkRelevance(c: ExcelChunk, queryLower: string): (r: real)
    ensures 0.0 <= r <= 0.6
  {
    (if c.metadata.hasHeaders && SomeWordIn(queryLower, Lower(c.content)) then 0.3 else 0.0)
    + (if SomeWordIn(queryLower, Lower(c.metadata.worksheetInfo)) then 0.2 else 0.0)
    + (if c.metadata.rowCount > 3 then 0.1 else 0.0)
  }

  /** The chunk with its relevance written in. */
  function WithRelevance(c: ExcelChunk, queryLower: string): ExcelChunk
  {
    c.(excelRelevance := Some(ChunkRelevance(c, queryLower)))
  }

  /** The sort key: the written relevance, 0 when there is none. */
  function RelevanceKey(c: ExcelChunk): real
  {
    match c.excelRelevance case None => 0.0 case Some(r) => r
  }

  /** The relevance of one chunk, boost by boost. */
  method ScoreChunk(chunk: ExcelChunk, queryLower: string) returns (relevance: real)
    ensures relevance == ChunkRelevance(chunk, queryLower)
  {
    relevance := 0.0;
    if chunk.metadata.hasHeaders && SomeWordIn(queryLower, Lower(chunk.content)) {
      relevance := relevance + 0.3;
    }
    if SomeWordIn(queryLower, Lower(chunk.metadata.worksheetInfo)) {
      relevance := relevance + 0.2;
    }
    if chunk.metadata.rowCount > 3 {
      relevance := relevance + 0.1;
    }
  }

  /** `rank_excel_chunks`: write each chunk's relevance in place, then sort by it, highest first. */
  method RankExcelChunks(chunks: array<ExcelChunk>, query: string) returns (ranked: seq<ExcelChunk>)
    modifies chunks
    ensures forall i :: 0 <= i < chunks.Length ==> chunks[i] == WithRelevance(old(chunks[i]), Lower(query))
    ensures ranked == SortDesc(chunks[..], RelevanceKey)
  {
    var queryLower := Lower(query);
    for i := 0 to chunks.Length
      invariant forall k :: 0 <= k < i ==> chunks[k] == WithRelevance(old(chunks[k]), queryLower)
      invariant forall k :: i <= k < chunks.Length ==> chunks[k] == old(chunks[k])
    {
      var chunk := chunks[i];
      var relevance := ScoreChunk(chunk, queryLower);
      chunks[i] := chunk.(excelRelevance := Some(relevance));
    }
    ranked := SortDesc(chunks[..], RelevanceKey);
  }

  /** A blank query matches no word: only the row count can raise the relevance. */
  lemma BlankQueryRanksByRows(c: ExcelChunk, query: string)
    requires IsBlank(Lower(query))
    ensures ChunkRelevance(c, Lower(query)) == if c.metadata.rowCount > 3 then 0.1 else 0.0
  {
    WordsBlank(Lower(query));
  }

  /**
   * The ranking is the chunks with their relevance written in, each once,
   * highest relevance first, every relevance between 0 and 0.6; the
   * contents and metadata are untouched.
   */
  lemma RankedChunksSpec(original: seq<ExcelChunk>, scored: seq<ExcelChunk>, queryLower: string)
    requires |scored| == |original|
    requires forall i :: 0 <= i < |original| ==> scored[i] == WithRelevance(original[i], queryLower)
    ensures multiset(SortDesc(scored, RelevanceKey)) == multiset(scored)
    ensures SortedDesc(SortDesc(scored, RelevanceKey), RelevanceKey)
    ensures forall x :: x in SortDesc(scored, RelevanceKey) ==>
      0.0 <= RelevanceKey(x) <= 0.6
      && exists i :: 0 <= i < |original| && x.content == original[i].content && x.metadata == original[i].metadata
  {
    var ranked := SortDesc(scored, RelevanceKey);
    SortDescSorted(scored, RelevanceKey);
    forall x | x in ranked
      ensures 0.0 <= RelevanceKey(x) <= 0.6
      ensures exists i :: 0 <= i < |original| && x.content == original[i].content && x.metadata == original[i].metadata
    {
      assert x in multiset(scored);
      var i :| 0 <= i < |scored| && scored[i] == x;
    }
  }

  // ---------------------------------------------------------------------
  // detect_data_types
  // ---------------------------------------------------------------------

  /** What the content analysis reports; the pattern list is always empty. */
  datatype DataAnalysis = DataAnalysis(
    hasNumericalData: bool,
    hasDates: bool,
    hasFormulas: bool,
    hasHeaders: bool,
    estimatedTableCount: nat,
    dataPatterns: seq<string>)

  /** The regular-expression word characters, on ASCII. */
  predicate IsWordChar(c: char) { IsAlnum(c) || c == '_' }

  predicate AllDigits(s: string, i: nat, j: nat)
    requires i <= j <= |s|
  {
    forall k :: i <= k < j ==> IsDigit(s[k])
  }

  /** `s[i..j]` is a match of `\b\d+\.?\d*\b`: digits, an optional point and digits, between word boundaries. */
  predicate NumberAt(s: string, i: nat, j: nat)
    requires i < j <= |s|
  {
    (i == 0 || !IsWordChar(s[i - 1]))
    && (exists m | i < m <= j :: AllDigits(s, i, m) && (m == j || (s[m] == '.' && AllDigits(s, m + 1, j))))
    && (IsWordChar(s[j - 1]) != (j < |s| && IsWordChar(s[j])))
  }

  predicate HasNumber(s: string)
  {
    exists i, j | 0 <= i < j <= |s| :: NumberAt(s, i, j)
  }

  /** The three date shapes searched for; `d` stands for a digit. */
  const DateShapes: seq<string> := ["dddd-dd-dd", "dd/dd/dddd", "dd-dd-dddd"]

  /** `s` matches `shape` at `i`. */
  predicate ShapeAt(s: string, i: nat, shape: string)
  {
    i + |shape| <= |s|
    && forall k :: 0 <= k < |shape| ==> if shape[k] == 'd' then IsDigit(s[i + k]) else s[i + k] == shape[k]
  }

  predicate HasDate(s: string)
  {
    exists i, p | 0 <= i <= |s| && 0 <= p < |DateShapes| :: ShapeAt(s, i, DateShapes[p])
  }

  /** The number of digits starting at `i`. */
  function DigitRun(s: string, i: nat): (n: nat)
    requires i <= |s|
    ensures i + n <= |s|
    ensures forall k :: i <= k < i + n ==> IsDigit(s[k])
    ensures i + n < |s| ==> !IsDigit(s[i + n])
    decreases |s| - i
  {
    if i < |s| && IsDigit(s[i]) then 1 + DigitRun(s, i + 1) else 0
  }

  const WorksheetWord: string := "WORKSHEET "

  /** A match of `WORKSHEET \d+:` starts at `i`. */
  predicate MarkerAt(s: string, i: nat)
  {
    OccursAt(s, WorksheetWord, i)
    && var n := DigitRun(s, i + |WorksheetWord|);
       n >= 1 && i + |WorksheetWord| + n < |s| && s[i + |WorksheetWord| + n] == ':'
  }

  /**
   * The number of matches starting before `n`.  "WORKSHEET " has its only
   * "W" in front, so two matches never overlap and this is also the count
   * of non-overlapping matches.
   */
  function MarkerCount(s: string, n: nat): (r: nat)
    requires n <= |s|
    ensures r <= n
  {
    if n == 0 then 0 else MarkerCount(s, n - 1) + if MarkerAt(s, n - 1) then 1 else 0
  }

  /** The analysis with formulas reported only where a cell formula is written out. */
  function DetectDataTypes(content: string): DataAnalysis
  {
    DataAnalysis(
      HasNumber(content),
      HasDate(content),
      Contains(content, "Formula:"),
      Contains(content, "Headers:"),
      MarkerCount(content, |content|),
      [])
  }

  /** The formula check as written: a formula marker or any `=`. */
  function DetectDataTypesAsWritten(content: string): DataAnalysis
  {
    DetectDataTypes(content).(hasFormulas := Contains(content, "Formula:") || '=' in content)
  }

  /** A number needs a digit, and a non-empty run of digits alone is a number. */
  lemma NumberSpec(s: string)
    ensures HasNumber(s) ==> exists k :: 0 <= k < |s| && IsDigit(s[k])
    ensures s != [] && AllDigits(s, 0, |s|) ==> HasNumber(s)
  {
    if HasNumber(s) {
      var i, j :| 0 <= i < j <= |s| && NumberAt(s, i, j);
      var m :| i < m <= j && AllDigits(s, i, m) && (m == j || (s[m] == '.' && AllDigits(s, m + 1, j)));
      assert IsDigit(s[i]);
    }
    if s != [] && AllDigits(s, 0, |s|) {
      assert NumberAt(s, 0, |s|);
    }
  }

  lemma {:induction false} PadDigits(n: nat, width: nat)
    ensures forall k :: 0 <= k < |Pad(n, width)| ==> IsDigit(Pad(n, width)[k])
    decreases width
  {
    if |NatToString(n)| < width {
      PadDigits(n, width - 1);
      assert Pad(n, width) == "0" + Pad(n, width - 1);
    }
  }

  predicate DigitsOfLength(s: string, n: nat)
  {
    |s| == n && forall k :: 0 <= k < n ==> IsDigit(s[k])
  }

  /** Four digits, a dash, two digits, a dash and two digits, whatever follows, has the first date shape. */
  lemma IsoDateShape(y: string, mo: string, da: string, rest: string)
    requires DigitsOfLength(y, 4) && DigitsOfLength(mo, 2) && DigitsOfLength(da, 2)
    ensures ShapeAt(y + "-" + mo + "-" + da + rest, 0, "dddd-dd-dd")
  {
    var s := y + "-" + mo + "-" + da + rest;
    var shape := "dddd-dd-dd";
    forall k | 0 <= k < |shape| ensures if shape[k] == 'd' then IsDigit(s[k]) else s[k] == shape[k] {
      if k < 4 { assert s[k] == y[k]; }
      else if k == 4 { assert s[k] == '-'; }
      else if k < 7 { assert s[k] == mo[k - 5]; }
      else if k == 7 { assert s[k] == '-'; }
      else { assert s[k] == da[k - 8]; }
    }
  }

  lemma PadDigitsOfLength(n: nat, width: nat)
    requires width >= 1 && n < Pow10(width)
    ensures DigitsOfLength(Pad(n, width), width)
  {
    NatToStringShort(n, width);
    PadExact(n, width);
    PadDigits(n, width);
  }

  /** A date the cell renderer writes is recognised as a date. */
  lemma RenderedDatesAreDates(d: DateTime)
    requires 1 <= d.year <= 9999 && 1 <= d.month <= 12 && 1 <= d.day <= 31
    requires d.hour < 24 && d.minute < 60 && d.second < 60
    ensures HasDate(FormatDateTime(d))
  {
    assert Pow10(2) == 100 && Pow10(4) == 10000;
    PadDigitsOfLength(d.year, 4);
    PadDigitsOfLength(d.month, 2);
    PadDigitsOfLength(d.day, 2);
    var y, mo, da := Pad(d.year, 4), Pad(d.month, 2), Pad(d.day, 2);
    var rest := " " + Pad(d.hour, 2) + ":" + Pad(d.minute, 2) + ":" + Pad(d.second, 2);
    assert FormatDateTime(d) == y + "-" + mo + "-" + da + rest;
    IsoDateShape(y, mo, da, rest);
    assert DateShapes[0] == "dddd-dd-dd";
  }

  lemma {:induction false} DigitRunOf(s: string, i: nat, n: nat)
    requires i + n < |s|
    requires forall k :: i <= k < i + n ==> IsDigit(s[k])
    requires !IsDigit(s[i + n])
    ensures DigitRun(s, i) == n
    decreases n
  {
    if n > 0 {
      DigitRunOf(s, i + 1, n - 1);
    }
  }

  lemma {:induction false} MarkerCountAtLeast(s: string, n: nat, i: nat)
    requires i < n <= |s|
    requires MarkerAt(s, i)
    ensures MarkerCount(s, n) >= 1
    decreases n
  {
    if i < n - 1 {
      MarkerCountAtLeast(s, n - 1, i);
    }
  }

  /** A worksheet title the renderer writes counts as a table. */
  lemma SheetTitleIsCounted(number: nat, name: string)
    ensures DetectDataTypes(SheetTitle(number, name)).estimatedTableCount >= 1
  {
    var s := SheetTitle(number, name);
    var digits := NatToString(number);
    assert s == "=== " + WorksheetWord + digits + ": " + name + " ===";
    assert s[4..14] == WorksheetWord;
    forall k | 14 <= k < 14 + |digits| ensures IsDigit(s[k]) {
      assert s[k] == digits[k - 14];
    }
    assert s[14 + |digits|] == ':';
    DigitRunOf(s, 14, |digits|);
    assert MarkerAt(s, 4);
    MarkerCountAtLeast(s, |s|, 4);
  }

  /** Headers are reported exactly when the "Headers:" line marker occurs; formulas exactly when a formula is written out. */
  lemma DetectDataTypesSpec(content: string)
    ensures DetectDataTypes(content).hasHeaders <==> Contains(content, "Headers:")
    ensures DetectDataTypes(content).hasFormulas <==> Contains(content, "Formula:")
    ensures DetectDataTypes(content).estimatedTableCount == 0 <==> forall i :: 0 <= i < |content| ==> !MarkerAt(content, i)
    ensures DetectDataTypes(content).dataPatterns == []
  {
    MarkerCountZero(content, |content|);
  }

  lemma {:induction false} MarkerCountZero(s: string, n: nat)
    requires n <= |s|
    ensures MarkerCount(s, n) == 0 <==> forall i :: 0 <= i < n ==> !MarkerAt(s, i)
  {
    if n > 0 {
      MarkerCountZero(s, n - 1);
    }
  }

  /** Content without a capital F holds no formula marker. */
  lemma NoFormulaMarker(s: string)
    requires forall i :: 0 <= i < |s| ==> s[i] != 'F'
    ensures !Contains(s, "Formula:")
  {
    forall i: nat | i <= |s| ensures !OccursAt(s, "Formula:", i) {
      if i + 8 <= |s| {
        assert s[i..i + 8][0] == s[i] != 'F' == "Formula:"[0];
      }
    }
  }

  /**
   * As written, every rendered worksheet reports formulas, because its
   * title line is framed by `=`; a bare title with no formula in it shows it.
   */
  lemma FormulasAsWrittenOnEveryWorksheet(number: int, name: string, rest: string)
    ensures DetectDataTypesAsWritten(SheetTitle(number, name) + rest).hasFormulas
    ensures DetectDataTypesAsWritten("=== WORKSHEET 1: A ===").hasFormulas
    ensures !DetectDataTypes("=== WORKSHEET 1: A ===").hasFormulas
  {
    var s := SheetTitle(number, name) + rest;
    assert s[0] == '=';
    var t := "=== WORKSHEET 1: A ===";
    assert t[0] == '=';
    NoFormulaMarker(t);
  }

  // ---------------------------------------------------------------------
  // enhance_excel_query
  // ---------------------------------------------------------------------

  const NumericalHint: string := " numerical data values"
  const DateHint: string := " date information"
  const HeaderHint: string := " table headers columns"

  function AddHint(query: string, flag: bool, hint: string): string
  {
    if flag then query + hint else query
  }

  function EnhancedQuery(query: string, analysis: DataAnalysis): string
  {
    AddHint(AddHint(AddHint(query, analysis.hasNumericalData, NumericalHint), analysis.hasDates, DateHint),
            analysis.hasHeaders, HeaderHint)
  }

  /** `enhance_excel_query`. */
  method EnhanceExcelQuery(query: string, analysis: DataAnalysis) returns (enhanced: string)
    ensures enhanced == EnhancedQuery(query, analysis)
  {
    enhanced := query;
    if analysis.hasNumericalData {
      enhanced := enhanced + NumericalHint;
    }
    if analysis.hasDates {
      enhanced := enhanced + DateHint;
    }
    if analysis.hasHeaders {
      enhanced := enhanced + HeaderHint;
    }
  }

  /**
   * The enriched query is the query followed by the hints of the flags that
   * are set, in the order numbers, dates, headers; it is the query itself
   * exactly when no flag is set.
   */
  lemma EnhancedQuerySpec(query: string, analysis: DataAnalysis)
    ensures StartsWith(EnhancedQuery(query, analysis), query)
    ensures EnhancedQuery(query, analysis)[|query|..]
      == (if analysis.hasNumericalData then NumericalHint else "")
         + (if analysis.hasDates then DateHint else "")
         + (if analysis.hasHeaders then HeaderHint else "")
    ensures EnhancedQuery(query, analysis) == query
            <==> !analysis.hasNumericalData && !analysis.hasDates && !analysis.hasHeaders
  {
    HintsAppended(query, analysis.hasNumericalData, NumericalHint, analysis.hasDates, DateHint,
                  analysis.hasHeaders, HeaderHint);
    assert |NumericalHint| > 0 && |DateHint| > 0 && |HeaderHint| > 0;
  }

  lemma HintsAppended(query: string, f1: bool, h1: string, f2: bool, h2: string, f3: bool, h3: string)
    ensures AddHint(AddHint(AddHint(query, f1, h1), f2, h2), f3, h3)
            == query + ((if f1 then h1 else "") + (if f2 then h2 else "") + (if f3 then h3 else ""))
  {
    var a, b, c := if f1 then h1 else "", if f2 then h2 else "", if f3 then h3 else "";
    assert AddHint(query, f1, h1) == query + a;
    assert AddHint(query + a, f2, h2) == query + (a + b);
    assert AddHint(query + (a + b), f3, h3) == query + (a + b + c);
  }

  // ---------------------------------------------------------------------
  // get_excel_file_info and validate_excel_upload
  // ---------------------------------------------------------------------

  const MiB: int := 1024 * 1024
  const MaxExcelSize: int := 15 * MiB

  datatype ExcelFileInfo = ExcelFileInfo(isExcel: bool, excelType: Option<string>, estimatedProcessingTime: int, requiresSpecialHandling: bool)

  lemma XlsxIsNotXls(s: string)
    ensures !(EndsWith(s, ".xlsx") && EndsWith(s, ".xls"))
  {
    if EndsWith(s, ".xlsx") {
      assert s[|s| - 5..][4] == s[|s| - 1] == 'x';
      assert s[|s| - 4..][3] == s[|s| - 1];
    }
  }

  /** The type named by the lower-cased suffix, if it is an Excel one. */
  function ExcelType(fileName: string): (t: Option<string>)
    ensures t == Some("xlsx") <==> EndsWith(Lower(fileName), ".xlsx")
    ensures t == Some("xls") <==> EndsWith(Lower(fileName), ".xls")
    ensures t.Some? <==> IsExcelName(fileName)
  {
    var lower := Lower(fileName);
    XlsxIsNotXls(lower);
    if EndsWith(lower, ".xlsx") then Some("xlsx") else if EndsWith(lower, ".xls") then Some("xls") else None
  }

  /** Two seconds per whole MiB (rounded down), never under five. */
  function ProcessingTime(fileSize: int): (t: int)
    ensures t >= 5
    ensures fileSize >= 3 * MiB ==> t == (fileSize / MiB) * 2
  {
    var estimate := (fileSize / MiB) * 2;
    if 5 > estimate then 5 else estimate
  }

  /** `get_excel_file_info`. */
  function GetExcelFileInfo(fileName: string, fileSize: int): (r: ExcelFileInfo)
    ensures r.isExcel <==> r.excelType.Some?
    ensures r.excelType.Some? ==> r.excelType.value in {"xlsx", "xls"}
    ensures r.estimatedProcessingTime >= 5
    ensures r.requiresSpecialHandling
  {
    ExcelFileInfo(IsExcelName(fileName), ExcelType(fileName), ProcessingTime(fileSize), true)
  }

  /** A larger file is never estimated to take less time. */
  lemma ProcessingTimeMonotone(fileName: string, small: int, large: int)
    requires small <= large
    ensures GetExcelFileInfo(fileName, small).estimatedProcessingTime <= GetExcelFileInfo(fileName, large).estimatedProcessingTime
  {
    assert small / MiB <= large / MiB;
  }

  /** `validate_excel_upload`: the name is checked first, then the 15 MiB limit. */
  function ValidateExcelUpload(fileSize: int, fileName: string): (r: (bool, string))
    ensures r.0 <==> IsExcelName(fileName) && fileSize <= MaxExcelSize
    ensures !IsExcelName(fileName) ==> r == (false, "File is not an Excel file")
    ensures IsExcelName(fileName) && fileSize > MaxExcelSize ==> r == (false, "Excel file too large. Maximum size is 15MB")
    ensures r.0 ==> r.1 == ""
  {
    if !IsExcelName(fileName) then (false, "File is not an Excel file")
    else if fileSize > MaxExcelSize then (false, "Excel file too large. Maximum size is 15MB")
    else (true, "")
  }

  /** An accepted upload is an Excel file of a known type. */
  lemma AcceptedUploadIsExcel(fileSize: int, fileName: string)
    requires ValidateExcelUpload(fileSize, fileName).0
    ensures GetExcelFileInfo(fileName, fileSize).isExcel
    ensures GetExcelFileInfo(fileName, fileSize).excelType in {Some("xlsx"), Some("xls")}
  {
  }
}
