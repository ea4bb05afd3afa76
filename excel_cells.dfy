/**
 * Spreadsheet cell values and their text rendering in the Excel processor:
 * `_extract_cell_content` for cells read through openpyxl (with the optional
 * formula and the 1000-character cap) and `_clean_cell_value` for values read
 * through pandas (no formula, no cap).  Floating-point values carry Python's
 * own `str()` rendering as data; only the integral case is computed.
 */
module ExcelCells {
  import opened Text

  const MaxCellContentLength: nat := 1000
  const Ellipsis: string := "..."

  datatype DateTime = DateTime(year: nat, month: nat, day: nat, hour: nat, minute: nat, second: nat)

  /** A cell value as Python sees it after the workbook was read. */
  datatype CellValue =
    | Empty                                  // None, or NaN / "" in a pandas frame
    | Text(s: string)
    | Int(i: int)
    | Float(v: real, repr: string)           // `repr` is Python's `str(v)`
    | Bool(b: bool)
    | Date(d: DateTime)
    | Other(repr: string)                    // any other type, with its `str()`

  /** An openpyxl cell: its value and, when the cell object exposes one, a formula. */
  datatype Cell = Cell(value: CellValue, formula: Option<string>)

  /** Zero-padded decimal rendering to at least `width` digits. */
  function Pad(n: nat, width: nat): (r: string)
    ensures |r| >= width
    ensures |NatToString(n)| >= width ==> r == NatToString(n)
    decreases width
  {
    var digits := NatToString(n);
    if |digits| >= width then digits else "0" + Pad(n, width - 1)
  }

  lemma PadExact(n: nat, width: nat)
    requires |NatToString(n)| <= width
    ensures |Pad(n, width)| == width
    decreases width
  {
    if |NatToString(n)| < width {
      PadExact(n, width - 1);
    }
  }

  function Pow10(k: nat): (r: nat)
    ensures r >= 1
  {
    if k == 0 then 1 else 10 * Pow10(k - 1)
  }

  lemma {:induction false} NatToStringShort(n: nat, width: nat)
    requires width >= 1 && n < Pow10(width)
    ensures |NatToString(n)| <= width
    decreases width
  {
    if n >= 10 { NatToStringShort(n / 10, width - 1); }
  }

  /** `strftime("%Y-%m-%d %H:%M:%S")`. */
  function FormatDateTime(d: DateTime): (r: string)
  {
    Pad(d.year, 4) + "-" + Pad(d.month, 2) + "-" + Pad(d.day, 2) + " "
      + Pad(d.hour, 2) + ":" + Pad(d.minute, 2) + ":" + Pad(d.second, 2)
  }

  /** A date with fields in their calendar ranges renders in exactly 19 characters. */
  lemma FormatDateTimeLength(d: DateTime)
    requires 1 <= d.year <= 9999 && 1 <= d.month <= 12 && 1 <= d.day <= 31
    requires d.hour < 24 && d.minute < 60 && d.second < 60
    ensures |FormatDateTime(d)| == 19
  {
    NatToStringShort(d.year, 4); PadExact(d.year, 4);
    NatToStringShort(d.month, 2); PadExact(d.month, 2);
    NatToStringShort(d.day, 2); PadExact(d.day, 2);
    NatToStringShort(d.hour, 2); PadExact(d.hour, 2);
    NatToStringShort(d.minute, 2); PadExact(d.minute, 2);
    NatToStringShort(d.second, 2); PadExact(d.second, 2);
  }

  predicate IsIntegral(v: real) { v == v.Floor as real }

  /** The rendering of a number: an integral float prints as an integer. */
  function FormatNumber(v: CellValue): (r: string)
    requires v.Int? || v.Float? || v.Bool?
    ensures v.Int? ==> r == IntToString(v.i)
    ensures v.Float? && IsIntegral(v.v) ==> r == IntToString(v.v.Floor)
    ensures v.Float? && !IsIntegral(v.v) ==> r == v.repr
  {
    match v
    case Int(i) => IntToString(i)
    case Float(x, repr) => if IsIntegral(x) then IntToString(x.Floor) else repr
    case Bool(b) => if b then "True" else "False"
  }

  /** The value's text before the formula and the length cap. */
  function BaseContent(v: CellValue): string
  {
    match v
    case Empty => ""
    case Text(s) => Strip(s)
    case Int(_) => FormatNumber(v)
    case Float(_, _) => FormatNumber(v)
    case Bool(_) => FormatNumber(v)
    case Date(d) => FormatDateTime(d)
    case Other(repr) => repr
  }

  /** The content with a formula appended when it starts with '=' and differs from the content. */
  function WithFormula(content: string, formula: Option<string>): (r: string)
    ensures formula.Some? && formula.value != "" && formula.value != content && StartsWith(formula.value, "=")
      ==> r == content + " (Formula: " + formula.value + ")"
    ensures !(formula.Some? && formula.value != "" && formula.value != content && StartsWith(formula.value, "=")) ==> r == content
  {
    if formula.Some? && formula.value != "" && formula.value != content && StartsWith(formula.value, "=")
    then content + " (Formula: " + formula.value + ")"
    else content
  }

  /** Cut to 1000 characters, marking the cut with "...". */
  function Truncate(content: string): (r: string)
    ensures |r| <= MaxCellContentLength + |Ellipsis|
    ensures |content| <= MaxCellContentLength ==> r == content
    ensures |content| > MaxCellContentLength ==> r == content[..MaxCellContentLength] + Ellipsis
  {
    if |content| > MaxCellContentLength then content[..MaxCellContentLength] + Ellipsis else content
  }

  /** `_extract_cell_content`. */
  function ExtractCellContent(cell: Cell): (r: string)
    ensures cell.value.Empty? ==> r == ""
    ensures |r| <= MaxCellContentLength + |Ellipsis|
    ensures cell.value.Text? && cell.formula.None? && |Strip(cell.value.s)| <= MaxCellContentLength ==> r == Strip(cell.value.s)
  {
    if cell.value.Empty? then ""
    else Truncate(WithFormula(BaseContent(cell.value), cell.formula))
  }

  /** `_clean_cell_value`: the same rendering without formula or cap; other values are trimmed. */
  function CleanCellValue(v: CellValue): (r: string)
    ensures v.Empty? ==> r == ""
    ensures v.Text? ==> r == Strip(v.s)
  {
    match v
    case Empty => ""
    case Other(repr) => Strip(repr)
    case _ => BaseContent(v)
  }

  /** Python's `str(value)` on a pandas value after `fillna('')`. */
  function PyStr(v: CellValue): string
  {
    match v
    case Empty => ""
    case Text(s) => s
    case Int(i) => IntToString(i)
    case Float(_, repr) => repr
    case Bool(b) => if b then "True" else "False"
    case Date(d) => FormatDateTime(d)
    case Other(repr) => repr
  }

  /**
   * The two renderings agree on a cell without formula whose content stays
   * under the cap, except that `_clean_cell_value` also trims values of other
   * types.
   */
  lemma ExtractAgreesWithClean(v: CellValue)
    requires !v.Other? && |BaseContent(v)| <= MaxCellContentLength
    ensures ExtractCellContent(Cell(v, None)) == CleanCellValue(v)
  {
  }

  /** A long value is cut at exactly 1000 characters and marked. */
  lemma LongContentIsCut(cell: Cell)
    requires !cell.value.Empty? && |WithFormula(BaseContent(cell.value), cell.formula)| > MaxCellContentLength
    ensures |ExtractCellContent(cell)| == MaxCellContentLength + |Ellipsis|
    ensures EndsWith(ExtractCellContent(cell), Ellipsis)
  {
    var r := ExtractCellContent(cell);
    assert r[|r| - 3..] == Ellipsis;
  }

  // ---------------------------------------------------------------------
  // Column letters (openpyxl.utils.get_column_letter)
  // ---------------------------------------------------------------------

  predicate IsUpper(c: char) { 'A' <= c <= 'Z' }

  /** The bijective base-26 column name: 1 -> "A", 26 -> "Z", 27 -> "AA". */
  function ColumnLetter(n: nat): (r: string)
    requires n >= 1
    ensures |r| >= 1
    ensures forall i :: 0 <= i < |r| ==> IsUpper(r[i])
    ensures n <= 26 ==> |r| == 1
    decreases n
  {
    var q, m := (n - 1) / 26, (n - 1) % 26;
    var last := ('A' as int + m) as char;
    if q == 0 then [last] else ColumnLetter(q) + [last]
  }

  /** The last letter of a column name identifies the column modulo 26. */
  lemma ColumnLetterLast(n: nat)
    requires n >= 1
    ensures ColumnLetter(n)[|ColumnLetter(n)| - 1] as int - 'A' as int == (n - 1) % 26
  {
  }
}
