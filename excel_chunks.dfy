/**
 * The tabular re-chunker of the Excel processor (`create_excel_chunks`).
 *
 * The rendered workbook text is split on the "=== WORKSHEET" marker.  Every
 * non-blank section after the first gets a context line "WORKSHEET " + its
 * first line, repeated at the head of each of its chunks.  The remaining
 * lines are trimmed, blank ones dropped, and packed greedily: a chunk is
 * flushed before a line that would push its running size (the sum of its line
 * lengths, newlines not counted) past 800.
 */
module ExcelChunks {
  import opened Text

  const WorksheetMarker: string := "=== WORKSHEET"
  const MaxExcelChunkSize: nat := 800
  const ExcelDataType: string := "excel_data"
  const HeadersMark: string := "Headers:"
  const RowMark: string := "Row"

  /** One chunk: its text and the metadata stored beside it. */
  datatype ExcelChunk = ExcelChunk(
    content: string,
    sourceFile: string,
    worksheetSection: nat,
    chunkType: string,
    hasHeaders: bool,
    rowCount: nat,
    worksheetInfo: string)

  // ---------------------------------------------------------------------
  // One section
  // ---------------------------------------------------------------------

  /** The context line of section `idx`: none for the text before the first marker. */
  function WorksheetInfo(idx: nat, lines: seq<string>): (info: string)
    requires lines != []
    ensures idx > 0 ==> StartsWith(info, "WORKSHEET ") && !IsSpace(info[0])
    ensures idx == 0 ==> info == ""
  {
    if idx > 0 then "WORKSHEET " + lines[0] else ""
  }

  /** The lines of a section that hold data: all but the context line. */
  function ContentLines(idx: nat, lines: seq<string>): seq<string>
    requires lines != []
  {
    if idx > 0 then lines[1..] else lines
  }

  /** The lines as the packing loop keeps them: trimmed, blank ones dropped. */
  function KeptLines(raw: seq<string>): seq<string>
  {
    if raw == [] then []
    else
      var line := Strip(raw[|raw| - 1]);
      KeptLines(raw[..|raw| - 1]) + if line == [] then [] else [line]
  }

  /** A line the packing loop accepts: non-empty and starting with a non-space. */
  predicate IsTrimmedLine(line: string)
  {
    line != [] && !IsSpace(line[0])
  }

  lemma {:induction false} KeptLinesTrimmed(raw: seq<string>)
    ensures forall l :: l in KeptLines(raw) ==> IsTrimmedLine(l)
  {
    if raw != [] {
      KeptLinesTrimmed(raw[..|raw| - 1]);
    }
  }

  /** The packing loop's variables: flushed chunks, the chunk being filled and its running size. */
  datatype PackState = PackState(done: seq<seq<string>>, current: seq<string>, size: nat)

  /** The lines a fresh chunk starts with: the context line, if any. */
  function Head(info: string): seq<string>
  {
    if info != "" then [info] else []
  }

  function HeadLength(info: string): nat
  {
    if info != "" then |info| else 0
  }

  /** The start of the loop body: an empty chunk first receives the context line. */
  function Opened(info: string, st: PackState): PackState
  {
    if st.current == [] && info != "" then PackState(st.done, [info], st.size + |info|) else st
  }

  /** Before a line that would overflow a non-empty chunk, the chunk is flushed and a fresh one opened. */
  function Flushed(info: string, st: PackState, line: string): PackState
  {
    if st.size + |line| > MaxExcelChunkSize && st.current != [] then
      PackState(st.done + [st.current], Head(info), HeadLength(info))
    else st
  }

  /** The rest of the loop body: flush if needed, then add the line. */
  function Place(info: string, st: PackState, line: string): PackState
  {
    var f := Flushed(info, st, line);
    PackState(f.done, f.current + [line], f.size + |line|)
  }

  /** One kept line through the loop body. */
  function Step(info: string, st: PackState, line: string): PackState
  {
    Place(info, Opened(info, st), line)
  }

  /** The loop's variables after the given kept lines. */
  function PackAll(info: string, lines: seq<string>): PackState
  {
    if lines == [] then PackState([], [], 0)
    else Step(info, PackAll(info, lines[..|lines| - 1]), lines[|lines| - 1])
  }

  /** The line groups of a section: the flushed chunks and the final one. */
  function Groups(info: string, lines: seq<string>): seq<seq<string>>
  {
    var st := PackAll(info, lines);
    st.done + if st.current != [] then [st.current] else []
  }

  /** How many lines of a group start with "Row". */
  function RowLineCount(g: seq<string>): (n: nat)
    ensures n <= |g|
  {
    if g == [] then 0
    else RowLineCount(g[..|g| - 1]) + if StartsWith(g[|g| - 1], RowMark) then 1 else 0
  }

  /** The chunk record stored for a group of lines. */
  function MakeChunk(fileName: string, idx: nat, info: string, g: seq<string>): ExcelChunk
  {
    var text := Join("\n", g);
    ExcelChunk(text, fileName, idx, ExcelDataType, Contains(text, HeadersMark), RowLineCount(g), info)
  }

  /** A group becomes a chunk unless its text is blank. */
  function Emit(fileName: string, idx: nat, info: string, g: seq<string>): seq<ExcelChunk>
  {
    if IsBlank(Join("\n", g)) then [] else [MakeChunk(fileName, idx, info, g)]
  }

  function ToChunks(fileName: string, idx: nat, info: string, gs: seq<seq<string>>): seq<ExcelChunk>
  {
    if gs == [] then []
    else ToChunks(fileName, idx, info, gs[..|gs| - 1]) + Emit(fileName, idx, info, gs[|gs| - 1])
  }

  /** The chunks of section number `idx`; a blank section gives none. */
  function SectionChunks(fileName: string, idx: nat, section: string): seq<ExcelChunk>
  {
    var trimmed := Strip(section);
    if trimmed == [] then []
    else
      var lines := Split(trimmed, "\n");
      var info := WorksheetInfo(idx, lines);
      ToChunks(fileName, idx, info, Groups(info, KeptLines(ContentLines(idx, lines))))
  }

  /** The chunking of every section of one file, as a function of its number and its text. */
  function SectionChunker(fileName: string): (nat, string) -> seq<ExcelChunk>
  {
    (idx: nat, section: string) => SectionChunks(fileName, idx, section)
  }

  /** The chunks of the first `n` sections, each chunked by `per`. */
  function AllChunks(per: (nat, string) -> seq<ExcelChunk>, sections: seq<string>, n: nat): seq<ExcelChunk>
    requires n <= |sections|
  {
    if n == 0 then [] else AllChunks(per, sections, n - 1) + per(n - 1, sections[n - 1])
  }

  /** `create_excel_chunks` as a value. */
  function ExcelChunks(content: string, fileName: string): seq<ExcelChunk>
  {
    var sections := Split(content, WorksheetMarker);
    AllChunks(SectionChunker(fileName), sections, |sections|)
  }

  // ---------------------------------------------------------------------
  // The imperative re-chunker
  // ---------------------------------------------------------------------

  /** The packing loop over the raw lines of one section. */
  method PackSection(fileName: string, idx: nat, info: string, raw: seq<string>) returns (out: seq<ExcelChunk>)
    ensures out == ToChunks(fileName, idx, info, Groups(info, KeptLines(raw)))
  {
    out := [];
    ghost var done: seq<seq<string>> := [];
    ghost var kept: seq<string> := [];
    var current: seq<string> := [];
    var size: nat := 0;
    for i := 0 to |raw|
      invariant kept == KeptLines(raw[..i])
      invariant PackState(done, current, size) == PackAll(info, kept)
      invariant out == ToChunks(fileName, idx, info, done)
    {
      var line := Strip(raw[i]);
      KeptLinesNext(raw, i);
      if line != [] {
        PackAllNext(info, kept, line);
        kept := kept + [line];
        if current == [] && info != "" {
          current := [info];
          size := size + |info|;
        }
        if size + |line| > MaxExcelChunkSize && current != [] {
          var text := Join("\n", current);
          if !IsBlank(text) {
            out := out + [MakeChunk(fileName, idx, info, current)];
          }
          ToChunksNext(fileName, idx, info, done, current);
          done := done + [current];
          current := Head(info);
          size := HeadLength(info);
        }
        current := current + [line];
        size := size + |line|;
      }
    }
    assert raw[..|raw|] == raw;
    if current != [] {
      var text := Join("\n", current);
      if !IsBlank(text) {
        out := out + [MakeChunk(fileName, idx, info, current)];
      }
      ToChunksNext(fileName, idx, info, done, current);
    }
  }

  lemma KeptLinesNext(raw: seq<string>, i: nat)
    requires i < |raw|
    ensures KeptLines(raw[..i + 1]) == KeptLines(raw[..i]) + if Strip(raw[i]) == [] then [] else [Strip(raw[i])]
  {
    assert raw[..i + 1][..i] == raw[..i];
  }

  lemma PackAllNext(info: string, lines: seq<string>, line: string)
    ensures PackAll(info, lines + [line]) == Step(info, PackAll(info, lines), line)
  {
    assert (lines + [line])[..|lines|] == lines;
  }

  lemma ToChunksNext(fileName: string, idx: nat, info: string, gs: seq<seq<string>>, g: seq<string>)
    ensures ToChunks(fileName, idx, info, gs + [g]) == ToChunks(fileName, idx, info, gs) + Emit(fileName, idx, info, g)
  {
    assert (gs + [g])[..|gs|] == gs;
  }

  /** The body of the section loop: skip a blank section, derive the context line, pack the rest. */
  method ChunkSection(fileName: string, idx: nat, section: string) returns (out: seq<ExcelChunk>)
    ensures out == SectionChunks(fileName, idx, section)
  {
    out := [];
    var trimmed := Strip(section);
    if trimmed != [] {
      var lines := Split(trimmed, "\n");
      var info := "";
      var start := 0;
      if idx > 0 {
        info := "WORKSHEET " + lines[0];
        start := 1;
      }
      assert info == WorksheetInfo(idx, lines);
      assert lines[start..] == ContentLines(idx, lines);
      out := PackSection(fileName, idx, info, lines[start..]);
    }
  }

  /** `create_excel_chunks`. */
  method CreateExcelChunks(content: string, fileName: string) returns (chunks: seq<ExcelChunk>)
    ensures chunks == ExcelChunks(content, fileName)
  {
    var sections := Split(content, WorksheetMarker);
    chunks := ChunkSections(fileName, sections);
  }

  /** The loop of `create_excel_chunks` over the worksheet sections, in order. */
  method ChunkSections(fileName: string, sections: seq<string>) returns (chunks: seq<ExcelChunk>)
    ensures chunks == AllChunks(SectionChunker(fileName), sections, |sections|)
  {
    ghost var per := SectionChunker(fileName);
    chunks := [];
    for idx := 0 to |sections|
      invariant chunks == AllChunks(per, sections, idx)
    {
      var out := ChunkSection(fileName, idx, sections[idx]);
      assert out == per(idx, sections[idx]);
      chunks := chunks + out;
    }
  }

  // ---------------------------------------------------------------------
  // Properties of the packing
  // ---------------------------------------------------------------------

  /** The data lines of a group: all but its context line. */
  function Body(info: string, g: seq<string>): seq<string>
  {
    if info != "" && g != [] then g[1..] else g
  }

  /** The data lines of a sequence of groups, in order. */
  function Flatten(info: string, gs: seq<seq<string>>): seq<string>
  {
    if gs == [] then [] else Flatten(info, gs[..|gs| - 1]) + Body(info, gs[|gs| - 1])
  }

  /** The running size of a group: its line lengths, newlines not counted. */
  function TotalLength(g: seq<string>): nat
  {
    if g == [] then 0 else TotalLength(g[..|g| - 1]) + |g[|g| - 1]|
  }

  /**
   * A group as the loop emits it: non-empty, led by the context line when
   * there is one, led by a non-space character, and over 800 characters only
   * when it holds at most one data line.
   */
  predicate GoodGroup(info: string, g: seq<string>)
  {
    g != [] && IsTrimmedLine(g[0]) && (info != "" ==> g[0] == info)
    && (TotalLength(g) <= MaxExcelChunkSize || |Body(info, g)| <= 1)
  }

  /** The loop's variables hold exactly the kept lines seen so far, each chunk led by the context line. */
  predicate Covers(info: string, lines: seq<string>, st: PackState)
  {
    (info != "" && st.current != [] ==> st.current[0] == info)
    && Flatten(info, st.done) + Body(info, st.current) == lines
  }

  /** Every flushed chunk is good, and so is the one being filled, whose running size is tracked. */
  predicate Sized(info: string, st: PackState)
  {
    (forall g :: g in st.done ==> GoodGroup(info, g))
    && (st.current == [] ==> st.size == 0)
    && (st.current != [] ==> GoodGroup(info, st.current) && st.size == TotalLength(st.current))
  }

  lemma TotalLengthAppend(g: seq<string>, line: string)
    ensures TotalLength(g + [line]) == TotalLength(g) + |line|
  {
    assert (g + [line])[..|g|] == g;
  }

  lemma FlattenAppend(info: string, gs: seq<seq<string>>, g: seq<string>)
    ensures Flatten(info, gs + [g]) == Flatten(info, gs) + Body(info, g)
  {
    assert (gs + [g])[..|gs|] == gs;
  }

  lemma TotalLengthOne(line: string)
    ensures TotalLength([line]) == |line|
  {
    assert [line][..0] == [];
  }

  lemma OpenedCovers(info: string, lines: seq<string>, st: PackState)
    requires Covers(info, lines, st)
    ensures Covers(info, lines, Opened(info, st))
  {
  }

  lemma OpenedSized(info: string, st: PackState)
    requires info != "" ==> IsTrimmedLine(info)
    requires Sized(info, st)
    ensures Sized(info, Opened(info, st))
  {
    if st.current == [] && info != "" {
      TotalLengthOne(info);
    }
  }

  lemma PlaceCovers(info: string, lines: seq<string>, st: PackState, line: string)
    requires Covers(info, lines, st)
    requires info != "" ==> st.current != []
    ensures Covers(info, lines + [line], Place(info, st, line))
  {
    if st.size + |line| > MaxExcelChunkSize && st.current != [] {
      FlattenAppend(info, st.done, st.current);
      assert Body(info, Head(info) + [line]) == [line];
    } else if info != "" {
      assert Body(info, st.current + [line]) == Body(info, st.current) + [line];
    }
  }

  lemma FlushedSized(info: string, st: PackState, line: string)
    requires info != "" ==> IsTrimmedLine(info)
    requires Sized(info, st)
    ensures Sized(info, Flushed(info, st, line))
  {
    if st.size + |line| > MaxExcelChunkSize && st.current != [] {
      var f := Flushed(info, st, line);
      assert forall g :: g in f.done ==> g in st.done || g == st.current;
      if info != "" {
        TotalLengthOne(info);
        assert Body(info, [info]) == [];
      }
    }
  }

  lemma AppendSized(info: string, st: PackState, line: string)
    requires IsTrimmedLine(line)
    requires Sized(info, st)
    requires info != "" ==> st.current != [] && st.current[0] == info
    requires st.current == [] || st.size + |line| <= MaxExcelChunkSize || Body(info, st.current) == []
    ensures Sized(info, PackState(st.done, st.current + [line], st.size + |line|))
  {
    TotalLengthAppend(st.current, line);
    if st.current == [] {
      assert Body(info, [line]) == [line];
    } else if info != "" {
      assert Body(info, st.current + [line]) == Body(info, st.current) + [line];
    }
  }

  lemma PlaceSized(info: string, st: PackState, line: string)
    requires info != "" ==> IsTrimmedLine(info)
    requires IsTrimmedLine(line)
    requires Sized(info, st)
    requires info != "" ==> st.current != [] && st.current[0] == info
    ensures Sized(info, Place(info, st, line))
  {
    var f := Flushed(info, st, line);
    FlushedSized(info, st, line);
    if info != "" && st.size + |line| > MaxExcelChunkSize && st.current != [] {
      assert Body(info, f.current) == [];
    }
    AppendSized(info, f, line);
  }

  /** One loop step keeps both the coverage and the size invariant. */
  lemma StepGood(info: string, lines: seq<string>, st: PackState, line: string)
    requires info != "" ==> IsTrimmedLine(info)
    requires IsTrimmedLine(line)
    requires Covers(info, lines, st) && Sized(info, st)
    ensures Covers(info, lines + [line], Step(info, st, line)) && Sized(info, Step(info, st, line))
  {
    var op := Opened(info, st);
    assert Covers(info, lines, op) && Sized(info, op) by {
      OpenedCovers(info, lines, st);
      OpenedSized(info, st);
    }
    PlaceCovers(info, lines, op, line);
    PlaceSized(info, op, line);
  }

  lemma {:induction false} PackAllGood(info: string, lines: seq<string>)
    requires info != "" ==> IsTrimmedLine(info)
    requires forall l :: l in lines ==> IsTrimmedLine(l)
    ensures Covers(info, lines, PackAll(info, lines)) && Sized(info, PackAll(info, lines))
  {
    if lines != [] {
      var init, line := lines[..|lines| - 1], lines[|lines| - 1];
      assert init + [line] == lines;
      assert forall l :: l in init ==> l in lines;
      PackAllGood(info, init);
      StepGood(info, init, PackAll(info, init), line);
      PackAllNext(info, init, line);
    }
  }

  /**
   * The packing keeps every kept line, in order, in exactly one group and
   * never splits one; every group is led by the context line when there is
   * one; a group runs past 800 characters only when it holds at most one data
   * line.
   */
  lemma GroupsProperties(info: string, lines: seq<string>)
    requires info != "" ==> IsTrimmedLine(info)
    requires forall l :: l in lines ==> IsTrimmedLine(l)
    ensures Flatten(info, Groups(info, lines)) == lines
    ensures forall g :: g in Groups(info, lines) ==> GoodGroup(info, g)
  {
    PackAllGood(info, lines);
    var st := PackAll(info, lines);
    assert forall g :: g in Groups(info, lines) ==> g in st.done || g == st.current;
    if st.current != [] {
      FlattenAppend(info, st.done, st.current);
    }
  }

  /** The context line stays in a chunk of its own when the first data line would overflow it. */
  lemma FirstLineOverflow(info: string, line: string)
    requires info != "" && |info| + |line| > MaxExcelChunkSize
    ensures Groups(info, [line]) == [[info], [info, line]]
  {
    PackAllNext(info, [], line);
    assert [] + [line] == [line];
    assert PackAll(info, [line]) == PackState([[info]], [info, line], |info| + |line|);
  }

  /** Once flushed, a group stays: the groups after a prefix start the groups after the whole. */
  lemma {:induction false} DonePrefix(info: string, lines: seq<string>, k: nat)
    requires k <= |lines|
    ensures PackAll(info, lines[..k]).done <= PackAll(info, lines).done
    decreases |lines| - k
  {
    if k < |lines| {
      DonePrefix(info, lines[..|lines| - 1], k);
      assert lines[..|lines| - 1][..k] == lines[..k];
    } else {
      assert lines[..k] == lines;
    }
  }

  /** A section whose first data line overflows the context line yields the context line alone first. */
  lemma ContextLineAlone(info: string, lines: seq<string>)
    requires info != "" && lines != [] && |info| + |lines[0]| > MaxExcelChunkSize
    ensures Groups(info, lines)[0] == [info]
  {
    FirstLineOverflow(info, lines[0]);
    DonePrefix(info, lines, 1);
    assert lines[..1] == [lines[0]];
    assert PackAll(info, [lines[0]]).done == [[info]];
  }

  // ---------------------------------------------------------------------
  // Properties of the chunk records
  // ---------------------------------------------------------------------

  lemma JoinNotBlank(g: seq<string>)
    requires g != [] && IsTrimmedLine(g[0])
    ensures !IsBlank(Join("\n", g))
  {
    JoinFirst("\n", g);
    assert Join("\n", g)[0] == g[0][0];
  }

  /** No group is dropped by the blank test: each becomes the chunk made from it. */
  lemma {:induction false} ToChunksAll(fileName: string, idx: nat, info: string, gs: seq<seq<string>>)
    requires forall g :: g in gs ==> GoodGroup(info, g)
    ensures |ToChunks(fileName, idx, info, gs)| == |gs|
    ensures forall k :: 0 <= k < |gs| ==> ToChunks(fileName, idx, info, gs)[k] == MakeChunk(fileName, idx, info, gs[k])
  {
    if gs != [] {
      var init, g := gs[..|gs| - 1], gs[|gs| - 1];
      assert init + [g] == gs;
      assert forall h :: h in init ==> h in gs;
      ToChunksAll(fileName, idx, info, init);
      assert GoodGroup(info, g) by { assert g in gs; }
      JoinNotBlank(g);
      ToChunksNext(fileName, idx, info, init, g);
    }
  }

  /** The "Row" lines of a group are data lines: the context line never starts with "Row". */
  lemma {:induction false} RowLinesAreData(info: string, g: seq<string>)
    requires info != "" ==> StartsWith(info, "WORKSHEET ")
    requires GoodGroup(info, g)
    ensures RowLineCount(g) <= |Body(info, g)|
  {
    if info != "" {
      assert !StartsWith(info, RowMark) by {
        assert info[0] == 'W';
      }
      RowCountSkipsFirst(g);
    }
  }

  lemma {:induction false} RowCountSkipsFirst(g: seq<string>)
    requires g != [] && !StartsWith(g[0], RowMark)
    ensures RowLineCount(g) <= |g| - 1
  {
    if |g| > 1 {
      RowCountSkipsFirst(g[..|g| - 1]);
    } else {
      assert g[..0] == [];
    }
  }

  /**
   * What every chunk of a non-blank section carries: non-blank text, the
   * section number, the "excel_data" type, the context line (none for the
   * text before the first marker) at the head of its text, `has_headers` iff
   * the text holds "Headers:", and a row count that counts data lines only.
   */
  predicate ChunkOfSection(fileName: string, idx: nat, info: string, c: ExcelChunk)
  {
    !IsBlank(c.content) && c.sourceFile == fileName && c.worksheetSection == idx
    && c.chunkType == ExcelDataType && c.worksheetInfo == info && StartsWith(c.content, info)
    && (c.hasHeaders <==> Contains(c.content, HeadersMark))
  }

  lemma SectionChunksProperties(fileName: string, idx: nat, section: string)
    ensures Strip(section) == [] ==> SectionChunks(fileName, idx, section) == []
    ensures Strip(section) != [] ==>
      var lines := Split(Strip(section), "\n");
      var info := WorksheetInfo(idx, lines);
      var gs := Groups(info, KeptLines(ContentLines(idx, lines)));
      var chunks := SectionChunks(fileName, idx, section);
      && Flatten(info, gs) == KeptLines(ContentLines(idx, lines))
      && |chunks| == |gs|
      && (forall k :: 0 <= k < |gs| ==> chunks[k].content == Join("\n", gs[k]))
      && (forall k :: 0 <= k < |gs| ==> chunks[k].rowCount <= |Body(info, gs[k])|)
      && (forall c :: c in chunks ==> ChunkOfSection(fileName, idx, info, c))
  {
    var trimmed := Strip(section);
    if trimmed != [] {
      var lines := Split(trimmed, "\n");
      var info := WorksheetInfo(idx, lines);
      var kept := KeptLines(ContentLines(idx, lines));
      KeptLinesTrimmed(ContentLines(idx, lines));
      GroupsProperties(info, kept);
      var gs := Groups(info, kept);
      ToChunksAll(fileName, idx, info, gs);
      var chunks := SectionChunks(fileName, idx, section);
      forall k | 0 <= k < |gs|
        ensures chunks[k].rowCount <= |Body(info, gs[k])|
        ensures ChunkOfSection(fileName, idx, info, chunks[k])
      {
        assert GoodGroup(info, gs[k]);
        RowLinesAreData(info, gs[k]);
        JoinNotBlank(gs[k]);
        JoinFirst("\n", gs[k]);
      }
    }
  }

  /** The section-independent facts about one section's chunks. */
  predicate ChunkOfWorkbook(fileName: string, idx: nat, c: ExcelChunk)
  {
    c.worksheetSection == idx && !IsBlank(c.content) && c.chunkType == ExcelDataType
    && c.sourceFile == fileName && StartsWith(c.content, c.worksheetInfo)
    && (c.worksheetInfo == "" <==> idx == 0)
  }

  lemma SectionChunksSummary(fileName: string, idx: nat, section: string)
    ensures forall c :: c in SectionChunks(fileName, idx, section) ==> ChunkOfWorkbook(fileName, idx, c)
  {
    SectionChunksProperties(fileName, idx, section);
    if Strip(section) != [] {
      var lines := Split(Strip(section), "\n");
      var info := WorksheetInfo(idx, lines);
      assert info == "" <==> idx == 0;
    }
  }

  /** Chunks made section by section keep the facts each section's chunks have. */
  lemma {:induction false} AllChunksKeep(fileName: string, per: (nat, string) -> seq<ExcelChunk>, sections: seq<string>, n: nat)
    requires n <= |sections|
    requires forall i: nat, section, c :: c in per(i, section) ==> ChunkOfWorkbook(fileName, i, c)
    ensures forall c :: c in AllChunks(per, sections, n) ==>
      c.worksheetSection < n && ChunkOfWorkbook(fileName, c.worksheetSection, c)
  {
    if n > 0 {
      AllChunksKeep(fileName, per, sections, n - 1);
    }
  }

  /** Every chunk of the workbook text satisfies the section rules of the section it came from. */
  lemma AllChunksProperties(content: string, fileName: string)
    ensures forall c :: c in ExcelChunks(content, fileName) ==>
      c.worksheetSection < |Split(content, WorksheetMarker)| && ChunkOfWorkbook(fileName, c.worksheetSection, c)
  {
    var sections := Split(content, WorksheetMarker);
    var per := SectionChunker(fileName);
    forall i: nat, section
      ensures forall c :: c in per(i, section) ==> ChunkOfWorkbook(fileName, i, c)
    {
      SectionChunksSummary(fileName, i, section);
    }
    AllChunksKeep(fileName, per, sections, |sections|);
  }
}
