/**
 * The generic text chunker of the document service and its file-type helpers.
 *
 * The chunker slides an 800-character window over the trimmed text.  When the
 * window stops short of the end of the text, it is cut just after the last
 * sentence mark lying beyond the first third of the window, else at the last
 * space beyond that third, else at its full width.  Trimmed pieces longer than
 * 20 characters are kept, the next window starts 100 characters before the
 * cut, and the loop stops once more than 100 pieces have been collected.
 */
module DocumentChunking {
  import opened Text

  const ChunkSize: nat := 800
  const ChunkOverlap: nat := 100
  const MaxChunksPerDocument: nat := 100
  /** `chunk_size // 3`: a cut must lie beyond this many characters into the window. */
  const MinCut: nat := ChunkSize / 3
  const MinTextLength: nat := 50
  const MinChunkLength: nat := 20

  predicate IsSentenceMark(ch: char) { ch == '.' || ch == '!' || ch == '?' }

  /** `max(rfind('.'), rfind('!'), rfind('?'))` over [lo, hi). */
  function LastSentenceMark(c: string, lo: nat, hi: nat): (r: int)
    requires lo <= hi <= |c|
    ensures r == -1 || lo <= r < hi
  {
    var dot, bang, question := RFind(c, '.', lo, hi), RFind(c, '!', lo, hi), RFind(c, '?', lo, hi);
    var m := if dot >= bang then dot else bang;
    if m >= question then m else question
  }

  /** The position found holds a sentence mark, and none lies after it in [lo, hi). */
  lemma LastSentenceMarkSpec(c: string, lo: nat, hi: nat)
    requires lo <= hi <= |c|
    ensures LastSentenceMark(c, lo, hi) != -1 ==> IsSentenceMark(c[LastSentenceMark(c, lo, hi)])
    ensures forall k :: LastSentenceMark(c, lo, hi) < k < hi && lo <= k ==> !IsSentenceMark(c[k])
  {
    RFindSpec(c, '.', lo, hi);
    RFindSpec(c, '!', lo, hi);
    RFindSpec(c, '?', lo, hi);
  }

  /** Where the window starting at `start` ends: never within its first third, never past its width. */
  function WindowEnd(c: string, start: nat): (end: nat)
    requires start < |c|
    ensures start + MinCut < end <= start + ChunkSize
  {
    var end := start + ChunkSize;
    if end < |c| then
      var sentenceEnd := LastSentenceMark(c, start, end);
      if sentenceEnd > start + MinCut then sentenceEnd + 1
      else
        var wordEnd := RFind(c, ' ', start, end);
        if wordEnd > start + MinCut then wordEnd else end
    else end
  }

  /**
   * The three cut rules.  A window reaching the end of the text is not cut.
   * Otherwise it ends just after the last sentence mark beyond its first
   * third; failing that, at the last space beyond its first third; failing
   * that, at its full width.
   */
  lemma CutRules(c: string, start: nat)
    requires start < |c|
    ensures start + ChunkSize >= |c| ==> WindowEnd(c, start) == start + ChunkSize
    ensures start + ChunkSize < |c| && (exists k :: start + MinCut < k < start + ChunkSize && IsSentenceMark(c[k])) ==>
      var end := WindowEnd(c, start);
      IsSentenceMark(c[end - 1]) && forall k :: end - 1 < k < start + ChunkSize ==> !IsSentenceMark(c[k])
    ensures (start + ChunkSize < |c| && (forall k :: start + MinCut < k < start + ChunkSize ==> !IsSentenceMark(c[k]))
      && (exists k :: start + MinCut < k < start + ChunkSize && c[k] == ' ')) ==>
      var end := WindowEnd(c, start);
      end < start + ChunkSize && c[end] == ' ' && forall k :: end < k < start + ChunkSize ==> c[k] != ' '
    ensures start + ChunkSize < |c| && (forall k :: start + MinCut < k < start + ChunkSize ==> !IsSentenceMark(c[k]) && c[k] != ' ') ==>
      WindowEnd(c, start) == start + ChunkSize
  {
    if start + ChunkSize < |c| {
      LastSentenceMarkSpec(c, start, start + ChunkSize);
      RFindSpec(c, ' ', start, start + ChunkSize);
    }
  }

  /** The trimmed text of the window [start, end), clipped to the text as Python slicing does. */
  function Piece(c: string, start: nat, end: nat): string
    requires start <= |c|
    requires start <= end
  {
    Strip(c[start..if end < |c| then end else |c|])
  }

  /** A piece is kept when it is longer than 20 characters. */
  function Collect(acc: seq<string>, piece: string): seq<string>
  {
    if |piece| > MinChunkLength then acc + [piece] else acc
  }

  /** Window ends as the loop meets them: each respects the bounds of `WindowEnd`. */
  predicate EndsFit(c: string, ends: nat -> nat)
  {
    forall s: nat :: s < |c| ==> s + MinCut < ends(s) <= s + ChunkSize
  }

  /** Pieces as the loop meets them: each is a trimmed window of the text at most 800 wide. */
  ghost predicate PiecesFit(c: string, pieces: nat -> string)
  {
    forall s: nat :: s < |c| ==> |pieces(s)| <= ChunkSize && IsWindowOf(c, pieces(s))
  }

  /** The end of the window starting at each position of the text. */
  function WindowEnds(c: string): nat -> nat
  {
    (s: nat) => if s < |c| then WindowEnd(c, s) else s + ChunkSize
  }

  /** The piece the window starting at each position of the text yields. */
  function Pieces(c: string): nat -> string
  {
    (s: nat) => if s < |c| then Piece(c, s, WindowEnd(c, s)) else ""
  }

  lemma WindowsOfTextFit(c: string)
    ensures EndsFit(c, WindowEnds(c)) && PiecesFit(c, Pieces(c))
  {
    forall s: nat | s < |c|
      ensures s + MinCut < WindowEnds(c)(s) <= s + ChunkSize
      ensures |Pieces(c)(s)| <= ChunkSize && IsWindowOf(c, Pieces(c)(s))
    {
      PieceIsWindow(c, s, WindowEnd(c, s));
    }
  }

  /**
   * The chunks collected from window `start` on, after `acc` was collected
   * before it, where `ends` and `pieces` give each window's end and piece.
   */
  function ChunksFrom(c: string, ends: nat -> nat, pieces: nat -> string, start: nat, acc: seq<string>): seq<string>
    requires EndsFit(c, ends)
    decreases |c| - start
  {
    if start >= |c| then acc
    else
      var acc' := Collect(acc, pieces(start));
      var next := ends(start) - ChunkOverlap;
      if next >= |c| || |acc'| > MaxChunksPerDocument then acc' else ChunksFrom(c, ends, pieces, next, acc')
  }

  /** One window of the loop, with the collected chunks and the next start named. */
  lemma ChunksFromUnfold(c: string, ends: nat -> nat, pieces: nat -> string, start: nat,
                         acc: seq<string>, acc': seq<string>, next: int)
    requires EndsFit(c, ends)
    requires start < |c|
    requires acc' == Collect(acc, pieces(start))
    requires next == ends(start) - ChunkOverlap
    ensures next > start
    ensures next >= |c| || |acc'| > MaxChunksPerDocument ==> ChunksFrom(c, ends, pieces, start, acc) == acc'
    ensures !(next >= |c| || |acc'| > MaxChunksPerDocument) ==>
      ChunksFrom(c, ends, pieces, start, acc) == ChunksFrom(c, ends, pieces, next, acc')
  {
  }

  /** `_split_into_chunks` as a value: no chunks for text shorter than 50 after trimming. */
  function Chunks(content: string): seq<string>
  {
    var c := Strip(content);
    if content == [] || |c| < MinTextLength then []
    else
      WindowsOfTextFit(c);
      ChunksFrom(c, WindowEnds(c), Pieces(c), 0, [])
  }

  /** A chunk is the trimmed text of a window of the text at most 800 wide. */
  ghost predicate IsWindowOf(c: string, x: string)
  {
    exists s: nat, e: nat :: s <= e <= |c| && e - s <= ChunkSize && x == Strip(c[s..e])
  }

  /** The imperative chunker: the loop of the document service. */
  method SplitIntoChunks(content: string) returns (chunks: seq<string>)
    ensures chunks == Chunks(content)
    ensures |Strip(content)| < MinTextLength ==> chunks == []
    ensures |chunks| <= MaxChunksPerDocument + 1
    ensures forall x :: x in chunks ==> IsKeptLength(x) && IsWindowOf(Strip(content), x)
    ensures |Strip(content)| >= MinTextLength ==>
      var starts := WindowStarts(Strip(content));
      exists m :: 1 <= m <= |starts| && chunks == KeptPieces(Strip(content), starts[..m])
        && (m < |starts| ==> |chunks| == MaxChunksPerDocument + 1)
  {
    var c := Strip(content);
    if content == [] || |c| < MinTextLength {
      return [];
    }
    chunks := [];
    ghost var ends, pieces := WindowEnds(c), Pieces(c);
    WindowsOfTextFit(c);
    var start := 0;
    while start < |c|
      invariant ChunksFrom(c, ends, pieces, start, chunks) == ChunksFrom(c, ends, pieces, 0, [])
      decreases |c| - start
    {
      var end := WindowEnd(c, start);
      assert end == ends(start);
      ghost var before := chunks;
      var piece := Strip(c[start..if end < |c| then end else |c|]);
      assert piece == pieces(start);
      if |piece| > MinChunkLength {
        chunks := chunks + [piece];
      }
      ghost var at := start;
      start := end - ChunkOverlap;
      ChunksFromUnfold(c, ends, pieces, at, before, chunks, start);
      if start >= |c| || |chunks| > MaxChunksPerDocument {
        break;
      }
    }
    ChunkProperties(content);
    ChunksInTextOrder(content);
  }

  /** Every window advances the start by at least 167 characters, so the loop terminates. */
  lemma WindowAdvances(c: string, start: nat)
    requires start < |c|
    ensures WindowEnd(c, start) - ChunkOverlap >= start + MinCut + 1 - ChunkOverlap
    ensures WindowEnd(c, start) - ChunkOverlap > start
  {
  }

  lemma PieceIsWindow(c: string, start: nat, end: nat)
    requires start <= |c| && start <= end <= start + ChunkSize
    ensures |Piece(c, start, end)| <= ChunkSize
    ensures IsWindowOf(c, Piece(c, start, end))
  {
    var e := if end < |c| then end else |c|;
    assert Piece(c, start, end) == Strip(c[start..e]);
  }

  /** A chunk the document service keeps: longer than 20 characters and at most a window wide. */
  predicate IsKeptLength(x: string)
  {
    MinChunkLength < |x| <= ChunkSize
  }

  lemma {:induction false} ChunksFromLengths(c: string, ends: nat -> nat, pieces: nat -> string, start: nat, acc: seq<string>)
    requires EndsFit(c, ends) && PiecesFit(c, pieces)
    requires |acc| <= MaxChunksPerDocument
    requires forall x :: x in acc ==> IsKeptLength(x)
    ensures |acc| <= |ChunksFrom(c, ends, pieces, start, acc)| <= MaxChunksPerDocument + 1
    ensures forall x :: x in ChunksFrom(c, ends, pieces, start, acc) ==> IsKeptLength(x)
    decreases |c| - start
  {
    if start < |c| {
      var acc' := Collect(acc, pieces(start));
      assert forall x :: x in acc' ==> x in acc || x == pieces(start);
      var next := ends(start) - ChunkOverlap;
      ChunksFromUnfold(c, ends, pieces, start, acc, acc', next);
      if !(next >= |c| || |acc'| > MaxChunksPerDocument) {
        ChunksFromLengths(c, ends, pieces, next, acc');
      }
    }
  }


  lemma {:induction false} ChunksFromWindows(c: string, ends: nat -> nat, pieces: nat -> string, start: nat, acc: seq<string>)
    requires EndsFit(c, ends) && PiecesFit(c, pieces)
    requires forall x :: x in acc ==> IsWindowOf(c, x)
    ensures forall x :: x in ChunksFrom(c, ends, pieces, start, acc) ==> IsWindowOf(c, x)
    decreases |c| - start
  {
    if start < |c| {
      var acc' := Collect(acc, pieces(start));
      assert forall x :: x in acc' ==> x in acc || x == pieces(start);
      var next := ends(start) - ChunkOverlap;
      ChunksFromUnfold(c, ends, pieces, start, acc, acc', next);
      if !(next >= |c| || |acc'| > MaxChunksPerDocument) {
        ChunksFromWindows(c, ends, pieces, next, acc');
      }
    }
  }


  /** Chunk bounds and the chunk cap: 20 < |chunk| <= 800, each a trimmed window, at most 101 chunks. */
  lemma ChunkProperties(content: string)
    ensures |Chunks(content)| <= MaxChunksPerDocument + 1
    ensures forall x :: x in Chunks(content) ==> IsKeptLength(x) && IsWindowOf(Strip(content), x)
  {
    var c := Strip(content);
    if !(content == [] || |c| < MinTextLength) {
      WindowsOfTextFit(c);
      ChunksFromLengths(c, WindowEnds(c), Pieces(c), 0, []);
      ChunksFromWindows(c, WindowEnds(c), Pieces(c), 0, []);
    }
  }

  // ---------------------------------------------------------------------
  // The windows in text order
  // ---------------------------------------------------------------------

  /**
   * The starts of the windows the loop reads from `start` on, where `ends`
   * gives each window's end, leaving the chunk cap aside: each next window
   * starts 100 characters before the previous one ends, until a start falls
   * at or past the end of the text.
   */
  function StartsFrom(c: string, ends: nat -> nat, start: nat): (r: seq<nat>)
    requires EndsFit(c, ends) && start < |c|
    ensures |r| >= 1 && r[0] == start
    decreases |c| - start
  {
    var next := ends(start) - ChunkOverlap;
    if next >= |c| then [start] else [start] + StartsFrom(c, ends, next)
  }

  /** The starts of all windows of the text, the first at 0. */
  function WindowStarts(c: string): seq<nat>
  {
    if c == [] then []
    else
      WindowsOfTextFit(c);
      StartsFrom(c, WindowEnds(c), 0)
  }

  predicate InText(c: string, starts: seq<nat>)
  {
    forall k :: 0 <= k < |starts| ==> starts[k] < |c|
  }

  /** `acc` followed by the pieces at `starts` long enough to keep, in the order of `starts`. */
  function KeptFrom(pieces: nat -> string, starts: seq<nat>, acc: seq<string>): seq<string>
  {
    if starts == [] then acc
    else KeptFrom(pieces, starts[1..], Collect(acc, pieces(starts[0])))
  }

  /** The pieces of the windows of `c` at `starts` long enough to keep, in the order of `starts`. */
  function KeptPieces(c: string, starts: seq<nat>): seq<string>
  {
    KeptFrom(Pieces(c), starts, [])
  }

  /** Position `p` lies in one of the windows at `starts`. */
  predicate Covered(ends: nat -> nat, starts: seq<nat>, p: nat)
  {
    exists k :: 0 <= k < |starts| && starts[k] <= p < ends(starts[k])
  }

  lemma {:induction false} StartsFromSteps(c: string, ends: nat -> nat, start: nat)
    requires EndsFit(c, ends) && start < |c|
    ensures var r := StartsFrom(c, ends, start);
      && InText(c, r)
      && (forall k :: 0 <= k < |r| - 1 ==> r[k + 1] == ends(r[k]) - ChunkOverlap && r[k] < r[k + 1])
      && ends(r[|r| - 1]) - ChunkOverlap >= |c|
    decreases |c| - start
  {
    var r := StartsFrom(c, ends, start);
    var next := ends(start) - ChunkOverlap;
    if next < |c| {
      StartsFromSteps(c, ends, next);
      var t := StartsFrom(c, ends, next);
      assert r == [start] + t;
      forall k | 0 <= k < |r| - 1
        ensures r[k + 1] == ends(r[k]) - ChunkOverlap && r[k] < r[k + 1]
      {
        if k > 0 {
          assert r[k] == t[k - 1] && r[k + 1] == t[k];
        }
      }
      assert r[|r| - 1] == t[|t| - 1];
    }
  }

  lemma {:induction false} StartsFromCovers(c: string, ends: nat -> nat, start: nat)
    requires EndsFit(c, ends) && start < |c|
    ensures forall p: nat :: start <= p < |c| ==> Covered(ends, StartsFrom(c, ends, start), p)
    decreases |c| - start
  {
    var r := StartsFrom(c, ends, start);
    var next := ends(start) - ChunkOverlap;
    forall p: nat | start <= p < |c| ensures Covered(ends, r, p) {
      if p < ends(start) {
        assert r[0] == start;
      } else {
        assert next < |c|;
        StartsFromCovers(c, ends, next);
        var t := StartsFrom(c, ends, next);
        assert r == [start] + t;
        assert Covered(ends, t, p);
        var k :| 0 <= k < |t| && t[k] <= p < ends(t[k]);
        assert r[k + 1] == t[k];
      }
    }
  }

  /**
   * The windows come in text order and cover it: the first starts at 0, each
   * next one starts exactly 100 characters before the previous one ends (so
   * the starts strictly increase and neighbours overlap), the last one runs
   * past the end of the text, and every position of the text lies in a window.
   */
  lemma WindowStartsSpec(c: string)
    requires c != []
    ensures var starts := WindowStarts(c);
      && |starts| >= 1 && starts[0] == 0 && InText(c, starts)
      && (forall k :: 0 <= k < |starts| - 1 ==>
            starts[k + 1] == WindowEnd(c, starts[k]) - ChunkOverlap && starts[k] < starts[k + 1])
      && WindowEnd(c, starts[|starts| - 1]) >= |c|
      && (forall p: nat :: p < |c| ==> Covered(WindowEnds(c), starts, p))
  {
    WindowsOfTextFit(c);
    StartsFromSteps(c, WindowEnds(c), 0);
    StartsFromCovers(c, WindowEnds(c), 0);
  }

  lemma {:induction false} ChunksFromStarts(c: string, ends: nat -> nat, pieces: nat -> string, start: nat, acc: seq<string>)
    returns (m: nat)
    requires EndsFit(c, ends) && start < |c| && |acc| <= MaxChunksPerDocument
    ensures var r := StartsFrom(c, ends, start); var out := ChunksFrom(c, ends, pieces, start, acc);
      && 1 <= m <= |r| && out == KeptFrom(pieces, r[..m], acc)
      && (m < |r| ==> |out| == MaxChunksPerDocument + 1)
    decreases |c| - start
  {
    var r := StartsFrom(c, ends, start);
    var acc' := Collect(acc, pieces(start));
    var next := ends(start) - ChunkOverlap;
    ChunksFromUnfold(c, ends, pieces, start, acc, acc', next);
    if next >= |c| || |acc'| > MaxChunksPerDocument {
      assert r[..1][1..] == [];
      m := 1;
    } else {
      var t := StartsFrom(c, ends, next);
      assert r == [start] + t;
      var m' := ChunksFromStarts(c, ends, pieces, next, acc');
      assert r[..m' + 1][0] == start && r[..m' + 1][1..] == t[..m'];
      m := m' + 1;
    }
  }

  /**
   * The chunks are the kept pieces of the windows, in text order: those of
   * every window, unless the cap stopped the loop once 101 chunks were
   * collected.
   */
  lemma ChunksInTextOrder(content: string)
    requires |Strip(content)| >= MinTextLength
    ensures var starts := WindowStarts(Strip(content));
      exists m :: 1 <= m <= |starts| && Chunks(content) == KeptPieces(Strip(content), starts[..m])
        && (m < |starts| ==> |Chunks(content)| == MaxChunksPerDocument + 1)
  {
    var c := Strip(content);
    WindowsOfTextFit(c);
    var m := ChunksFromStarts(c, WindowEnds(c), Pieces(c), 0, []);
    var starts := WindowStarts(c);
    assert content != [] && starts == StartsFrom(c, WindowEnds(c), 0);
    assert Chunks(content) == ChunksFrom(c, WindowEnds(c), Pieces(c), 0, []);
    assert Chunks(content) == KeptPieces(c, starts[..m]);
  }

  /** A trimmed text of 50 to 700 characters is returned whole as its one chunk. */
  lemma ShortTextIsOneChunk(content: string)
    requires MinTextLength <= |Strip(content)| <= ChunkSize - ChunkOverlap
    ensures Chunks(content) == [Strip(content)]
  {
    var c := Strip(content);
    StripIdempotent(content);
    assert c[0..|c|] == c;
    assert WindowEnd(c, 0) == ChunkSize;
  }

  /**
   * A trimmed text of 701 to 800 characters fits one window, yet the overlap
   * restarts the loop 100 characters before the window's end: the text's tail
   * from position 700 on comes back as a second chunk when it is long enough.
   */
  lemma NearlyFullWindowIsReadTwice(content: string)
    requires ChunkSize - ChunkOverlap < |Strip(content)| <= ChunkSize
    ensures var c := Strip(content); var tail := Strip(c[ChunkSize - ChunkOverlap..]);
      Chunks(content) == [c] + if |tail| > MinChunkLength then [tail] else []
  {
    var c := Strip(content);
    StripIdempotent(content);
    assert c[0..|c|] == c;
    assert WindowEnd(c, 0) == ChunkSize;
    assert Piece(c, 0, ChunkSize) == c;
    var next := ChunkSize - ChunkOverlap;
    var ends, pieces := WindowEnds(c), Pieces(c);
    WindowsOfTextFit(c);
    assert ends(0) == ChunkSize;
    assert pieces(0) == c;
    ChunksFromUnfold(c, ends, pieces, 0, [], [c], next);
    assert WindowEnd(c, next) == next + ChunkSize;
    assert ends(next) == next + ChunkSize;
    assert pieces(next) == Strip(c[next..]);
    assert c[next..|c|] == c[next..];
    assert Piece(c, next, next + ChunkSize) == Strip(c[next..]);
  }

  // ---------------------------------------------------------------------
  // File types
  // ---------------------------------------------------------------------

  datatype DocumentType = PDF | DOCX | TXT | XLSX | XLS

  const ValidExtensions: seq<string> := [".pdf", ".docx", ".txt", ".xlsx", ".xls"]

  /** `_is_valid_file_type`: the lower-cased name ends with one of the five extensions. */
  predicate IsValidFileType(fileName: string)
  {
    exists ext :: ext in ValidExtensions && EndsWith(Lower(fileName), ext)
  }

  lemma EndsWithAt(n: string, p: string, k: nat)
    requires EndsWith(n, p) && k < |p|
    ensures n[|n| - |p| + k] == p[k]
  {
    assert n[|n| - |p| + k] == n[|n| - |p|..][k];
  }

  /** The five suffixes exclude one another (".xlsx" does not end in ".xls"). */
  lemma SuffixesExclusive(n: string)
    ensures EndsWith(n, ".pdf") ==> n[|n| - 1] == 'f'
    ensures EndsWith(n, ".txt") ==> n[|n| - 1] == 't'
    ensures EndsWith(n, ".xls") ==> n[|n| - 1] == 's'
    ensures EndsWith(n, ".docx") ==> n[|n| - 1] == 'x' && n[|n| - 4] == 'd'
    ensures EndsWith(n, ".xlsx") ==> n[|n| - 1] == 'x' && n[|n| - 4] == 'x'
  {
    if EndsWith(n, ".pdf") { EndsWithAt(n, ".pdf", 3); }
    if EndsWith(n, ".txt") { EndsWithAt(n, ".txt", 3); }
    if EndsWith(n, ".xls") { EndsWithAt(n, ".xls", 3); }
    if EndsWith(n, ".docx") { EndsWithAt(n, ".docx", 4); EndsWithAt(n, ".docx", 1); }
    if EndsWith(n, ".xlsx") { EndsWithAt(n, ".xlsx", 4); EndsWithAt(n, ".xlsx", 1); }
  }

  /** `_get_document_type`: the type named by the suffix, TXT when no suffix matches. */
  function GetDocumentType(fileName: string): (t: DocumentType)
    ensures t == PDF <==> EndsWith(Lower(fileName), ".pdf")
    ensures t == DOCX <==> EndsWith(Lower(fileName), ".docx")
    ensures t == XLSX <==> EndsWith(Lower(fileName), ".xlsx")
    ensures t == XLS <==> EndsWith(Lower(fileName), ".xls")
    ensures t == TXT <==> !EndsWith(Lower(fileName), ".pdf") && !EndsWith(Lower(fileName), ".docx")
                          && !EndsWith(Lower(fileName), ".xlsx") && !EndsWith(Lower(fileName), ".xls")
  {
    var n := Lower(fileName);
    SuffixesExclusive(n);
    if EndsWith(n, ".pdf") then PDF
    else if EndsWith(n, ".docx") then DOCX
    else if EndsWith(n, ".txt") then TXT
    else if EndsWith(n, ".xlsx") then XLSX
    else if EndsWith(n, ".xls") then XLS
    else TXT
  }

  /** A valid upload whose type comes out TXT is a ".txt" file. */
  lemma ValidTxtIsTxtSuffix(fileName: string)
    requires IsValidFileType(fileName) && GetDocumentType(fileName) == TXT
    ensures EndsWith(Lower(fileName), ".txt")
  {
    var ext :| ext in ValidExtensions && EndsWith(Lower(fileName), ext);
  }
}
