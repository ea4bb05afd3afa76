/**
 * The spreadsheet-aware layer over the document service: the text sent for
 * embedding of a spreadsheet chunk, the ingestion fold for spreadsheet
 * documents with its processing statistics, the spreadsheet relevance score
 * of a search result and the re-ranking search built on it.
 */
module EnhancedDocuments {
  import opened Text
  import opened Ranking
  import opened DocumentChunking
  import opened ExcelChunks
  import opened DocumentStore
  import opened DocumentSearch

  const SpreadsheetPrefix: string := "Excel spreadsheet data:\n"
  const TabularPrefix: string := "Tabular data from Excel file:\n"
  const MaxEmbeddingLength: nat := 8000
  const WorksheetWord: string := "WORKSHEET"

  // ---------------------------------------------------------------------
  // The text embedded for a spreadsheet chunk
  // ---------------------------------------------------------------------

  /** A context line chosen by whether the text carries worksheet markers, then the text, cut to 8000 characters. */
  function PrepareExcelContentForEmbedding(content: string): (r: string)
  {
    var prepared := (if Contains(content, WorksheetWord) then SpreadsheetPrefix else TabularPrefix) + content;
    if |prepared| > MaxEmbeddingLength then prepared[..MaxEmbeddingLength] else prepared
  }

  /**
   * The prepared text never exceeds 8000 characters, is a prefix of the
   * context line followed by the content, keeps as much of it as fits, and
   * opens with the spreadsheet line exactly when the content mentions
   * "WORKSHEET".
   */
  lemma PrepareSpec(content: string)
    ensures var r := PrepareExcelContentForEmbedding(content);
      var line := if Contains(content, WorksheetWord) then SpreadsheetPrefix else TabularPrefix;
      && |r| <= MaxEmbeddingLength
      && StartsWith(line + content, r)
      && |r| == (if |line| + |content| > MaxEmbeddingLength then MaxEmbeddingLength else |line| + |content|)
      && (StartsWith(r, SpreadsheetPrefix) <==> Contains(content, WorksheetWord))
      && StartsWith(r, line)
  {
    var r := PrepareExcelContentForEmbedding(content);
    var line := if Contains(content, WorksheetWord) then SpreadsheetPrefix else TabularPrefix;
    assert r[..|line|] == (line + content)[..|line|] == line;
    if !Contains(content, WorksheetWord) {
      assert r[0] == 'T' != SpreadsheetPrefix[0];
    }
  }

  // ---------------------------------------------------------------------
  // The spreadsheet ingestion fold
  // ---------------------------------------------------------------------

  /** The counts the fold records on the document. */
  datatype ProcessingStats = ProcessingStats(totalChunksCreated: nat, successfulEmbeddings: nat)

  /** The embedding of a spreadsheet chunk is computed on its prepared text. */
  function PreparedEmbedder(embed: string -> seq<real>): string -> seq<real>
  {
    (s: string) => embed(PrepareExcelContentForEmbedding(s))
  }

  /** The records the spreadsheet fold stores. */
  function ExcelIngested(docId: nat, workspaceId: string, fileName: string, content: string, embed: string -> seq<real>): seq<ChunkRecord>
  {
    var cands := Capped(ChunkCandidates(XLSX, fileName, content));
    Stored(docId, workspaceId, cands, PreparedEmbedder(embed), WordCount, |cands|)
  }

  /** The embedding loop: each non-blank candidate whose prepared text gets a vector is stored, and counted. */
  method StoreExcelChunks(docId: nat, workspaceId: string, cands: seq<Candidate>, embed: string -> seq<real>)
    returns (stored: seq<ChunkRecord>, successful: nat)
    ensures stored == Stored(docId, workspaceId, cands, PreparedEmbedder(embed), WordCount, |cands|)
    ensures successful == |stored|
  {
    stored := [];
    successful := 0;
    for i := 0 to |cands|
      invariant stored == Stored(docId, workspaceId, cands, PreparedEmbedder(embed), WordCount, i)
      invariant successful == |stored|
    {
      var c := cands[i];
      if !IsBlank(c.content) {
        var e := embed(PrepareExcelContentForEmbedding(c.content));
        assert e == PreparedEmbedder(embed)(c.content);
        if e != [] {
          stored := stored + [ChunkRecord(docId, workspaceId, c.content, i, e, WordCount(c.content), |c.content|, c.meta)];
          successful := successful + 1;
        }
      }
    }
  }

  /**
   * `_process_excel_chunks`: the spreadsheet re-chunker, capped at 100 chunks,
   * then the embedding loop.  The chunk count and the successful-embedding
   * count are the number stored; the created count is the number after capping.
   */
  method ProcessExcelChunks(docId: nat, workspaceId: string, fileName: string, content: string, embed: string -> seq<real>)
    returns (stored: seq<ChunkRecord>, chunkCount: nat, stats: ProcessingStats)
    ensures stored == ExcelIngested(docId, workspaceId, fileName, content, embed)
    ensures chunkCount == |stored| == stats.successfulEmbeddings
    ensures stats.totalChunksCreated == |Capped(ChunkCandidates(XLSX, fileName, content))| <= MaxChunksPerDocument
  {
    var all := ChunkDocument(XLSX, fileName, content);
    var cands := all;
    if |cands| > MaxChunksPerDocument {
      cands := cands[..MaxChunksPerDocument];
    }
    assert cands == Capped(all);
    var successful;
    stored, successful := StoreExcelChunks(docId, workspaceId, cands, embed);
    chunkCount := |stored|;
    stats := ProcessingStats(|cands|, successful);
  }

  /** Every record of the spreadsheet fold is a chunk of the capped list, embedded from its prepared text; at most 100, in order. */
  lemma ExcelIngestedSpec(docId: nat, workspaceId: string, fileName: string, content: string, embed: string -> seq<real>)
    ensures var cands := Capped(ChunkCandidates(XLSX, fileName, content));
      var r := ExcelIngested(docId, workspaceId, fileName, content, embed);
      && |r| <= MaxChunksPerDocument
      && (forall k :: 0 <= k < |r| ==> RecordOf(docId, workspaceId, cands, PreparedEmbedder(embed), WordCount, r[k])
                                        && r[k].embedding == embed(PrepareExcelContentForEmbedding(r[k].content)))
      && IndicesIncrease(r)
  {
    var cands := Capped(ChunkCandidates(XLSX, fileName, content));
    StoredSound(docId, workspaceId, cands, PreparedEmbedder(embed), WordCount, |cands|);
    StoredOrdered(docId, workspaceId, cands, PreparedEmbedder(embed), WordCount, |cands|);
  }

  /** The service's dispatch: spreadsheets take the spreadsheet fold, everything else the base fold. */
  method EnhancedProcessDocumentChunks(docId: nat, workspaceId: string, docType: DocumentType, fileName: string,
                                       content: string, embed: string -> seq<real>) returns (stored: seq<ChunkRecord>)
    ensures IsExcelType(docType) ==> stored == ExcelIngested(docId, workspaceId, fileName, content, embed)
    ensures !IsExcelType(docType) ==> stored == Ingested(docId, workspaceId, docType, fileName, content, embed)
  {
    if docType == XLSX || docType == XLS {
      var count, stats;
      stored, count, stats := ProcessExcelChunks(docId, workspaceId, fileName, content, embed);
    } else {
      stored := ProcessDocumentChunks(docId, workspaceId, docType, fileName, content, embed);
    }
  }

  // ---------------------------------------------------------------------
  // Spreadsheet relevance of a search result
  // ---------------------------------------------------------------------

  /** The metadata keys the score reads, with the defaults a plain-text chunk falls back to. */
  function WorksheetInfoOf(m: ChunkMeta): string
  {
    match m
    case Standard => ""
    case ExcelData(c) => c.worksheetInfo
  }

  predicate HasHeadersOf(m: ChunkMeta) { m.ExcelData? && m.chunk.hasHeaders }

  function RowCountOf(m: ChunkMeta): nat { if m.ExcelData? then m.chunk.rowCount else 0 }

  /** One chunk's contribution: 0.3 for a worksheet line holding the query, 0.2 for headers, 0.1 for more than 5 rows. */
  function ChunkScore(c: ChunkRecord, queryLower: string): (s: real)
    ensures 0.0 <= s <= 0.6
  {
    (if Contains(Lower(WorksheetInfoOf(c.meta)), queryLower) then 0.3 else 0.0)
    + (if HasHeadersOf(c.meta) then 0.2 else 0.0)
    + (if RowCountOf(c.meta) > 5 then 0.1 else 0.0)
  }

  /** The contributions of the first `n` chunks, summed. */
  function RawExcelScore(chunks: seq<ChunkRecord>, queryLower: string, n: nat): real
    requires n <= |chunks|
  {
    if n == 0 then 0.0 else RawExcelScore(chunks, queryLower, n - 1) + ChunkScore(chunks[n - 1], queryLower)
  }

  function Min1(x: real): real { if x < 1.0 then x else 1.0 }

  /** The score of a result's chunks: the contributions summed and capped at 1. */
  function ExcelRelevance(chunks: seq<ChunkRecord>, query: string): real
  {
    Min1(RawExcelScore(chunks, Lower(query), |chunks|))
  }

  /** The sum never goes below 0 nor above 0.6 per chunk. */
  lemma {:induction false} RawExcelScoreBounds(chunks: seq<ChunkRecord>, queryLower: string, n: nat)
    requires n <= |chunks|
    ensures 0.0 <= RawExcelScore(chunks, queryLower, n) <= 0.6 * (n as real)
  {
    if n > 0 {
      RawExcelScoreBounds(chunks, queryLower, n - 1);
    }
  }

  /** The score lies in [0, 1], and a single chunk can give at most 0.6. */
  lemma ExcelRelevanceBounds(chunks: seq<ChunkRecord>, query: string)
    ensures 0.0 <= ExcelRelevance(chunks, query) <= 1.0
    ensures |chunks| <= 1 ==> ExcelRelevance(chunks, query) <= 0.6
  {
    RawExcelScoreBounds(chunks, Lower(query), |chunks|);
  }

  /** `_calculate_excel_relevance`, reading each chunk's metadata. */
  method CalculateExcelRelevance(chunks: seq<ChunkRecord>, query: string) returns (score: real)
    ensures score == ExcelRelevance(chunks, query)
    ensures 0.0 <= score <= 1.0
  {
    score := 0.0;
    var queryLower := Lower(query);
    for i := 0 to |chunks|
      invariant score == RawExcelScore(chunks, queryLower, i)
    {
      var meta := chunks[i].meta;
      var infoLower := Lower(WorksheetInfoOf(meta));
      if Contains(infoLower, queryLower) {
        score := score + 0.3;
      }
      if HasHeadersOf(meta) {
        score := score + 0.2;
      }
      if RowCountOf(meta) > 5 {
        score := score + 0.1;
      }
    }
    ExcelRelevanceBounds(chunks, query);
    score := Min1(score);
  }

  // ---------------------------------------------------------------------
  // The spreadsheet search
  // ---------------------------------------------------------------------

  const ExcelThreshold: real := 0.6
  const BaseWeight: real := 0.7
  const ExcelWeight: real := 0.3

  /** The base search request: twice the results, threshold 0.6, spreadsheet documents only. */
  function ExcelRequest(query: string, workspaceId: string, limit: int): SearchRequest
  {
    SearchRequest(query, workspaceId, limit * 2, ExcelThreshold, [XLSX, XLS], [])
  }

  function Reranked(r: SearchResult, query: string): SearchResult
  {
    r.(relevanceScore := r.relevanceScore * BaseWeight + ExcelRelevance(r.chunks, query) * ExcelWeight)
  }

  /** The base results with their relevance re-weighted, in the base order. */
  function RerankedAll(results: seq<SearchResult>, query: string, n: nat): (r: seq<SearchResult>)
    requires n <= |results|
    ensures |r| == n
    ensures forall i :: 0 <= i < n ==> r[i] == Reranked(results[i], query)
  {
    if n == 0 then [] else RerankedAll(results, query, n - 1) + [Reranked(results[n - 1], query)]
  }

  /** `search_excel_content` with the intended metadata reads. */
  function SearchExcel(documents: map<nat, Document>, chunks: seq<ChunkRecord>, query: string, workspaceId: string, limit: int,
                       queryEmbedding: seq<real>, sim: ChunkRecord -> Option<real>): seq<SearchResult>
  {
    var base := Search(documents, chunks, ExcelRequest(query, workspaceId, limit), queryEmbedding, sim, ChunkKey);
    Take(SortDesc(RerankedAll(base, query, |base|), RelevanceOf), limit)
  }

  /** Each result's relevance overwritten by 0.7 of itself plus 0.3 of its spreadsheet score, in order. */
  method RerankResults(base: seq<SearchResult>, query: string) returns (enhanced: seq<SearchResult>)
    ensures enhanced == RerankedAll(base, query, |base|)
  {
    enhanced := [];
    for i := 0 to |base|
      invariant enhanced == RerankedAll(base, query, i)
    {
      var result := base[i];
      var excelScore := CalculateExcelRelevance(result.chunks, query);
      var reranked := result.(relevanceScore := result.relevanceScore * BaseWeight + excelScore * ExcelWeight);
      assert reranked == Reranked(base[i], query);
      enhanced := enhanced + [reranked];
    }
  }

  /** `search_excel_content`: the base search, re-weighted, then sorted and cut to `limit`. */
  method SearchExcelContent(documents: map<nat, Document>, chunks: seq<ChunkRecord>, query: string, workspaceId: string, limit: int,
                            queryEmbedding: seq<real>, sim: ChunkRecord -> Option<real>)
    returns (results: seq<SearchResult>)
    ensures results == SearchExcel(documents, chunks, query, workspaceId, limit, queryEmbedding, sim)
  {
    var base := SearchDocuments(documents, chunks, ExcelRequest(query, workspaceId, limit), queryEmbedding, sim);
    var enhanced := RerankResults(base, query);
    results := Take(SortDesc(enhanced, RelevanceOf), limit);
  }

  /** A spreadsheet result: a ready xlsx/xls document of the store, up to five chunks, a re-weighted relevance. */
  predicate ExcelResult(documents: map<nat, Document>, workspaceId: string, r: SearchResult)
  {
    && r.document.id in documents
    && r.document == documents[r.document.id].(workspaceId := workspaceId)
    && r.document.status == Ready
    && (r.document.documentType == XLSX || r.document.documentType == XLS)
    && 1 <= |r.chunks| <= ChunksPerResult
    && ExcelThreshold <= r.similarityScore
    && (r.similarityScore * MaxWeight + ExcelThreshold * MeanWeight) * BaseWeight <= r.relevanceScore
    && r.relevanceScore <= r.similarityScore * BaseWeight + ExcelWeight
  }

  /** A good base result stays a spreadsheet result after re-weighting. */
  lemma RerankedGood(documents: map<nat, Document>, chunks: seq<ChunkRecord>, query: string, workspaceId: string, limit: int, x: SearchResult)
    requires GoodResult(documents, chunks, ExcelRequest(query, workspaceId, limit), x)
    ensures ExcelResult(documents, workspaceId, Reranked(x, query))
  {
    ExcelRelevanceBounds(x.chunks, query);
  }

  /** Re-weighting keeps each result's document, so good, distinct base results give spreadsheet results with distinct documents. */
  lemma RerankedAllGood(documents: map<nat, Document>, chunks: seq<ChunkRecord>, query: string, workspaceId: string, limit: int,
                        base: seq<SearchResult>)
    requires forall x :: x in base ==> GoodResult(documents, chunks, ExcelRequest(query, workspaceId, limit), x)
    requires forall i, j :: 0 <= i < j < |base| ==> base[i].document.id != base[j].document.id
    ensures var r := RerankedAll(base, query, |base|);
      && (forall x :: x in r ==> ExcelResult(documents, workspaceId, x))
      && (forall i, j :: 0 <= i < j < |r| ==> r[i].document.id != r[j].document.id)
  {
    var r := RerankedAll(base, query, |base|);
    forall x | x in r ensures ExcelResult(documents, workspaceId, x) {
      var i :| 0 <= i < |r| && r[i] == x;
      assert base[i] in base;
      RerankedGood(documents, chunks, query, workspaceId, limit, base[i]);
    }
  }

  /**
   * What the spreadsheet search promises: results sorted by the re-weighted
   * relevance, at most `limit`, each a ready spreadsheet of the store, and no
   * document twice; they are the base results re-weighted, the `limit` most
   * relevant of them kept.
   */
  lemma SearchExcelSpec(documents: map<nat, Document>, chunks: seq<ChunkRecord>, query: string, workspaceId: string, limit: int,
                        queryEmbedding: seq<real>, sim: ChunkRecord -> Option<real>)
    requires forall id :: id in documents ==> documents[id].id == id
    ensures var r := SearchExcel(documents, chunks, query, workspaceId, limit, queryEmbedding, sim);
      && SortedDesc(r, RelevanceOf)
      && (limit >= 0 ==> |r| <= limit)
      && (forall x :: x in r ==> ExcelResult(documents, workspaceId, x))
      && (forall i, j :: 0 <= i < j < |r| ==> r[i].document.id != r[j].document.id)
      && var base := Search(documents, chunks, ExcelRequest(query, workspaceId, limit), queryEmbedding, sim, ChunkKey);
         && (forall x :: x in r ==> exists b :: b in base && x == Reranked(b, query))
         && (forall b :: b in base ==> KeptOrOutranked(r, Reranked(b, query), limit))
  {
    var req := ExcelRequest(query, workspaceId, limit);
    var base := Search(documents, chunks, req, queryEmbedding, sim, ChunkKey);
    SearchSpec(documents, chunks, req, queryEmbedding, sim);
    RerankedAllGood(documents, chunks, query, workspaceId, limit, base);
    SortAndCut(RerankedAll(base, query, |base|), limit, x => ExcelResult(documents, workspaceId, x));
    RerankedCut(base, query, limit);
  }

  /** The re-weighted results cut to `limit` are re-weighted base results, and leave out only ones every kept result outranks. */
  lemma RerankedCut(base: seq<SearchResult>, query: string, limit: int)
    ensures var r := Take(SortDesc(RerankedAll(base, query, |base|), RelevanceOf), limit);
      && (forall x :: x in r ==> exists b :: b in base && x == Reranked(b, query))
      && (forall b :: b in base ==> KeptOrOutranked(r, Reranked(b, query), limit))
  {
    var all := RerankedAll(base, query, |base|);
    CutKeepsBest(all, limit);
    forall x | x in all ensures exists b :: b in base && x == Reranked(b, query) {
      var i :| 0 <= i < |all| && all[i] == x;
      assert base[i] in base;
    }
    forall b | b in base ensures Reranked(b, query) in all {
      var i :| 0 <= i < |base| && base[i] == b;
      assert all[i] == Reranked(b, query);
    }
  }

  /**
   * The spreadsheet search finds something exactly when something is there:
   * with a query embedding, a well-formed workspace id and a positive limit,
   * the results are empty exactly when no stored chunk passes every test of
   * the base request.
   */
  lemma SearchExcelFindsResults(documents: map<nat, Document>, chunks: seq<ChunkRecord>, query: string, workspaceId: string, limit: int,
                                queryEmbedding: seq<real>, sim: ChunkRecord -> Option<real>)
    requires forall id :: id in documents ==> documents[id].id == id
    requires queryEmbedding != [] && IsObjectId(workspaceId) && limit >= 1
    ensures SearchExcel(documents, chunks, query, workspaceId, limit, queryEmbedding, sim) != [] <==>
      exists c, h :: c in chunks && IsHitFor(documents, ExcelRequest(query, workspaceId, limit), sim, c, h)
  {
    SearchFindsResults(documents, chunks, ExcelRequest(query, workspaceId, limit), queryEmbedding, sim);
  }

  // ---------------------------------------------------------------------
  // The relevance helper as written
  // ---------------------------------------------------------------------

  /**
   * The helper as written calls `.get` on each chunk of the result; the chunks
   * of a search result are model objects without that method, so the first
   * chunk raises.  `None` stands for the raised error.
   */
  function ExcelRelevanceAsWritten(chunks: seq<ChunkRecord>, query: string): Option<real>
  {
    if chunks == [] then Some(0.0) else None
  }

  /** The re-ranking as written: an error raised for any result ends the search with no results. */
  function RerankAsWritten(base: seq<SearchResult>, query: string, limit: int): seq<SearchResult>
  {
    if exists i :: 0 <= i < |base| && ExcelRelevanceAsWritten(base[i].chunks, query).None? then []
    else Take(SortDesc(RerankedAll(base, query, |base|), RelevanceOf), limit)
  }

  /** The search as written. */
  function SearchExcelAsWritten(documents: map<nat, Document>, chunks: seq<ChunkRecord>, query: string, workspaceId: string, limit: int,
                                queryEmbedding: seq<real>, sim: ChunkRecord -> Option<real>): seq<SearchResult>
  {
    RerankAsWritten(Search(documents, chunks, ExcelRequest(query, workspaceId, limit), queryEmbedding, sim, ChunkKey), query, limit)
  }

  /** Base results that all carry chunks are all lost by the re-ranking as written. */
  lemma RerankAsWrittenIsEmpty(base: seq<SearchResult>, query: string, limit: int)
    requires forall x :: x in base ==> x.chunks != []
    ensures RerankAsWritten(base, query, limit) == []
  {
    if base != [] {
      assert base[0] in base;
      assert ExcelRelevanceAsWritten(base[0].chunks, query).None?;
    }
  }

  /** As written, the spreadsheet search returns nothing even when the base search finds results. */
  lemma SearchExcelAsWrittenIsEmpty(documents: map<nat, Document>, chunks: seq<ChunkRecord>, query: string, workspaceId: string, limit: int,
                                    queryEmbedding: seq<real>, sim: ChunkRecord -> Option<real>)
    requires forall id :: id in documents ==> documents[id].id == id
    ensures SearchExcelAsWritten(documents, chunks, query, workspaceId, limit, queryEmbedding, sim) == []
  {
    var req := ExcelRequest(query, workspaceId, limit);
    SearchSpec(documents, chunks, req, queryEmbedding, sim);
    RerankAsWrittenIsEmpty(Search(documents, chunks, req, queryEmbedding, sim, ChunkKey), query, limit);
  }
}
