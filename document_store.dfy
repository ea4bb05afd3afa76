/**
 * The document service's store: the ingestion fold that turns a document's
 * text into stored chunks with embeddings, the upload lifecycle
 * (processing, then ready or error), the access counter, metadata updates
 * and the cascading delete.  The two database collections are fields of a
 * class: documents keyed by their id, and the chunk collection as a
 * sequence in insertion order.  The embedding provider is a function
 * parameter that may return an empty vector.
 */
module DocumentStore {
  import opened Text
  import opened DocumentChunking
  import opened ExcelChunks

  /** The default of the configured upload limit, 10 MiB. */
  const DefaultMaxFileSize: nat := 10 * 1024 * 1024
  const MinDocumentContent: nat := 10
  const UploadFailure: string := "Failed to upload document"

  datatype DocumentStatus = Processing | Ready | Error

  datatype Document = Document(
    id: nat,
    workspaceId: string,
    title: string,
    fileName: string,
    documentType: DocumentType,
    content: string,
    fileSize: nat,
    status: DocumentStatus,
    tags: seq<string>,
    description: Option<string>,
    chunkCount: nat,
    accessCount: nat,
    lastAccessed: Option<int>,
    updatedAt: int)

  /** The metadata a chunk carries besides its counts: plain text, or the spreadsheet chunk it came from. */
  datatype ChunkMeta = Standard | ExcelData(chunk: ExcelChunk)

  /** A chunk before embedding: its text and metadata. */
  datatype Candidate = Candidate(content: string, meta: ChunkMeta)

  /** A stored chunk. */
  datatype ChunkRecord = ChunkRecord(
    documentId: nat,
    workspaceId: string,
    content: string,
    chunkIndex: nat,
    embedding: seq<real>,
    wordCount: nat,
    charCount: nat,
    meta: ChunkMeta)

  // ---------------------------------------------------------------------
  // Word count (Python's len(s.split()))
  // ---------------------------------------------------------------------

  /** Python's `len(s.split())`. */
  function WordCount(s: string): (n: nat)
    ensures n <= |s|
  {
    |Words(s)|
  }

  /** A string has a word exactly when it is not blank. */
  lemma WordCountBlank(s: string)
    ensures WordCount(s) == 0 <==> IsBlank(s)
  {
    WordsBlank(s);
  }

  // ---------------------------------------------------------------------
  // The ingestion fold (`_process_document_chunks`)
  // ---------------------------------------------------------------------

  predicate IsExcelType(t: DocumentType) { t == XLSX || t == XLS }

  /** The chunker a document type selects: the spreadsheet re-chunker, or the text chunker as "standard". */
  function ChunkCandidates(docType: DocumentType, fileName: string, content: string): seq<Candidate>
  {
    if IsExcelType(docType) then
      var cs := ExcelChunks.ExcelChunks(content, fileName);
      seq(|cs|, i requires 0 <= i < |cs| => Candidate(cs[i].content, ExcelData(cs[i])))
    else
      var cs := DocumentChunking.Chunks(content);
      seq(|cs|, i requires 0 <= i < |cs| => Candidate(cs[i], Standard))
  }

  /** At most the first 100 candidates are processed. */
  function Capped(cands: seq<Candidate>): (r: seq<Candidate>)
    ensures |r| <= MaxChunksPerDocument
    ensures r <= cands
    ensures |cands| <= MaxChunksPerDocument ==> r == cands
  {
    if |cands| > MaxChunksPerDocument then cands[..MaxChunksPerDocument] else cands
  }

  /**
   * The record stored for candidate `i`, when its text is not blank and its
   * embedding is not empty.  `count` is the word counter; the service's is
   * `WordCount`, and the fold's lemmas hold for any counter.
   */
  function StoreOne(docId: nat, workspaceId: string, i: nat, c: Candidate, embed: string -> seq<real>, count: string -> nat): seq<ChunkRecord>
  {
    if IsBlank(c.content) then []
    else
      var e := embed(c.content);
      if e == [] then []
      else [ChunkRecord(docId, workspaceId, c.content, i, e, count(c.content), |c.content|, c.meta)]
  }

  /** The records stored for the first `n` candidates. */
  function Stored(docId: nat, workspaceId: string, cands: seq<Candidate>, embed: string -> seq<real>, count: string -> nat, n: nat): seq<ChunkRecord>
    requires n <= |cands|
  {
    if n == 0 then [] else Stored(docId, workspaceId, cands, embed, count, n - 1) + StoreOne(docId, workspaceId, n - 1, cands[n - 1], embed, count)
  }

  /** The records ingestion stores for a document. */
  function Ingested(docId: nat, workspaceId: string, docType: DocumentType, fileName: string,
                    content: string, embed: string -> seq<real>): seq<ChunkRecord>
  {
    var cands := Capped(ChunkCandidates(docType, fileName, content));
    Stored(docId, workspaceId, cands, embed, WordCount, |cands|)
  }

  /** The chunker a document type selects, run. */
  method ChunkDocument(docType: DocumentType, fileName: string, content: string) returns (cands: seq<Candidate>)
    ensures cands == ChunkCandidates(docType, fileName, content)
  {
    if docType == XLSX || docType == XLS {
      var cs := CreateExcelChunks(content, fileName);
      cands := seq(|cs|, i requires 0 <= i < |cs| => Candidate(cs[i].content, ExcelData(cs[i])));
    } else {
      var cs := SplitIntoChunks(content);
      cands := seq(|cs|, i requires 0 <= i < |cs| => Candidate(cs[i], Standard));
    }
  }

  /** The loop over the first 100 candidates: embed each non-blank one, keep those that got a vector. */
  method StoreChunks(docId: nat, workspaceId: string, all: seq<Candidate>, embed: string -> seq<real>) returns (stored: seq<ChunkRecord>)
    ensures stored == Stored(docId, workspaceId, Capped(all), embed, WordCount, |Capped(all)|)
  {
    var cands := all;
    if |cands| > MaxChunksPerDocument {
      cands := cands[..MaxChunksPerDocument];
    }
    stored := [];
    for i := 0 to |cands|
      invariant stored == Stored(docId, workspaceId, cands, embed, WordCount, i)
    {
      var c := cands[i];
      if !IsBlank(c.content) {
        var e := embed(c.content);
        if e != [] {
          stored := stored + [ChunkRecord(docId, workspaceId, c.content, i, e, WordCount(c.content), |c.content|, c.meta)];
        }
      }
    }
  }

  /** `_process_document_chunks`: chunk by document type, cap at 100, embed and keep. */
  method ProcessDocumentChunks(docId: nat, workspaceId: string, docType: DocumentType, fileName: string,
                               content: string, embed: string -> seq<real>) returns (stored: seq<ChunkRecord>)
    ensures stored == Ingested(docId, workspaceId, docType, fileName, content, embed)
  {
    var cands := ChunkDocument(docType, fileName, content);
    stored := StoreChunks(docId, workspaceId, cands, embed);
  }

  /** A record is the embedded form of the candidate at its index. */
  predicate RecordOf(docId: nat, workspaceId: string, cands: seq<Candidate>, embed: string -> seq<real>, count: string -> nat, r: ChunkRecord)
  {
    r.chunkIndex < |cands| && r.documentId == docId && r.workspaceId == workspaceId
    && r.content == cands[r.chunkIndex].content && r.meta == cands[r.chunkIndex].meta
    && !IsBlank(r.content) && r.embedding == embed(r.content) && r.embedding != []
    && r.charCount == |r.content| && r.wordCount == count(r.content)
  }

  /** Whether candidate `i` is stored: its text is not blank and its embedding is not empty. */
  predicate Embeddable(c: Candidate, embed: string -> seq<real>)
  {
    !IsBlank(c.content) && embed(c.content) != []
  }

  /** One candidate gives at most one record, made from it. */
  lemma StoreOneIndex(docId: nat, workspaceId: string, i: nat, c: Candidate, embed: string -> seq<real>, count: string -> nat)
    ensures |StoreOne(docId, workspaceId, i, c, embed, count)| <= 1
    ensures forall r :: r in StoreOne(docId, workspaceId, i, c, embed, count) ==> r.chunkIndex == i
  {
  }

  /** The records made from the first `n` candidates carry indices below `n`. */
  lemma {:induction false} StoredIndices(docId: nat, workspaceId: string, cands: seq<Candidate>, embed: string -> seq<real>, count: string -> nat, n: nat)
    requires n <= |cands|
    ensures forall r :: r in Stored(docId, workspaceId, cands, embed, count, n) ==> r.chunkIndex < n
  {
    if n > 0 {
      StoredIndices(docId, workspaceId, cands, embed, count, n - 1);
      StoreOneIndex(docId, workspaceId, n - 1, cands[n - 1], embed, count);
      var prev := Stored(docId, workspaceId, cands, embed, count, n - 1);
      var one := StoreOne(docId, workspaceId, n - 1, cands[n - 1], embed, count);
      var r := Stored(docId, workspaceId, cands, embed, count, n);
      assert r == prev + one;
      assert forall x :: x in r ==> x in prev || x in one;
    }
  }

  /** Every record in `r` is the embedded form of a candidate with index in `[lo, hi)`. */
  predicate RecordsIn(docId: nat, workspaceId: string, cands: seq<Candidate>, embed: string -> seq<real>, count: string -> nat,
                      r: seq<ChunkRecord>, lo: nat, hi: nat)
  {
    forall x :: x in r ==> RecordOf(docId, workspaceId, cands, embed, count, x) && lo <= x.chunkIndex < hi
  }

  /** One candidate gives at most one record, the embedded form of itself, and one exactly when it is embeddable. */
  lemma StoreOneSpec(docId: nat, workspaceId: string, cands: seq<Candidate>, embed: string -> seq<real>, count: string -> nat, i: nat)
    requires i < |cands|
    ensures var r := StoreOne(docId, workspaceId, i, cands[i], embed, count);
      && |r| == (if Embeddable(cands[i], embed) then 1 else 0)
      && RecordsIn(docId, workspaceId, cands, embed, count, r, i, i + 1)
  {
  }

  /** Each stored record is the embedded form of the candidate at its index, and there are at most `n`. */
  lemma {:induction false} StoredSound(docId: nat, workspaceId: string, cands: seq<Candidate>, embed: string -> seq<real>, count: string -> nat, n: nat)
    requires n <= |cands|
    ensures |Stored(docId, workspaceId, cands, embed, count, n)| <= n
    ensures RecordsIn(docId, workspaceId, cands, embed, count, Stored(docId, workspaceId, cands, embed, count, n), 0, n)
  {
    if n > 0 {
      StoredSound(docId, workspaceId, cands, embed, count, n - 1);
      StoreOneSpec(docId, workspaceId, cands, embed, count, n - 1);
      var prev := Stored(docId, workspaceId, cands, embed, count, n - 1);
      var one := StoreOne(docId, workspaceId, n - 1, cands[n - 1], embed, count);
      var r := Stored(docId, workspaceId, cands, embed, count, n);
      assert r == prev + one;
      RecordsAppend(docId, workspaceId, cands, embed, count, prev, one, 0, n - 1, n);
      assert RecordsIn(docId, workspaceId, cands, embed, count, r, 0, n);
    }
  }

  /** Records of candidates in `[lo, mid)`, then records of candidates in `[mid, hi)`, are records of candidates in `[lo, hi)`. */
  lemma RecordsAppend(docId: nat, workspaceId: string, cands: seq<Candidate>, embed: string -> seq<real>, count: string -> nat,
                      prev: seq<ChunkRecord>, one: seq<ChunkRecord>, lo: nat, mid: nat, hi: nat)
    requires lo <= mid <= hi
    requires RecordsIn(docId, workspaceId, cands, embed, count, prev, lo, mid)
    requires RecordsIn(docId, workspaceId, cands, embed, count, one, mid, hi)
    ensures RecordsIn(docId, workspaceId, cands, embed, count, prev + one, lo, hi)
  {
  }


  /** The records' chunk indices strictly increase. */
  predicate IndicesIncrease(r: seq<ChunkRecord>)
  {
    forall k, l :: 0 <= k < l < |r| ==> r[k].chunkIndex < r[l].chunkIndex
  }

  /** The stored records keep the candidates' order: their indices strictly increase. */
  lemma {:induction false} StoredOrdered(docId: nat, workspaceId: string, cands: seq<Candidate>, embed: string -> seq<real>, count: string -> nat, n: nat)
    requires n <= |cands|
    ensures IndicesIncrease(Stored(docId, workspaceId, cands, embed, count, n))
  {
    if n > 0 {
      StoredOrdered(docId, workspaceId, cands, embed, count, n - 1);
      StoredIndices(docId, workspaceId, cands, embed, count, n - 1);
      StoreOneIndex(docId, workspaceId, n - 1, cands[n - 1], embed, count);
      var prev := Stored(docId, workspaceId, cands, embed, count, n - 1);
      var one := StoreOne(docId, workspaceId, n - 1, cands[n - 1], embed, count);
      assert Stored(docId, workspaceId, cands, embed, count, n) == prev + one;
      IncreaseAppend(prev, one, n - 1);
    }
  }

  /** Increasing indices below `bound`, then at most one record at `bound`, still increase. */
  lemma IncreaseAppend(prev: seq<ChunkRecord>, one: seq<ChunkRecord>, bound: nat)
    requires IndicesIncrease(prev) && |one| <= 1
    requires forall x :: x in prev ==> x.chunkIndex < bound
    requires forall x :: x in one ==> x.chunkIndex == bound
    ensures IndicesIncrease(prev + one)
  {
    var r := prev + one;
    forall k, l | 0 <= k < l < |r| ensures r[k].chunkIndex < r[l].chunkIndex {
      if l >= |prev| {
        assert r[l] == one[l - |prev|] && r[l] in one;
        assert r[k] == prev[k] && r[k] in prev;
      } else {
        assert r[k] == prev[k] && r[l] == prev[l];
      }
    }
  }

  /** Whether some record was made from candidate `i`. */
  predicate HasRecord(r: seq<ChunkRecord>, i: nat)
  {
    exists k :: 0 <= k < |r| && r[k].chunkIndex == i
  }

  /** Every embeddable candidate among the first `n` has a record. */
  lemma {:induction false} StoredComplete(docId: nat, workspaceId: string, cands: seq<Candidate>, embed: string -> seq<real>, count: string -> nat, n: nat)
    requires n <= |cands|
    ensures forall i :: 0 <= i < n && Embeddable(cands[i], embed) ==> HasRecord(Stored(docId, workspaceId, cands, embed, count, n), i)
  {
    if n > 0 {
      StoredComplete(docId, workspaceId, cands, embed, count, n - 1);
      StoreOneSpec(docId, workspaceId, cands, embed, count, n - 1);
      var prev := Stored(docId, workspaceId, cands, embed, count, n - 1);
      var one := StoreOne(docId, workspaceId, n - 1, cands[n - 1], embed, count);
      assert Stored(docId, workspaceId, cands, embed, count, n) == prev + one;
      forall i | 0 <= i < n && Embeddable(cands[i], embed)
        ensures HasRecord(prev + one, i)
      {
        if i < n - 1 {
          HasRecordAppend(prev, one, i);
        } else {
          assert one[0].chunkIndex == i;
          HasRecordAppend(prev, one, i);
        }
      }
    }
  }

  /** A record for `i` on either side of a concatenation is a record for `i` in it. */
  lemma HasRecordAppend(prev: seq<ChunkRecord>, one: seq<ChunkRecord>, i: nat)
    ensures HasRecord(prev, i) || HasRecord(one, i) ==> HasRecord(prev + one, i)
  {
    if HasRecord(prev, i) {
      var k :| 0 <= k < |prev| && prev[k].chunkIndex == i;
      assert (prev + one)[k] == prev[k];
    } else if HasRecord(one, i) {
      var k :| 0 <= k < |one| && one[k].chunkIndex == i;
      assert (prev + one)[|prev| + k] == one[k];
    }
  }

  /** A stored chunk has at least one word. */
  lemma StoredChunksHaveWords(docId: nat, workspaceId: string, cands: seq<Candidate>, embed: string -> seq<real>, r: ChunkRecord)
    requires RecordOf(docId, workspaceId, cands, embed, WordCount, r)
    ensures r.wordCount >= 1
  {
    WordCountBlank(r.content);
  }

  /** Ingestion stores at most 100 chunks. */
  lemma IngestionIsCapped(docId: nat, workspaceId: string, docType: DocumentType, fileName: string,
                          content: string, embed: string -> seq<real>)
    ensures |Ingested(docId, workspaceId, docType, fileName, content, embed)| <= MaxChunksPerDocument
  {
    var cands := Capped(ChunkCandidates(docType, fileName, content));
    StoredSound(docId, workspaceId, cands, embed, WordCount, |cands|);
  }

  // ---------------------------------------------------------------------
  // Upload validation
  // ---------------------------------------------------------------------

  /** An uploaded file: its name and its size (0 when the upload gives none). */
  datatype UploadFile = UploadFile(fileName: string, size: nat)

  datatype UploadRequest = UploadRequest(
    file: Option<UploadFile>,
    workspaceId: string,
    title: Option<string>,
    description: Option<string>,
    tags: seq<string>)

  datatype UploadResult = Uploaded(doc: Document) | Failed(statusCode: nat, detail: string)

  predicate IsHexDigit(c: char) { '0' <= c <= '9' || 'a' <= c <= 'f' || 'A' <= c <= 'F' }

  /** A string `ObjectId(...)` accepts: 24 hexadecimal digits. */
  predicate IsObjectId(s: string)
  {
    |s| == 24 && forall i :: 0 <= i < |s| ==> IsHexDigit(s[i])
  }

  /**
   * Why an upload stops before its document is inserted, checked in the
   * service's order; `extracted` is the extracted text, or None when saving
   * or extraction raised.  None means the upload reaches the insert.
   */
  function UploadRejection(req: UploadRequest, extracted: Option<string>, maxFileSize: nat): (reason: Option<string>)
    ensures reason.None? <==>
      && req.file.Some? && req.file.value.fileName != [] && !IsBlank(req.workspaceId)
      && IsValidFileType(req.file.value.fileName) && req.file.value.size <= maxFileSize
      && extracted.Some? && |Strip(extracted.value)| >= MinDocumentContent && IsObjectId(req.workspaceId)
  {
    if req.file.None? || req.file.value.fileName == [] then Some("No file provided")
    else if IsBlank(req.workspaceId) then Some("Workspace ID is required")
    else if !IsValidFileType(req.file.value.fileName) then Some("Invalid file type")
    else if req.file.value.size > maxFileSize then Some("File size too large")
    else if extracted.None? then Some("Extraction failed")
    else if |Strip(extracted.value)| < MinDocumentContent then Some("Document content is too short or could not be extracted")
    else if !IsObjectId(req.workspaceId) then Some("Invalid workspace id")
    else None
  }

  /** The title: the trimmed title when it is non-empty, otherwise the file name. */
  function UploadTitle(title: Option<string>, fileName: string): (r: string)
    ensures title.Some? && Strip(title.value) != [] ==> r == Strip(title.value)
    ensures title.None? || Strip(title.value) == [] ==> r == fileName
  {
    if title.Some? && Strip(title.value) != [] then Strip(title.value) else fileName
  }

  /** The tags, trimmed, with empty ones dropped, in order. */
  function CleanTags(tags: seq<string>): (r: seq<string>)
    ensures |r| <= |tags|
    ensures forall t :: t in r ==> t != [] && exists u :: u in tags && t == Strip(u)
  {
    if tags == [] then []
    else
      var rest := CleanTags(tags[..|tags| - 1]);
      var t := Strip(tags[|tags| - 1]);
      rest + if t == [] then [] else [t]
  }

  /** The description: trimmed when given and non-empty, otherwise none. */
  function UploadDescription(description: Option<string>): Option<string>
  {
    if description.Some? && description.value != [] then Some(Strip(description.value)) else None
  }

  /** The record inserted for an accepted upload, still processing and without chunks. */
  function NewDocument(id: nat, req: UploadRequest, content: string, now: int): (d: Document)
    requires req.file.Some?
    ensures d.id == id && d.status == Processing && d.chunkCount == 0 && d.accessCount == 0
    ensures d.workspaceId == req.workspaceId && d.content == content && d.fileName == req.file.value.fileName
    ensures d.documentType == GetDocumentType(req.file.value.fileName)
  {
    var f := req.file.value;
    Document(id, req.workspaceId, UploadTitle(req.title, f.fileName), f.fileName, GetDocumentType(f.fileName),
             content, f.size, Processing, CleanTags(req.tags), UploadDescription(req.description), 0, 0, None, now)
  }

  // ---------------------------------------------------------------------
  // Derived states
  // ---------------------------------------------------------------------

  /** Whether a chunk belongs to document `id` of workspace `ws`. */
  predicate ChunkOf(c: ChunkRecord, id: nat, ws: string)
  {
    c.documentId == id && c.workspaceId == ws
  }

  /** The chunk collection after deleting the chunks of one document. */
  function WithoutChunksOf(chunks: seq<ChunkRecord>, id: nat, ws: string): (r: seq<ChunkRecord>)
    ensures |r| <= |chunks|
  {
    if chunks == [] then []
    else
      var rest := WithoutChunksOf(chunks[..|chunks| - 1], id, ws);
      var c := chunks[|chunks| - 1];
      if ChunkOf(c, id, ws) then rest else rest + [c]
  }

  /** The delete removes exactly the chunks of the document and keeps every other one. */
  lemma {:induction false} WithoutChunksOfSpec(chunks: seq<ChunkRecord>, id: nat, ws: string)
    ensures forall c :: c in WithoutChunksOf(chunks, id, ws) <==> c in chunks && !ChunkOf(c, id, ws)
  {
    if chunks != [] {
      WithoutChunksOfSpec(chunks[..|chunks| - 1], id, ws);
      assert chunks == chunks[..|chunks| - 1] + [chunks[|chunks| - 1]];
    }
  }

  /** A document read by `get_document_by_id`: one more access, stamped with the time. */
  function Accessed(d: Document, now: int): (r: Document)
    ensures r.accessCount == d.accessCount + 1 && r.lastAccessed == Some(now)
    ensures r.(accessCount := d.accessCount, lastAccessed := d.lastAccessed) == d
  {
    d.(accessCount := d.accessCount + 1, lastAccessed := Some(now))
  }

  /** The fields an update may set; absent ones are left as they are. */
  datatype DocumentChanges = DocumentChanges(title: Option<string>, description: Option<string>, tags: Option<seq<string>>)

  function Updated(d: Document, changes: DocumentChanges, now: int): (r: Document)
    ensures r.title == (if changes.title.Some? then changes.title.value else d.title)
    ensures r.description == (if changes.description.Some? then changes.description else d.description)
    ensures r.tags == (if changes.tags.Some? then changes.tags.value else d.tags)
    ensures r.updatedAt == now
    ensures r.(title := d.title, description := d.description, tags := d.tags, updatedAt := d.updatedAt) == d
  {
    d.(title := if changes.title.Some? then changes.title.value else d.title,
       description := if changes.description.Some? then changes.description else d.description,
       tags := if changes.tags.Some? then changes.tags.value else d.tags,
       updatedAt := now)
  }

  /** Whether document `id` exists in workspace `ws`. */
  function Owns(documents: map<nat, Document>, id: nat, ws: string): bool
  {
    id in documents && documents[id].workspaceId == ws
  }

  /**
   * Where chunk processing raised, if it did; the processing catches and
   * logs every error, so the upload goes on. `ChunksLost`: the chunker or
   * the batch insert raised, so no chunk is stored. `CountLost`: the chunk
   * count update raised, so the chunks are stored but the count is not.
   */
  datatype ChunkFault = NoFault | ChunksLost | CountLost

  /**
   * The state after inserting and processing document `d` under the next
   * free id: its chunks appended and its chunk count set unless processing
   * raised, then its status ready or, when recording the status raised,
   * error.
   */
  predicate Inserted(documents0: map<nat, Document>, chunks0: seq<ChunkRecord>, nextId0: nat,
                     d: Document, embed: string -> seq<real>, fault: ChunkFault, storeFails: bool,
                     documents: map<nat, Document>, chunks: seq<ChunkRecord>, nextId: nat, result: UploadResult)
  {
    InsertedWith(documents0, chunks0, nextId0, d, Ingested(d.id, d.workspaceId, d.documentType, d.fileName, d.content, embed),
                 fault, storeFails, documents, chunks, nextId, result)
  }

  /** The same, with the records processing would store given. */
  predicate InsertedWith(documents0: map<nat, Document>, chunks0: seq<ChunkRecord>, nextId0: nat,
                         d: Document, stored: seq<ChunkRecord>, fault: ChunkFault, storeFails: bool,
                         documents: map<nat, Document>, chunks: seq<ChunkRecord>, nextId: nat, result: UploadResult)
  {
    && d.id == nextId0 && nextId == nextId0 + 1
    && chunks == chunks0 + (if fault == ChunksLost then [] else stored)
    && documents == documents0[d.id := d.(chunkCount := if fault == NoFault then |stored| else d.chunkCount,
                                          status := if storeFails then Error else Ready)]
    && result == (if storeFails then Failed(500, UploadFailure) else Uploaded(d.(status := Ready)))
  }

  // ---------------------------------------------------------------------
  // The store
  // ---------------------------------------------------------------------

  class DocumentService {
    var documents: map<nat, Document>
    var chunks: seq<ChunkRecord>
    var nextId: nat

    /** Every document sits under its own id, and ids below `nextId` are the only ones used. */
    ghost predicate Valid()
      reads this
    {
      forall id :: id in documents ==> documents[id].id == id && id < nextId
    }

    constructor()
      ensures documents == map[] && chunks == [] && nextId == 0
      ensures Valid()
    {
      documents := map[];
      chunks := [];
      nextId := 0;
    }

    /**
     * `upload_document`.  A rejected upload changes nothing and fails with
     * 500, whatever its reason.  An accepted one is inserted and processed.
     */
    method UploadDocument(req: UploadRequest, extracted: Option<string>, maxFileSize: nat,
                          embed: string -> seq<real>, fault: ChunkFault, storeFails: bool, now: int) returns (result: UploadResult)
      requires Valid()
      modifies this
      ensures Valid()
      ensures UploadRejection(req, extracted, maxFileSize).Some? ==>
        result == Failed(500, UploadFailure) && documents == old(documents) && chunks == old(chunks) && nextId == old(nextId)
      ensures UploadRejection(req, extracted, maxFileSize).None? ==>
        Inserted(old(documents), old(chunks), old(nextId), NewDocument(old(nextId), req, extracted.value, now), embed, fault, storeFails,
                 documents, chunks, nextId, result)
    {
      var reason := UploadRejection(req, extracted, maxFileSize);
      if reason.Some? {
        return Failed(500, UploadFailure);
      }
      var d := NewDocument(nextId, req, extracted.value, now);
      var cands := ChunkDocument(d.documentType, d.fileName, d.content);
      result := InsertAndProcess(d, cands, embed, fault, storeFails);
    }

    /**
     * The part of the upload after validation: insert the document as
     * processing, store its chunks and set its chunk count, then mark it
     * ready. An error raised while processing chunks (`fault`) is only
     * logged, and the upload still marks the document ready; when recording
     * the status raises (`storeFails`) the document is marked error instead
     * and the upload fails with 500. The document returned is the inserted
     * record marked ready, whose chunk count is still 0.
     */
    method InsertAndProcess(d: Document, cands: seq<Candidate>, embed: string -> seq<real>, fault: ChunkFault, storeFails: bool)
      returns (result: UploadResult)
      requires Valid() && d.id == nextId
      modifies this
      ensures Valid()
      ensures InsertedWith(old(documents), old(chunks), old(nextId), d, Stored(d.id, d.workspaceId, Capped(cands), embed, WordCount, |Capped(cands)|),
                           fault, storeFails, documents, chunks, nextId, result)
    {
      documents := documents[d.id := d];
      nextId := nextId + 1;
      var stored := StoreChunks(d.id, d.workspaceId, cands, embed);
      // the batch insert, then the chunk count, unless processing raised first
      var added := if fault == ChunksLost then [] else stored;
      var count := if fault == NoFault then |stored| else d.chunkCount;
      chunks := chunks + added;
      // the status becomes READY, or ERROR when that write fails
      var status := if storeFails then Error else Ready;
      documents := documents[d.id := d.(chunkCount := count, status := status)];
      result := if storeFails then Failed(500, UploadFailure) else Uploaded(d.(status := Ready));
    }

    /** `get_document_by_id`: counts an access of a document of the workspace and returns it; none otherwise. */
    method GetDocumentById(id: nat, ws: string, now: int) returns (r: Option<Document>)
      requires Valid()
      modifies this
      ensures Valid()
      ensures chunks == old(chunks) && nextId == old(nextId)
      ensures Owns(old(documents), id, ws) ==>
        documents == old(documents)[id := Accessed(old(documents)[id], now)] && r == Some(documents[id])
      ensures !Owns(old(documents), id, ws) ==> documents == old(documents) && r == None
    {
      if id in documents && documents[id].workspaceId == ws {
        documents := documents[id := Accessed(documents[id], now)];
        r := Some(documents[id]);
      } else {
        r := None;
      }
    }

    /** `update_document`: sets the given fields, then reads the document back (counting an access). */
    method UpdateDocument(id: nat, ws: string, changes: DocumentChanges, now: int) returns (r: Option<Document>)
      requires Valid()
      modifies this
      ensures Valid()
      ensures chunks == old(chunks) && nextId == old(nextId)
      ensures Owns(old(documents), id, ws) ==>
        documents == old(documents)[id := Accessed(Updated(old(documents)[id], changes, now), now)] && r == Some(documents[id])
      ensures !Owns(old(documents), id, ws) ==> documents == old(documents) && r == None
    {
      if !(id in documents && documents[id].workspaceId == ws) {
        return None;
      }
      documents := documents[id := Updated(documents[id], changes, now)];
      r := GetDocumentById(id, ws, now);
    }

    /** `delete_document`: removes the document's chunks first, then the document; true iff a document went. */
    method DeleteDocument(id: nat, ws: string) returns (deleted: bool)
      requires Valid()
      modifies this
      ensures Valid()
      ensures nextId == old(nextId)
      ensures chunks == WithoutChunksOf(old(chunks), id, ws)
      ensures deleted <==> Owns(old(documents), id, ws)
      ensures deleted ==> documents == old(documents) - {id}
      ensures !deleted ==> documents == old(documents)
    {
      chunks := WithoutChunksOf(chunks, id, ws);
      deleted := id in documents && documents[id].workspaceId == ws;
      if deleted {
        documents := documents - {id};
      }
    }
  }

  /** After a delete no chunk of the document is left, and every other chunk is. */
  lemma DeleteCascades(chunks: seq<ChunkRecord>, id: nat, ws: string)
    ensures forall c :: c in WithoutChunksOf(chunks, id, ws) ==> !ChunkOf(c, id, ws)
    ensures forall c :: c in chunks && !ChunkOf(c, id, ws) ==> c in WithoutChunksOf(chunks, id, ws)
  {
    WithoutChunksOfSpec(chunks, id, ws);
  }
}
