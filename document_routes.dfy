/**
 * The document routes: the filtered, paginated listing of a workspace's
 * documents, the tag list an upload form carries, and the metadata update
 * that forwards only the whitelisted fields to the document service.
 *
 * Query validation is FastAPI's: a parameter outside its declared bounds is
 * refused with 422 before the handler runs.
 */
module DocumentRoutes {
  import opened Text
  import opened Http
  import opened AuthHandler
  import opened DocumentChunking
  import opened DocumentStore

  // ---------------------------------------------------------------------
  // Filters
  // ---------------------------------------------------------------------

  /** The string value of a document type, as the `str` enum compares. */
  function TypeName(t: DocumentType): string
  {
    match t
    case PDF => "pdf"
    case DOCX => "docx"
    case TXT => "txt"
    case XLSX => "xlsx"
    case XLS => "xls"
  }

  function StatusName(s: DocumentStatus): string
  {
    match s
    case Processing => "processing"
    case Ready => "ready"
    case Error => "error"
  }

  /** A query parameter that is present and truthy (a non-empty string). */
  predicate Given(o: Option<string>)
  {
    o.Some? && o.value != ""
  }

  /** The lower-cased search text occurs in the lower-cased title, file name or description. */
  predicate SearchHit(d: Document, needle: string)
  {
    Contains(Lower(d.title), needle) ||
    Contains(Lower(d.fileName), needle) ||
    Contains(Lower(if d.description.Some? then d.description.value else ""), needle)
  }

  /** The query string of the listing. */
  datatype ListQuery = ListQuery(
    documentType: Option<string>,
    status: Option<string>,
    search: Option<string>,
    limit: int,
    offset: int)

  predicate TypeOk(d: Document, q: ListQuery)
  {
    q.documentType.Some? && TypeName(d.documentType) == q.documentType.value
  }

  predicate StatusOk(d: Document, q: ListQuery)
  {
    q.status.Some? && StatusName(d.status) == q.status.value
  }

  predicate SearchOk(d: Document, q: ListQuery)
  {
    q.search.Some? && SearchHit(d, Lower(q.search.value))
  }

  /** A document passes every filter that `q` switches on. */
  predicate Matches(d: Document, q: ListQuery)
  {
    (Given(q.documentType) ==> TypeOk(d, q)) &&
    (Given(q.status) ==> StatusOk(d, q)) &&
    (Given(q.search) ==> SearchOk(d, q))
  }

  /** The three filters of the listing. */
  datatype Criterion = ByType | ByStatus | BySearch

  predicate Passes(d: Document, q: ListQuery, cs: set<Criterion>)
  {
    (ByType in cs ==> TypeOk(d, q)) &&
    (ByStatus in cs ==> StatusOk(d, q)) &&
    (BySearch in cs ==> SearchOk(d, q))
  }

  /** The list comprehension keeping the documents that pass the criteria `cs`. */
  function Keep(s: seq<Document>, q: ListQuery, cs: set<Criterion>): (r: seq<Document>)
    ensures |r| <= |s|
    ensures forall d :: d in r ==> d in s && Passes(d, q, cs)
    ensures forall d :: d in s && Passes(d, q, cs) ==> d in r
  {
    if s == [] then []
    else (if Passes(s[0], q, cs) then [s[0]] else []) + Keep(s[1..], q, cs)
  }

  /** Filtering twice is filtering once on both sets of criteria. */
  lemma {:induction false} KeepKeep(s: seq<Document>, q: ListQuery, cs1: set<Criterion>, cs2: set<Criterion>)
    ensures Keep(Keep(s, q, cs1), q, cs2) == Keep(s, q, cs1 + cs2)
  {
    if s != [] {
      KeepKeep(s[1..], q, cs1, cs2);
      var k := Keep(s, q, cs1);
      if Passes(s[0], q, cs1) {
        assert k[0] == s[0] && k[1..] == Keep(s[1..], q, cs1);
      } else {
        assert k == Keep(s[1..], q, cs1);
      }
    }
  }

  lemma {:induction false} KeepNothing(s: seq<Document>, q: ListQuery)
    ensures Keep(s, q, {}) == s
  {
    if s != [] {
      KeepNothing(s[1..], q);
      assert Passes(s[0], q, {});
      assert s == [s[0]] + s[1..];
    }
  }

  /** The criteria `q` switches on. */
  function Active(q: ListQuery): (cs: set<Criterion>)
    ensures forall d :: Passes(d, q, cs) <==> Matches(d, q)
  {
    (if Given(q.documentType) then {ByType} else {}) +
    (if Given(q.status) then {ByStatus} else {}) +
    (if Given(q.search) then {BySearch} else {})
  }

  /** One filter step of the handler: applied only when its parameter is given. */
  function Step(s: seq<Document>, q: ListQuery, given: bool, c: Criterion): seq<Document>
  {
    if given then Keep(s, q, {c}) else s
  }

  /** The listing's three filters, applied one after the other as the handler does. */
  function Filtered(docs: seq<Document>, q: ListQuery): seq<Document>
  {
    var byType := Step(docs, q, Given(q.documentType), ByType);
    var byStatus := Step(byType, q, Given(q.status), ByStatus);
    Step(byStatus, q, Given(q.search), BySearch)
  }

  lemma StepIsKeep(s: seq<Document>, q: ListQuery, given: bool, c: Criterion)
    ensures Step(s, q, given, c) == Keep(s, q, if given then {c} else {})
  {
    if !given {
      KeepNothing(s, q);
    }
  }

  /** The three passes keep, in their order, exactly the documents that match. */
  lemma FilteredIsOneFilter(docs: seq<Document>, q: ListQuery)
    ensures Filtered(docs, q) == Keep(docs, q, Active(q))
    ensures Subsequence(Filtered(docs, q), docs)
    ensures forall d :: d in Filtered(docs, q) <==> d in docs && Matches(d, q)
  {
    var c1 := if Given(q.documentType) then {ByType} else {};
    var c2 := if Given(q.status) then {ByStatus} else {};
    var c3 := if Given(q.search) then {BySearch} else {};
    StepIsKeep(docs, q, Given(q.documentType), ByType);
    var byType := Keep(docs, q, c1);
    StepIsKeep(byType, q, Given(q.status), ByStatus);
    KeepKeep(docs, q, c1, c2);
    var byStatus := Keep(docs, q, c1 + c2);
    StepIsKeep(byStatus, q, Given(q.search), BySearch);
    KeepKeep(docs, q, c1 + c2, c3);
    assert c1 + c2 + c3 == Active(q);
    KeepSubsequence(docs, q, Active(q));
  }

  /** `a` is `b` with some elements left out, the rest in their order. */
  predicate Subsequence(a: seq<Document>, b: seq<Document>)
    decreases |b|
  {
    if b == [] then a == []
    else (a != [] && a[0] == b[0] && Subsequence(a[1..], b[1..])) || Subsequence(a, b[1..])
  }

  lemma {:induction false} EmptySubsequence(b: seq<Document>)
    ensures Subsequence([], b)
  {
    if b != [] {
      EmptySubsequence(b[1..]);
    }
  }

  lemma {:induction false} KeepSubsequence(s: seq<Document>, q: ListQuery, cs: set<Criterion>)
    ensures Subsequence(Keep(s, q, cs), s)
  {
    if s != [] {
      KeepSubsequence(s[1..], q, cs);
      var r := Keep(s, q, cs);
      if Passes(s[0], q, cs) {
        assert r[0] == s[0] && r[1..] == Keep(s[1..], q, cs);
      } else {
        assert r == Keep(s[1..], q, cs);
      }
    }
  }

  lemma {:induction false} SubsequenceTrans(a: seq<Document>, b: seq<Document>, c: seq<Document>)
    requires Subsequence(a, b) && Subsequence(b, c)
    ensures Subsequence(a, c)
    decreases |c|
  {
    if c == [] {
    } else if b != [] && b[0] == c[0] && Subsequence(b[1..], c[1..]) {
      if a != [] && a[0] == b[0] && Subsequence(a[1..], b[1..]) {
        SubsequenceTrans(a[1..], b[1..], c[1..]);
      } else if b == [] {
      } else {
        SubsequenceTrans(a, b[1..], c[1..]);
      }
    } else {
      SubsequenceTrans(a, b, c[1..]);
    }
  }

  lemma {:induction false} PrefixSubsequence(s: seq<Document>, hi: nat)
    requires hi <= |s|
    ensures Subsequence(s[..hi], s)
  {
    if hi == 0 {
      EmptySubsequence(s);
    } else {
      PrefixSubsequence(s[1..], hi - 1);
      assert s[..hi][0] == s[0];
      assert s[..hi][1..] == s[1..][..hi - 1];
    }
  }

  lemma {:induction false} RunSubsequence(s: seq<Document>, lo: nat, hi: nat)
    requires lo <= hi <= |s|
    ensures Subsequence(s[lo..hi], s)
    decreases lo
  {
    if lo == 0 {
      PrefixSubsequence(s, hi);
      assert s[lo..hi] == s[..hi];
    } else {
      RunSubsequence(s[1..], lo - 1, hi - 1);
      assert s[1..][lo - 1..hi - 1] == s[lo..hi];
    }
  }

  // ---------------------------------------------------------------------
  // Pagination
  // ---------------------------------------------------------------------

  /** A slice bound as Python resolves it: a negative one counts from the end, both are clamped. */
  function SliceIndex(n: nat, i: int): (k: nat)
    ensures k <= n
    ensures i >= 0 ==> k == if i < n then i else n
  {
    if i < 0 then (if n + i < 0 then 0 else n + i) else if i < n then i else n
  }

  /** Python's `s[start:stop]`. */
  function PySlice(s: seq<Document>, start: int, stop: int): (r: seq<Document>)
  {
    var lo := SliceIndex(|s|, start);
    var hi := SliceIndex(|s|, stop);
    if lo < hi then s[lo..hi] else []
  }

  /** The page for `offset` and `limit`. */
  function Page(filtered: seq<Document>, offset: int, limit: int): seq<Document>
  {
    PySlice(filtered, offset, offset + limit)
  }

  /** With a non-negative offset and limit, the page is the contiguous run from the offset, at most `limit` long. */
  lemma PageBounds(filtered: seq<Document>, offset: int, limit: int)
    requires offset >= 0 && limit >= 0
    ensures |Page(filtered, offset, limit)| <= limit
    ensures offset + limit <= |filtered| ==> Page(filtered, offset, limit) == filtered[offset..offset + limit]
    ensures offset < |filtered| <= offset + limit ==> Page(filtered, offset, limit) == filtered[offset..]
    ensures |filtered| <= offset ==> Page(filtered, offset, limit) == []
  {
  }

  const QueryRefused: string := "Query parameter out of range"
  const MaxLimit: int := 100

  /** The bounds the handler declares: `limit` at most 100, `offset` at least 0. */
  predicate QueryValid(q: ListQuery)
  {
    q.limit <= MaxLimit && q.offset >= 0
  }

  /**
   * `get_workspace_documents`: `docs` is the workspace's documents as the
   * service returns them (newest first) and `ws` the workspace looked up for
   * the access check.
   */
  function ListDocuments(ws: Option<WorkspaceRecord>, userId: string, docs: seq<Document>, q: ListQuery): (r: Response<seq<Document>>)
    ensures !QueryValid(q) ==> r == Refused(422, QueryRefused)
    ensures QueryValid(q) && !VerifyWorkspaceAccess(ws, userId) ==> r == Refused(403, "Access denied to workspace")
    ensures r.Done? <==> QueryValid(q) && VerifyWorkspaceAccess(ws, userId)
  {
    if !QueryValid(q) then Refused(422, QueryRefused)
    else if !VerifyWorkspaceAccess(ws, userId) then Refused(403, "Access denied to workspace")
    else Done(Page(Filtered(docs, q), q.offset, q.limit))
  }

  /** Every listed document is one of the workspace's, matches the query, and the order is kept. */
  lemma ListingSound(ws: Option<WorkspaceRecord>, userId: string, docs: seq<Document>, q: ListQuery)
    requires ListDocuments(ws, userId, docs, q).Done?
    ensures var page := ListDocuments(ws, userId, docs, q).value;
      Subsequence(page, docs) && forall d :: d in page ==> d in docs && Matches(d, q)
  {
    var f := Filtered(docs, q);
    FilteredIsOneFilter(docs, q);
    SliceSubsequence(f, q.offset, q.offset + q.limit);
    SubsequenceTrans(Page(f, q.offset, q.limit), f, docs);
  }

  /** The first page of a large enough limit holds every matching document. */
  lemma ListingComplete(ws: Option<WorkspaceRecord>, userId: string, docs: seq<Document>, q: ListQuery)
    requires ListDocuments(ws, userId, docs, q).Done?
    requires q.offset == 0 && |docs| <= q.limit
    ensures forall d :: d in docs && Matches(d, q) ==> d in ListDocuments(ws, userId, docs, q).value
  {
    FilteredIsOneFilter(docs, q);
  }

  /** A contiguous slice is a subsequence. */
  lemma {:induction false} SliceSubsequence(s: seq<Document>, start: int, stop: int)
    ensures Subsequence(PySlice(s, start, stop), s)
  {
    var lo := SliceIndex(|s|, start);
    var hi := SliceIndex(|s|, stop);
    if lo < hi {
      RunSubsequence(s, lo, hi);
    } else {
      EmptySubsequence(s);
    }
  }

  /**
   * As written, the declared bounds let a negative limit through, and the
   * slice then counts its end from the back: with three matching documents,
   * no filter and `limit = -1`, the page holds two of them.
   */
  lemma NegativeLimitListsMore(ws: WorkspaceRecord, userId: string, d: Document)
    requires VerifyWorkspaceAccess(Some(ws), userId)
    ensures var q := ListQuery(None, None, None, -1, 0);
      ListDocuments(Some(ws), userId, [d, d, d], q) == Done([d, d])
  {
    var q := ListQuery(None, None, None, -1, 0);
    assert Filtered([d, d, d], q) == [d, d, d];
    assert [d, d, d][0..2] == [d, d];
  }

  /** The bounds evidently intended: `limit` between 0 and 100. */
  predicate QueryValidIntended(q: ListQuery)
  {
    0 <= q.limit <= MaxLimit && q.offset >= 0
  }

  /** The listing with a lower bound on `limit`; a page never exceeds the limit. */
  function ListDocumentsIntended(ws: Option<WorkspaceRecord>, userId: string, docs: seq<Document>, q: ListQuery): (r: Response<seq<Document>>)
    ensures !QueryValidIntended(q) ==> r == Refused(422, QueryRefused)
    ensures r.Done? <==> QueryValidIntended(q) && VerifyWorkspaceAccess(ws, userId)
    ensures r.Done? ==> |r.value| <= q.limit <= MaxLimit
    ensures r.Done? ==> r == ListDocuments(ws, userId, docs, q)
  {
    if !QueryValidIntended(q) then Refused(422, QueryRefused)
    else
      PageBounds(Filtered(docs, q), q.offset, q.limit);
      ListDocuments(ws, userId, docs, q)
  }

  // ---------------------------------------------------------------------
  // Upload tags
  // ---------------------------------------------------------------------

  /** The upload form's comma-separated tags: split on ',', trimmed, empties dropped. */
  function ParseTags(tags: Option<string>): (r: seq<string>)
  {
    if tags.None? || tags.value == "" then [] else CleanTags(Split(tags.value, ","))
  }

  /** Every parsed tag is non-empty, trimmed and free of commas. */
  lemma ParseTagsClean(tags: Option<string>)
    ensures forall t :: t in ParseTags(tags) ==> t != [] && Strip(t) == t && ',' !in t
  {
    if tags.Some? && tags.value != "" {
      var parts := Split(tags.value, ",");
      SplitPartsFree(tags.value, ",");
      forall t | t in ParseTags(tags)
        ensures t != [] && Strip(t) == t && ',' !in t
      {
        var u :| u in parts && t == Strip(u);
        StripIdempotent(u);
        StripCommaFree(u);
      }
    }
  }

  /** A part without a comma keeps none after trimming. */
  lemma StripCommaFree(u: string)
    requires !Contains(u, ",")
    ensures ',' !in Strip(u)
  {
    var t := Strip(u);
    var lead := LeadingSpaces(u);
    forall i | 0 <= i < |t| ensures t[i] != ',' {
      assert t[i] == u[lead + i];
      assert u[lead + i..lead + i + 1] == [u[lead + i]];
      assert !OccursAt(u, ",", lead + i);
    }
  }

  /** A part without a comma has no comma occurrence at any position. */
  lemma NoOccurrence(p: string)
    requires ',' !in p
    ensures forall k :: 0 <= k <= |p| ==> !OccursAt(p, ",", k)
  {
    forall k | 0 <= k < |p| ensures !OccursAt(p, ",", k) {
      assert p[k..k + 1] == [p[k]];
    }
  }

  /** Splitting comma-joined comma-free parts gives the parts back. */
  lemma {:induction false} SplitJoin(parts: seq<string>)
    requires parts != []
    requires forall p :: p in parts ==> ',' !in p
    ensures Split(Join(",", parts), ",") == parts
  {
    if |parts| == 1 {
      NoOccurrence(parts[0]);
      assert FindFrom(parts[0], ",", 0).None?;
    } else {
      var p := parts[0];
      var rest := Join(",", parts[1..]);
      var s := Join(",", parts);
      assert s == p + "," + rest;
      NoOccurrence(p);
      forall k | 0 <= k < |p| ensures !OccursAt(s, ",", k) {
        assert s[k..k + 1] == [p[k]];
      }
      assert s[|p|..|p| + 1] == ",";
      FindFromFirst(s, ",", 0, |p|);
      assert s[..|p|] == p;
      assert s[|p| + 1..] == rest;
      SplitJoin(parts[1..]);
      assert Split(s, ",") == [p] + Split(rest, ",");
      assert parts == [p] + parts[1..];
    }
  }

  lemma FindFromFirst(s: string, sep: string, from: nat, at: nat)
    requires from <= at <= |s| && OccursAt(s, sep, at)
    requires forall k :: from <= k < at ==> !OccursAt(s, sep, k)
    ensures FindFrom(s, sep, from) == Some(at)
    decreases at - from
  {
    if from < at {
      FindFromFirst(s, sep, from + 1, at);
    }
  }

  /** Trimmed non-empty tags pass through `CleanTags` unchanged. */
  lemma {:induction false} CleanTagsOfClean(tags: seq<string>)
    requires forall i :: 0 <= i < |tags| ==> tags[i] != [] && Strip(tags[i]) == tags[i]
    ensures CleanTags(tags) == tags
  {
    if tags != [] {
      var init := tags[..|tags| - 1];
      CleanTagsOfClean(init);
      assert init + [tags[|tags| - 1]] == tags;
    }
  }

  /** Joining clean tags with commas and parsing the text gives the tags back. */
  lemma ParseTagsOfJoined(tags: seq<string>)
    requires forall t :: t in tags ==> t != [] && Strip(t) == t && ',' !in t
    ensures ParseTags(Some(Join(",", tags))) == tags
  {
    if tags != [] {
      SplitJoin(tags);
      CleanTagsOfClean(tags);
      assert Join(",", tags) != "" by {
        JoinFirst(",", tags);
      }
    }
  }

  // ---------------------------------------------------------------------
  // Metadata update
  // ---------------------------------------------------------------------

  /** The update body: every field optional; content and status are accepted but never forwarded. */
  datatype DocumentUpdate = DocumentUpdate(
    title: Option<string>,
    content: Option<string>,
    status: Option<DocumentStatus>,
    tags: Option<seq<string>>,
    description: Option<string>)

  /** The dictionary the handler forwards: the title, description and tags that are given. */
  function Whitelist(u: DocumentUpdate): DocumentChanges
  {
    DocumentChanges(u.title, u.description, u.tags)
  }

  /** Whatever the body says about content or status, an update leaves them as they were. */
  lemma WhitelistKeepsContentAndStatus(d: Document, u: DocumentUpdate, now: int)
    ensures var r := Updated(d, Whitelist(u), now);
      r.content == d.content && r.status == d.status && r.fileName == d.fileName &&
      r.documentType == d.documentType && r.workspaceId == d.workspaceId
    ensures u.title.None? && u.description.None? && u.tags.None? ==>
      Updated(d, Whitelist(u), now) == d.(updatedAt := now)
  {
  }

  /**
   * `update_document`: the document is looked up by id, access is checked
   * against its own workspace (`workspaces` maps a workspace id to its
   * record), and the whitelisted fields go to the service.
   */
  method UpdateDocumentRoute(svc: DocumentService, workspaces: map<string, WorkspaceRecord>,
                             userId: string, id: nat, u: DocumentUpdate, now: int)
    returns (r: Response<Document>)
    requires svc.Valid()
    modifies svc
    ensures svc.Valid()
    ensures id !in old(svc.documents) ==> r == Refused(404, "Document not found") && unchanged(svc)
    ensures (id in old(svc.documents) && !Admitted(workspaces, old(svc.documents)[id], userId)) ==>
      r == Refused(403, "Access denied to document") && unchanged(svc)
    ensures (id in old(svc.documents) && Admitted(workspaces, old(svc.documents)[id], userId)) ==>
      r == Done(Accessed(Updated(old(svc.documents)[id], Whitelist(u), now), now)) &&
      svc.documents == old(svc.documents)[id := r.value]
  {
    if id !in svc.documents {
      return Refused(404, "Document not found");
    }
    var ws := svc.documents[id].workspaceId;
    if !Admitted(workspaces, svc.documents[id], userId) {
      return Refused(403, "Access denied to document");
    }
    var updated := svc.UpdateDocument(id, ws, Whitelist(u), now);
    r := Done(updated.value);
  }

  /** The caller may see `d`: the access check on the workspace the document belongs to. */
  predicate Admitted(workspaces: map<string, WorkspaceRecord>, d: Document, userId: string)
  {
    VerifyWorkspaceAccess(Lookup(workspaces, d.workspaceId), userId)
  }
}
