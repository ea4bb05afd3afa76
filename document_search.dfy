/**
 * The document service's search: stored chunks of ready documents in the
 * workspace that pass the type and tag filters and whose similarity to the
 * query reaches the threshold are ranked, the best `limit * 5` are grouped
 * by document, and each document's relevance is
 * 0.6 * (best similarity) + 0.4 * (mean similarity).
 *
 * The similarity of a chunk to the query is a given function that may fail
 * (`None`); the two collections are the store's map and sequence.  The join
 * from a chunk to its document is a lookup on a BSON key, so that the join
 * the code performs (a text key against ObjectId keys) can be told apart
 * from the intended one.
 */
module DocumentSearch {
  import opened Text
  import opened Ranking
  import opened DocumentChunking
  import opened DocumentStore

  const ChunksPerResult: nat := 5
  /** How many chunks per requested result enter the grouping. */
  const ChunksPerLimit: int := 5
  const MaxWeight: real := 0.6
  const MeanWeight: real := 0.4
  const DefaultLimit: int := 5
  const DefaultThreshold: real := 0.6

  /** An empty type or tag list means "no filter". */
  datatype SearchRequest = SearchRequest(
    query: string,
    workspaceId: string,
    limit: int,
    threshold: real,
    documentTypes: seq<DocumentType>,
    tags: seq<string>)

  datatype SearchResult = SearchResult(
    document: Document,
    chunks: seq<ChunkRecord>,
    similarityScore: real,
    relevanceScore: real)

  // ---------------------------------------------------------------------
  // The join and the filters
  // ---------------------------------------------------------------------

  /** A BSON value used as a join key: a string or an ObjectId. */
  datatype Bson = BsonText(text: string) | BsonObjectId(oid: nat)

  /** The documents collection's `_id` lookup: BSON equality never matches a string against an ObjectId. */
  function Lookup(documents: map<nat, Document>, key: Bson): (r: Option<Document>)
    ensures r.Some? <==> key.BsonObjectId? && key.oid in documents
    ensures r.Some? ==> r.value == documents[key.oid]
  {
    match key
    case BsonText(_) => None
    case BsonObjectId(oid) => if oid in documents then Some(documents[oid]) else None
  }

  /** The key a stored chunk carries for its document: the text form of the document's id. */
  function StoredChunkKey(c: ChunkRecord): Bson
  {
    BsonText(NatToString(c.documentId))
  }

  /** The key the join is meant to use: the document's ObjectId. */
  function ChunkKey(c: ChunkRecord): Bson
  {
    BsonObjectId(c.documentId)
  }

  /** Two ObjectId strings name the same id when they agree up to the case of their hex digits. */
  predicate SameObjectId(a: string, b: string)
  {
    Lower(a) == Lower(b)
  }

  /** The document-level filters: ready, one of the requested types, and some requested tag. */
  predicate PassesFilters(req: SearchRequest, doc: Document)
  {
    && doc.status == Ready
    && (req.documentTypes == [] || doc.documentType in req.documentTypes)
    && (req.tags == [] || exists t :: t in doc.tags && t in req.tags)
  }

  // ---------------------------------------------------------------------
  // Collecting the hits
  // ---------------------------------------------------------------------

  /** A chunk that reached the threshold, the document it joined with and its similarity. */
  datatype Hit = Hit(chunk: ChunkRecord, doc: Document, score: real)

  function HitScore(h: Hit): real { h.score }

  /** What the pipeline and the scoring loop make of one stored chunk. */
  function HitOf(documents: map<nat, Document>, req: SearchRequest, sim: ChunkRecord -> Option<real>,
                 key: ChunkRecord -> Bson, c: ChunkRecord): Option<Hit>
  {
    if !SameObjectId(c.workspaceId, req.workspaceId) || c.embedding == [] then None
    else match Lookup(documents, key(c))
      case None => None
      case Some(doc) =>
        if !PassesFilters(req, doc) then None
        else match sim(c)
          case None => None
          case Some(s) => if s >= req.threshold then Some(Hit(c, doc, s)) else None
  }

  function HitFinder(documents: map<nat, Document>, req: SearchRequest, sim: ChunkRecord -> Option<real>,
                     key: ChunkRecord -> Bson): ChunkRecord -> Option<Hit>
  {
    (c: ChunkRecord) => HitOf(documents, req, sim, key, c)
  }

  /** The hits among the first `n` stored chunks, in collection order. */
  function Hits(hitOf: ChunkRecord -> Option<Hit>, chunks: seq<ChunkRecord>, n: nat): seq<Hit>
    requires n <= |chunks|
  {
    if n == 0 then []
    else match hitOf(chunks[n - 1])
      case None => Hits(hitOf, chunks, n - 1)
      case Some(h) => Hits(hitOf, chunks, n - 1) + [h]
  }

  /** `h` is a hit for `c`: `c` is a chunk of the workspace with an embedding, of a filtered document, at or above the threshold. */
  predicate IsHitFor(documents: map<nat, Document>, req: SearchRequest, sim: ChunkRecord -> Option<real>, c: ChunkRecord, h: Hit)
  {
    && h.chunk == c
    && SameObjectId(c.workspaceId, req.workspaceId)
    && c.embedding != []
    && c.documentId in documents && h.doc == documents[c.documentId] && h.doc.id == c.documentId
    && PassesFilters(req, h.doc)
    && sim(c) == Some(h.score) && h.score >= req.threshold
  }

  /** With the intended join, a chunk gives a hit exactly when it passes every test, and the hit is made of it. */
  lemma HitOfSpec(documents: map<nat, Document>, req: SearchRequest, sim: ChunkRecord -> Option<real>, c: ChunkRecord)
    requires forall id :: id in documents ==> documents[id].id == id
    ensures HitOf(documents, req, sim, ChunkKey, c).Some? ==> IsHitFor(documents, req, sim, c, HitOf(documents, req, sim, ChunkKey, c).value)
    ensures HitOf(documents, req, sim, ChunkKey, c).None? ==> forall h :: !IsHitFor(documents, req, sim, c, h)
  {
  }

  /** Every hit comes from one of the first `n` chunks, and every chunk among them that gives a hit contributes it. */
  lemma {:induction false} HitsExact(hitOf: ChunkRecord -> Option<Hit>, chunks: seq<ChunkRecord>, n: nat)
    requires n <= |chunks|
    ensures forall h :: h in Hits(hitOf, chunks, n) ==> exists i :: 0 <= i < n && hitOf(chunks[i]) == Some(h)
    ensures forall i :: 0 <= i < n && hitOf(chunks[i]).Some? ==> hitOf(chunks[i]).value in Hits(hitOf, chunks, n)
  {
    if n > 0 {
      HitsExact(hitOf, chunks, n - 1);
    }
  }

  /** The hit-collection loop: chunks with an embedding whose similarity can be computed and reaches the threshold. */
  method CollectHits(documents: map<nat, Document>, chunks: seq<ChunkRecord>, req: SearchRequest, sim: ChunkRecord -> Option<real>)
    returns (hits: seq<Hit>)
    ensures hits == Hits(HitFinder(documents, req, sim, ChunkKey), chunks, |chunks|)
  {
    ghost var hitOf := HitFinder(documents, req, sim, ChunkKey);
    hits := [];
    for i := 0 to |chunks|
      invariant hits == Hits(hitOf, chunks, i)
    {
      var c := chunks[i];
      assert hitOf(c) == HitOf(documents, req, sim, ChunkKey, c);
      // the aggregation pipeline's matches and join
      if SameObjectId(c.workspaceId, req.workspaceId) && c.embedding != [] {
        var joined := Lookup(documents, ChunkKey(c));
        if joined.Some? && PassesFilters(req, joined.value) {
          // the scoring loop: a failed similarity skips the chunk
          var s := sim(c);
          if s.Some? && s.value >= req.threshold {
            hits := hits + [Hit(c, joined.value, s.value)];
          }
        }
      }
    }
  }

  // ---------------------------------------------------------------------
  // Grouping by document
  // ---------------------------------------------------------------------

  /** One document's entry: its hits in order, the running maximum (from 0), total and count. */
  datatype Group = Group(doc: Document, hits: seq<Hit>, maxSim: real, total: real, count: nat)

  /** The first entry for the document `docId`, if any. */
  function IndexOfGroup(groups: seq<Group>, docId: nat): (r: Option<nat>)
    ensures r.Some? ==> r.value < |groups| && groups[r.value].doc.id == docId
    ensures r.Some? ==> forall k :: 0 <= k < r.value ==> groups[k].doc.id != docId
    ensures r.None? ==> forall k :: 0 <= k < |groups| ==> groups[k].doc.id != docId
  {
    if groups == [] then None
    else if groups[0].doc.id == docId then Some(0)
    else match IndexOfGroup(groups[1..], docId)
      case None => None
      case Some(i) => Some(i + 1)
  }

  function NewGroup(h: Hit): Group
  {
    Group(h.doc, [], 0.0, 0.0, 0)
  }

  function AddHit(g: Group, h: Hit): Group
  {
    Group(g.doc, g.hits + [h], if g.maxSim >= h.score then g.maxSim else h.score, g.total + h.score, g.count + 1)
  }

  /** The entries after the hit's document has one. */
  function Opened(groups: seq<Group>, h: Hit): (r: seq<Group>)
    ensures IndexOfGroup(r, h.doc.id).Some?
  {
    if IndexOfGroup(groups, h.doc.id).None? then
      var r := groups + [NewGroup(h)];
      assert r[|groups|].doc.id == h.doc.id;
      r
    else groups
  }

  /** One hit added to its document's entry. */
  function Place(groups: seq<Group>, h: Hit): seq<Group>
  {
    var gs := Opened(groups, h);
    var i := IndexOfGroup(gs, h.doc.id).value;
    gs[i := AddHit(gs[i], h)]
  }

  /** The entries after the first `n` hits, each added by `place`. */
  function Grouped<G>(place: (seq<G>, Hit) -> seq<G>, top: seq<Hit>, n: nat): seq<G>
    requires n <= |top|
  {
    if n == 0 then [] else place(Grouped(place, top, n - 1), top[n - 1])
  }

  /** The grouping loop, over a dictionary that keeps insertion order. */
  method GroupHits(top: seq<Hit>) returns (groups: seq<Group>)
    ensures groups == Grouped(Place, top, |top|)
  {
    groups := [];
    for n := 0 to |top|
      invariant groups == Grouped(Place, top, n)
    {
      var h := top[n];
      if IndexOfGroup(groups, h.doc.id).None? {
        groups := groups + [NewGroup(h)];
      }
      assert groups == Opened(Grouped(Place, top, n), h);
      var i := IndexOfGroup(groups, h.doc.id).value;
      var g := groups[i];
      groups := groups[i := AddHit(g, h)];
    }
  }

  /** The similarities of `hits`, summed. */
  function ScoreSum(hits: seq<Hit>): real
  {
    if hits == [] then 0.0 else ScoreSum(hits[..|hits| - 1]) + hits[|hits| - 1].score
  }

  /** What a finished entry satisfies. */
  predicate GroupShape(g: Group)
  {
    && g.count == |g.hits| && g.count >= 1
    && g.doc == g.hits[0].doc
    && g.total == ScoreSum(g.hits)
    && g.maxSim >= 0.0
    && (g.maxSim == 0.0 || exists h :: h in g.hits && h.score == g.maxSim)
    && (forall h :: h in g.hits ==> h.doc.id == g.doc.id && h.score <= g.maxSim)
  }

  /** Well-formed entries, one per document. */
  predicate GroupsShape(groups: seq<Group>)
  {
    && (forall i :: 0 <= i < |groups| ==> GroupShape(groups[i]))
    && (forall i, j :: 0 <= i < j < |groups| ==> groups[i].doc.id != groups[j].doc.id)
  }

  /** All hits of the entries, entry by entry. */
  function Flatten(groups: seq<Group>): seq<Hit>
  {
    if groups == [] then [] else Flatten(groups[..|groups| - 1]) + groups[|groups| - 1].hits
  }

  lemma {:induction false} FlattenAppend(groups: seq<Group>, g: Group)
    ensures Flatten(groups + [g]) == Flatten(groups) + g.hits
  {
    assert (groups + [g])[..|groups|] == groups;
  }

  /** Adding a hit to one entry adds it to the flattened hits. */
  lemma {:induction false} FlattenUpdate(groups: seq<Group>, i: nat, g: Group, h: Hit)
    requires i < |groups| && g.hits == groups[i].hits + [h]
    ensures multiset(Flatten(groups[i := g])) == multiset(Flatten(groups)) + multiset{h}
    decreases |groups|
  {
    var last := |groups| - 1;
    var init := groups[..last];
    SplitLast(groups, i, g);
    HitsAppend(init, groups[last]);
    if i == last {
      HitsAppend(init, g);
    } else {
      HitsAppend(init[i := g], groups[last]);
      FlattenUpdate(init, i, g, h);
    }
  }

  /** A list of entries, and the list with one entry replaced, split before their last entry. */
  lemma SplitLast(groups: seq<Group>, i: nat, g: Group)
    requires i < |groups|
    ensures groups == groups[..|groups| - 1] + [groups[|groups| - 1]]
    ensures i == |groups| - 1 ==> groups[i := g] == groups[..|groups| - 1] + [g]
    ensures i < |groups| - 1 ==> groups[i := g] == groups[..|groups| - 1][i := g] + [groups[|groups| - 1]]
  {
  }

  /** The hits of one more entry are the hits before and that entry's hits. */
  lemma HitsAppend(groups: seq<Group>, g: Group)
    ensures multiset(Flatten(groups + [g])) == multiset(Flatten(groups)) + multiset(g.hits)
  {
    FlattenAppend(groups, g);
  }

  lemma ScoreSumAppend(hits: seq<Hit>, h: Hit)
    ensures ScoreSum(hits + [h]) == ScoreSum(hits) + h.score
  {
    assert (hits + [h])[..|hits|] == hits;
  }

  /** Adding a hit of the entry's document keeps the entry well-formed. */
  lemma AddHitShape(g: Group, h: Hit)
    requires g.count == |g.hits| && g.total == ScoreSum(g.hits) && g.maxSim >= 0.0
    requires g.maxSim == 0.0 || exists x :: x in g.hits && x.score == g.maxSim
    requires forall x :: x in g.hits ==> x.doc.id == g.doc.id && x.score <= g.maxSim
    requires h.doc.id == g.doc.id
    requires if g.hits == [] then h.doc == g.doc else g.hits[0].doc == g.doc
    ensures GroupShape(AddHit(g, h))
  {
    ScoreSumAppend(g.hits, h);
    var a := AddHit(g, h);
    if g.maxSim != 0.0 && g.maxSim >= h.score {
      var x :| x in g.hits && x.score == g.maxSim;
      assert x in a.hits;
    } else if g.maxSim < h.score {
      assert h in a.hits;
    }
  }

  /** A hit joins the entry of its document, or opens a new entry at the end. */
  lemma PlaceCases(groups: seq<Group>, h: Hit)
    ensures IndexOfGroup(groups, h.doc.id).None? ==> Place(groups, h) == groups + [AddHit(NewGroup(h), h)]
    ensures IndexOfGroup(groups, h.doc.id).Some? ==>
      var i := IndexOfGroup(groups, h.doc.id).value;
      Place(groups, h) == groups[i := AddHit(groups[i], h)]
  {
    if IndexOfGroup(groups, h.doc.id).None? {
      var gs := Opened(groups, h);
      assert IndexOfGroup(gs, h.doc.id).value == |groups|;
    }
  }

  lemma AddToExistingShape(groups: seq<Group>, i: nat, h: Hit)
    requires GroupsShape(groups) && i < |groups| && groups[i].doc.id == h.doc.id
    ensures GroupsShape(groups[i := AddHit(groups[i], h)])
  {
    AddHitShape(groups[i], h);
    var r := groups[i := AddHit(groups[i], h)];
    assert forall k :: 0 <= k < |r| ==> r[k].doc == groups[k].doc;
    forall k | 0 <= k < |r| ensures GroupShape(r[k]) {
      if k == i {
        assert r[k] == AddHit(groups[i], h);
      } else {
        assert r[k] == groups[k];
      }
    }
  }

  lemma AddNewShape(groups: seq<Group>, h: Hit)
    requires GroupsShape(groups)
    requires forall k :: 0 <= k < |groups| ==> groups[k].doc.id != h.doc.id
    ensures GroupsShape(groups + [AddHit(NewGroup(h), h)])
  {
    AddHitShape(NewGroup(h), h);
    var r := groups + [AddHit(NewGroup(h), h)];
    forall k | 0 <= k < |r| ensures GroupShape(r[k]) {
      if k < |groups| { assert r[k] == groups[k]; }
    }
  }

  /** One placement keeps the entries well-formed and one per document. */
  lemma PlaceShape(groups: seq<Group>, h: Hit)
    requires GroupsShape(groups)
    ensures GroupsShape(Place(groups, h))
  {
    PlaceCases(groups, h);
    var found := IndexOfGroup(groups, h.doc.id);
    if found.None? {
      AddNewShape(groups, h);
    } else {
      AddToExistingShape(groups, found.value, h);
    }
  }

  /** One placement adds exactly the hit to the entries' hits. */
  lemma PlaceFlatten(groups: seq<Group>, h: Hit)
    ensures multiset(Flatten(Place(groups, h))) == multiset(Flatten(groups)) + multiset{h}
  {
    PlaceCases(groups, h);
    var found := IndexOfGroup(groups, h.doc.id);
    if found.None? {
      FlattenAppend(groups, AddHit(NewGroup(h), h));
    } else {
      FlattenUpdate(groups, found.value, AddHit(groups[found.value], h), h);
    }
  }

  /** The entries are well-formed and there is one per document. */
  lemma {:induction false} GroupedShape(place: (seq<Group>, Hit) -> seq<Group>, top: seq<Hit>, n: nat)
    requires n <= |top|
    requires forall gs, h :: GroupsShape(gs) ==> GroupsShape(place(gs, h))
    ensures GroupsShape(Grouped(place, top, n))
  {
    if n > 0 {
      GroupedShape(place, top, n - 1);
    }
  }

  lemma PrefixMultiset<T>(s: seq<T>, n: nat)
    requires 0 < n <= |s|
    ensures multiset(s[..n]) == multiset(s[..n - 1]) + multiset{s[n - 1]}
  {
    assert s[..n] == s[..n - 1] + [s[n - 1]];
  }

  /**
   * The grouping keeps every hit exactly once: when placing a hit adds just
   * that hit to the entries' hits, the entries hold exactly the hits grouped.
   */
  lemma {:induction false} GroupedHits<G>(place: (seq<G>, Hit) -> seq<G>, hitsOf: seq<G> -> multiset<Hit>, top: seq<Hit>, n: nat)
    requires n <= |top|
    requires hitsOf([]) == multiset{}
    requires forall gs, h :: hitsOf(place(gs, h)) == hitsOf(gs) + multiset{h}
    ensures hitsOf(Grouped(place, top, n)) == multiset(top[..n])
  {
    if n > 0 {
      GroupedHits(place, hitsOf, top, n - 1);
      PrefixMultiset(top, n);
    }
  }

  /** The grouping of the search: well-formed entries, one per document, holding exactly the hits grouped. */
  lemma GroupingSpec(top: seq<Hit>)
    ensures GroupsShape(Grouped(Place, top, |top|))
    ensures multiset(Flatten(Grouped(Place, top, |top|))) == multiset(top)
  {
    forall gs, h | GroupsShape(gs) ensures GroupsShape(Place(gs, h)) {
      PlaceShape(gs, h);
    }
    GroupedShape(Place, top, |top|);
    GroupingKeepsHits(top);
  }

  /** The hits held by a list of entries. */
  function HitsOf(groups: seq<Group>): multiset<Hit>
  {
    multiset(Flatten(groups))
  }

  lemma GroupingKeepsHits(top: seq<Hit>)
    ensures HitsOf(Grouped(Place, top, |top|)) == multiset(top)
  {
    forall gs, h ensures HitsOf(Place(gs, h)) == HitsOf(gs) + multiset{h} {
      PlaceFlatten(gs, h);
    }
    GroupedHits(Place, HitsOf, top, |top|);
    assert top[..|top|] == top;
  }

  // ---------------------------------------------------------------------
  // Scores of an entry
  // ---------------------------------------------------------------------

  /** The running average `total / count` (an entry always holds a hit when it is read). */
  function Avg(g: Group): real
  {
    if g.count == 0 then 0.0 else g.total / (g.count as real)
  }

  function Relevance(g: Group): real
  {
    g.maxSim * MaxWeight + Avg(g) * MeanWeight
  }

  /** Scores that all reach `lo` sum to at least |hits| * lo. */
  lemma {:induction false} ScoreSumAbove(hits: seq<Hit>, lo: real)
    requires forall h :: h in hits ==> lo <= h.score
    ensures (|hits| as real) * lo <= ScoreSum(hits)
  {
    if hits != [] {
      var init := hits[..|hits| - 1];
      assert forall h :: h in init ==> h in hits;
      ScoreSumAbove(init, lo);
      assert hits[|hits| - 1] in hits;
      assert (|hits| as real) * lo == (|init| as real) * lo + lo;
    }
  }

  /** Scores that are all at most `hi` sum to at most |hits| * hi. */
  lemma {:induction false} ScoreSumBelow(hits: seq<Hit>, hi: real)
    requires forall h :: h in hits ==> h.score <= hi
    ensures ScoreSum(hits) <= (|hits| as real) * hi
  {
    if hits != [] {
      var init := hits[..|hits| - 1];
      assert forall h :: h in init ==> h in hits;
      ScoreSumBelow(init, hi);
      assert hits[|hits| - 1] in hits;
      assert (|hits| as real) * hi == (|init| as real) * hi + hi;
    }
  }

  /**
   * An entry whose hits all reach `threshold` has a mean between the threshold
   * and its maximum, so its relevance lies between 0.6 * max + 0.4 * threshold
   * and the maximum.
   */
  lemma RelevanceBounds(g: Group, threshold: real)
    requires GroupShape(g)
    requires forall h :: h in g.hits ==> h.score >= threshold
    ensures threshold <= Avg(g) <= g.maxSim
    ensures g.maxSim * MaxWeight + threshold * MeanWeight <= Relevance(g) <= g.maxSim
    ensures threshold <= g.maxSim
  {
    ScoreSumAbove(g.hits, threshold);
    ScoreSumBelow(g.hits, g.maxSim);
    assert g.hits[0] in g.hits;
    DivBounds(g.total, g.count as real, threshold, g.maxSim);
  }

  /** A mean of values in [lo, hi] lies in [lo, hi]. */
  lemma DivBounds(t: real, c: real, lo: real, hi: real)
    requires c > 0.0 && c * lo <= t <= c * hi
    ensures lo <= t / c <= hi
  {
    assert t / c - lo == (t - c * lo) / c;
    assert hi - t / c == (c * hi - t) / c;
  }


  // ---------------------------------------------------------------------
  // Results
  // ---------------------------------------------------------------------

  function RelevanceOf(r: SearchResult): real { r.relevanceScore }

  /** The chunks of an entry as returned: the workspace id becomes the requested one. */
  function ChunksOf(hits: seq<Hit>, workspaceId: string): (r: seq<ChunkRecord>)
    ensures |r| == |hits|
    ensures forall i :: 0 <= i < |hits| ==> r[i] == hits[i].chunk.(workspaceId := workspaceId)
  {
    if hits == [] then [] else [hits[0].chunk.(workspaceId := workspaceId)] + ChunksOf(hits[1..], workspaceId)
  }

  /** An entry turned into a result: its first five chunks, the maximum as similarity, the relevance. */
  function ResultOf(g: Group, workspaceId: string): SearchResult
  {
    SearchResult(g.doc.(workspaceId := workspaceId), Take(ChunksOf(g.hits, workspaceId), ChunksPerResult as int),
                 g.maxSim, Relevance(g))
  }

  /** The results of the first `n` entries, in the entries' order. */
  function Results(groups: seq<Group>, workspaceId: string, n: nat): (r: seq<SearchResult>)
    requires n <= |groups|
    ensures |r| == n
    ensures forall i :: 0 <= i < n ==> r[i] == ResultOf(groups[i], workspaceId)
  {
    if n == 0 then [] else Results(groups, workspaceId, n - 1) + [ResultOf(groups[n - 1], workspaceId)]
  }

  /** The loop building one result per entry. */
  method MakeResults(groups: seq<Group>, workspaceId: string) returns (results: seq<SearchResult>)
    ensures results == Results(groups, workspaceId, |groups|)
  {
    results := [];
    for i := 0 to |groups|
      invariant results == Results(groups, workspaceId, i)
    {
      var g := groups[i];
      results := results + [ResultOf(g, workspaceId)];
    }
  }

  // ---------------------------------------------------------------------
  // The intended result of one document
  // ---------------------------------------------------------------------

  /** The hits of document `docId` among `hits`, in order. */
  function DocHits(hits: seq<Hit>, docId: nat): (r: seq<Hit>)
    ensures forall h :: h in r ==> h in hits && h.doc.id == docId
  {
    if hits == [] then []
    else
      var init := hits[..|hits| - 1];
      var last := hits[|hits| - 1];
      assert forall h :: h in init ==> h in hits;
      DocHits(init, docId) + (if last.doc.id == docId then [last] else [])
  }

  /** The best similarity among `hits`, starting from 0 as the grouping does. */
  function MaxScore(hits: seq<Hit>): real
  {
    if hits == [] then 0.0
    else
      var m := MaxScore(hits[..|hits| - 1]);
      var s := hits[|hits| - 1].score;
      if m >= s then m else s
  }

  /** The best similarity bounds every hit's and is one of them (or the starting 0). */
  lemma {:induction false} MaxScoreSpec(hits: seq<Hit>)
    ensures forall h :: h in hits ==> h.score <= MaxScore(hits)
    ensures MaxScore(hits) >= 0.0
    ensures MaxScore(hits) == 0.0 || exists h :: h in hits && h.score == MaxScore(hits)
  {
    if hits != [] {
      var init := hits[..|hits| - 1];
      MaxScoreSpec(init);
      assert hits == init + [hits[|hits| - 1]];
    }
  }

  /**
   * What the hits of one document are meant to become: the document, its
   * first five chunks, the best similarity, and 0.6 * best + 0.4 * mean as
   * the relevance.
   */
  function DocResult(hits: seq<Hit>, workspaceId: string): SearchResult
    requires hits != []
  {
    var best := MaxScore(hits);
    var mean := ScoreSum(hits) / (|hits| as real);
    SearchResult(hits[0].doc.(workspaceId := workspaceId), Take(ChunksOf(hits, workspaceId), ChunksPerResult as int),
                 best, best * MaxWeight + mean * MeanWeight)
  }

  /** `y` is kept, or the cut is full and every kept result is at least as relevant. */
  predicate KeptOrOutranked(r: seq<SearchResult>, y: SearchResult, limit: int)
  {
    y in r || ((limit >= 0 ==> |r| == limit) && forall x :: x in r ==> x.relevanceScore >= y.relevanceScore)
  }

  /**
   * `r` ranks the documents of the hits `top`: every result is the intended
   * result of a document with hits in `top`, and every such document's
   * result is kept or outranked by all kept results.
   */
  predicate RanksDocuments(r: seq<SearchResult>, top: seq<Hit>, workspaceId: string, limit: int)
  {
    && (forall x :: x in r ==>
          exists h :: h in top && DocHits(top, h.doc.id) != [] && x == DocResult(DocHits(top, h.doc.id), workspaceId))
    && (forall h :: h in top ==>
          DocHits(top, h.doc.id) != [] && KeptOrOutranked(r, DocResult(DocHits(top, h.doc.id), workspaceId), limit))
  }

  // ---------------------------------------------------------------------
  // The search
  // ---------------------------------------------------------------------

  /** The hits that enter the grouping: the collected hits, best first, cut to `limit * 5`. */
  function TopHits(documents: map<nat, Document>, chunks: seq<ChunkRecord>, req: SearchRequest,
                   sim: ChunkRecord -> Option<real>, key: ChunkRecord -> Bson): seq<Hit>
  {
    Take(SortDesc(Hits(HitFinder(documents, req, sim, key), chunks, |chunks|), HitScore), req.limit * ChunksPerLimit)
  }

  /**
   * `search_documents` with the join key `key`: nothing when the query has no
   * embedding or the workspace id is not an ObjectId; otherwise the hits
   * sorted by similarity, the first `limit * 5` grouped, the results sorted
   * by relevance and cut to `limit`.
   */
  function Search(documents: map<nat, Document>, chunks: seq<ChunkRecord>, req: SearchRequest, queryEmbedding: seq<real>,
                  sim: ChunkRecord -> Option<real>, key: ChunkRecord -> Bson): seq<SearchResult>
  {
    if queryEmbedding == [] || !IsObjectId(req.workspaceId) then []
    else RankGroups(TopHits(documents, chunks, req, sim, key), req.workspaceId, req.limit)
  }

  /** The best hits grouped by document, one result per document, sorted by relevance and cut to `limit`. */
  function RankGroups(top: seq<Hit>, workspaceId: string, limit: int): seq<SearchResult>
  {
    var groups := Grouped(Place, top, |top|);
    Take(SortDesc(Results(groups, workspaceId, |groups|), RelevanceOf), limit)
  }

  /** The search with the intended join. */
  method SearchDocuments(documents: map<nat, Document>, chunks: seq<ChunkRecord>, req: SearchRequest, queryEmbedding: seq<real>,
                         sim: ChunkRecord -> Option<real>)
    returns (results: seq<SearchResult>)
    ensures results == Search(documents, chunks, req, queryEmbedding, sim, ChunkKey)
  {
    if queryEmbedding == [] {
      return [];
    }
    if !IsObjectId(req.workspaceId) {
      // building the pipeline raises, and every error gives no results
      return [];
    }
    var hits := CollectHits(documents, chunks, req, sim);
    var top := Take(SortDesc(hits, HitScore), req.limit * ChunksPerLimit);
    var groups := GroupHits(top);
    var found := MakeResults(groups, req.workspaceId);
    results := Take(SortDesc(found, RelevanceOf), req.limit);
  }

  // ---------------------------------------------------------------------
  // What the search promises
  // ---------------------------------------------------------------------

  /** A hit made of a stored chunk that passes every test. */
  predicate GoodHit(documents: map<nat, Document>, chunks: seq<ChunkRecord>, req: SearchRequest, sim: ChunkRecord -> Option<real>, h: Hit)
  {
    h.chunk in chunks && IsHitFor(documents, req, sim, h.chunk, h)
  }

  /**
   * A result: a ready document of the store that passes the filters, between
   * one and five of its chunks, a similarity at or above the threshold and a
   * relevance between 0.6 * similarity + 0.4 * threshold and the similarity.
   */
  predicate GoodResult(documents: map<nat, Document>, chunks: seq<ChunkRecord>, req: SearchRequest, r: SearchResult)
  {
    && r.document.id in documents
    && r.document == documents[r.document.id].(workspaceId := req.workspaceId)
    && PassesFilters(req, documents[r.document.id])
    && 1 <= |r.chunks| <= ChunksPerResult
    && (forall c :: c in r.chunks ==>
          c.documentId == r.document.id && c.workspaceId == req.workspaceId && c.embedding != []
          && exists o :: o in chunks && o.(workspaceId := req.workspaceId) == c)
    && req.threshold <= r.similarityScore
    && r.similarityScore * MaxWeight + req.threshold * MeanWeight <= r.relevanceScore <= r.similarityScore
  }

  /** Every hit collected with the intended join is good. */
  lemma HitsGood(documents: map<nat, Document>, chunks: seq<ChunkRecord>, req: SearchRequest, sim: ChunkRecord -> Option<real>)
    requires forall id :: id in documents ==> documents[id].id == id
    ensures forall h :: h in Hits(HitFinder(documents, req, sim, ChunkKey), chunks, |chunks|) ==> GoodHit(documents, chunks, req, sim, h)
  {
    var hitOf := HitFinder(documents, req, sim, ChunkKey);
    HitsExact(hitOf, chunks, |chunks|);
    forall h | h in Hits(hitOf, chunks, |chunks|) ensures GoodHit(documents, chunks, req, sim, h) {
      var i :| 0 <= i < |chunks| && hitOf(chunks[i]) == Some(h);
      HitOfSpec(documents, req, sim, chunks[i]);
    }
  }

  /** A hit of an entry is one of the hits flattened. */
  lemma {:induction false} FlattenHas(groups: seq<Group>, i: nat, h: Hit)
    requires i < |groups| && h in groups[i].hits
    ensures h in Flatten(groups)
    decreases |groups|
  {
    var last := |groups| - 1;
    assert groups == groups[..last] + [groups[last]];
    FlattenAppend(groups[..last], groups[last]);
    if i < last {
      FlattenHas(groups[..last], i, h);
    }
  }

  /** An entry of good hits gives a good result. */
  lemma ResultOfGood(documents: map<nat, Document>, chunks: seq<ChunkRecord>, req: SearchRequest, sim: ChunkRecord -> Option<real>, g: Group)
    requires GroupShape(g)
    requires forall h :: h in g.hits ==> GoodHit(documents, chunks, req, sim, h)
    ensures GoodResult(documents, chunks, req, ResultOf(g, req.workspaceId))
  {
    RelevanceBounds(g, req.threshold);
    var r := ResultOf(g, req.workspaceId);
    var all := ChunksOf(g.hits, req.workspaceId);
    TakeIsPrefix(all, ChunksPerResult as int);
    assert g.hits[0] in g.hits;
    forall c | c in r.chunks
      ensures c.documentId == r.document.id && c.workspaceId == req.workspaceId && c.embedding != []
      ensures exists o :: o in chunks && o.(workspaceId := req.workspaceId) == c
    {
      var k :| 0 <= k < |all| && all[k] == c;
      assert g.hits[k] in g.hits;
    }
  }

  /** Results of well-formed entries name each document at most once. */
  lemma ResultsDistinct(groups: seq<Group>, workspaceId: string)
    requires GroupsShape(groups)
    ensures var r := Results(groups, workspaceId, |groups|);
      forall i, j :: 0 <= i < j < |r| ==> r[i].document.id != r[j].document.id
  {
  }

  /** A value occurring twice in a sequence is counted twice by its multiset. */
  lemma CountTwice<T>(s: seq<T>, i: nat, j: nat)
    requires i < j < |s| && s[i] == s[j]
    ensures multiset(s)[s[i]] >= 2
  {
    assert s == s[..j] + s[j..];
    assert s[i] in s[..j];
    assert s[j..][0] == s[j];
  }

  /** A value counted twice occurs at two positions. */
  lemma {:induction false} TwoPositions<T>(s: seq<T>, x: T)
    requires multiset(s)[x] >= 2
    ensures exists i, j :: 0 <= i < j < |s| && s[i] == x && s[j] == x
  {
    assert s == [s[0]] + s[1..];
    if s[0] == x {
      assert x in multiset(s[1..]);
      var j :| 0 <= j < |s[1..]| && s[1..][j] == x;
      assert s[j + 1] == x;
    } else {
      TwoPositions(s[1..], x);
      var i, j :| 0 <= i < j < |s[1..]| && s[1..][i] == x && s[1..][j] == x;
      assert s[i + 1] == x && s[j + 1] == x;
    }
  }

  /** Results with distinct documents are each counted once. */
  lemma CountedOnce(a: seq<SearchResult>)
    requires forall i, j :: 0 <= i < j < |a| ==> a[i].document.id != a[j].document.id
    ensures forall x :: multiset(a)[x] <= 1
  {
    forall x ensures multiset(a)[x] <= 1 {
      if multiset(a)[x] >= 2 {
        TwoPositions(a, x);
        assert false;
      }
    }
  }

  /** Reordering results keeps their documents distinct. */
  lemma PermutationDistinct(a: seq<SearchResult>, b: seq<SearchResult>)
    requires multiset(a) == multiset(b)
    requires forall i, j :: 0 <= i < j < |a| ==> a[i].document.id != a[j].document.id
    ensures forall i, j :: 0 <= i < j < |b| ==> b[i].document.id != b[j].document.id
  {
    CountedOnce(a);
    forall i, j | 0 <= i < j < |b| ensures b[i].document.id != b[j].document.id {
      if b[i] == b[j] {
        CountTwice(b, i, j);
        assert false;
      }
      assert b[i] in multiset(a) && b[j] in multiset(a);
      var p :| 0 <= p < |a| && a[p] == b[i];
      var q :| 0 <= q < |a| && a[q] == b[j];
      assert p != q;
      if p > q {
        assert a[q].document.id != a[p].document.id;
      }
    }
  }

  /** The hits that enter the grouping are good ones. */
  lemma TopGood(documents: map<nat, Document>, chunks: seq<ChunkRecord>, req: SearchRequest, sim: ChunkRecord -> Option<real>)
    requires forall id :: id in documents ==> documents[id].id == id
    ensures var hits := Hits(HitFinder(documents, req, sim, ChunkKey), chunks, |chunks|);
      forall h :: h in Take(SortDesc(hits, HitScore), req.limit * ChunksPerLimit) ==> GoodHit(documents, chunks, req, sim, h)
  {
    var hits := Hits(HitFinder(documents, req, sim, ChunkKey), chunks, |chunks|);
    HitsGood(documents, chunks, req, sim);
    PermutationMembers(hits, SortDesc(hits, HitScore));
    TakeIsPrefix(SortDesc(hits, HitScore), req.limit * ChunksPerLimit);
  }

  /** The hits of the entries are hits grouped. */
  lemma GroupsHoldTop(top: seq<Hit>)
    ensures var groups := Grouped(Place, top, |top|);
      && GroupsShape(groups)
      && forall i, h :: 0 <= i < |groups| && h in groups[i].hits ==> h in top
  {
    var groups := Grouped(Place, top, |top|);
    GroupingSpec(top);
    forall i, h | 0 <= i < |groups| && h in groups[i].hits ensures h in top {
      FlattenHas(groups, i, h);
      assert h in multiset(Flatten(groups));
    }
  }

  /** Entries of good hits give good results, one per document. */
  lemma ResultsGood(documents: map<nat, Document>, chunks: seq<ChunkRecord>, req: SearchRequest, sim: ChunkRecord -> Option<real>,
                    groups: seq<Group>)
    requires GroupsShape(groups)
    requires forall i, h :: 0 <= i < |groups| && h in groups[i].hits ==> GoodHit(documents, chunks, req, sim, h)
    ensures var r := Results(groups, req.workspaceId, |groups|);
      && (forall x :: x in r ==> GoodResult(documents, chunks, req, x))
      && (forall i, j :: 0 <= i < j < |r| ==> r[i].document.id != r[j].document.id)
  {
    forall i | 0 <= i < |groups| ensures GoodResult(documents, chunks, req, ResultOf(groups[i], req.workspaceId)) {
      ResultOfGood(documents, chunks, req, sim, groups[i]);
    }
    ResultsDistinct(groups, req.workspaceId);
  }

  /** Ranking good hits gives sorted, good results, at most `limit`, one per document. */
  lemma RankGroupsSpec(documents: map<nat, Document>, chunks: seq<ChunkRecord>, req: SearchRequest, sim: ChunkRecord -> Option<real>,
                       top: seq<Hit>)
    requires forall h :: h in top ==> GoodHit(documents, chunks, req, sim, h)
    ensures var r := RankGroups(top, req.workspaceId, req.limit);
      && SortedDesc(r, RelevanceOf)
      && (req.limit >= 0 ==> |r| <= req.limit)
      && (forall x :: x in r ==> GoodResult(documents, chunks, req, x))
      && (forall i, j :: 0 <= i < j < |r| ==> r[i].document.id != r[j].document.id)
  {
    var groups := Grouped(Place, top, |top|);
    GroupsHoldTop(top);
    ResultsGood(documents, chunks, req, sim, groups);
    var found := Results(groups, req.workspaceId, |groups|);
    SortAndCut(found, req.limit, x => GoodResult(documents, chunks, req, x));
  }

  /** Sorting by relevance and cutting to `limit` keeps what holds of every result and their distinct documents. */
  lemma SortAndCut(found: seq<SearchResult>, limit: int, good: SearchResult -> bool)
    requires forall x :: x in found ==> good(x)
    requires forall i, j :: 0 <= i < j < |found| ==> found[i].document.id != found[j].document.id
    ensures var r := Take(SortDesc(found, RelevanceOf), limit);
      && SortedDesc(r, RelevanceOf)
      && (limit >= 0 ==> |r| <= limit)
      && (forall x :: x in r ==> good(x))
      && (forall i, j :: 0 <= i < j < |r| ==> r[i].document.id != r[j].document.id)
  {
    var sorted := SortDesc(found, RelevanceOf);
    SortDescSorted(found, RelevanceOf);
    PermutationMembers(found, sorted);
    PermutationDistinct(found, sorted);
    TakeIsPrefix(sorted, limit);
    TakeOfSorted(sorted, RelevanceOf, limit);
  }


  // ---------------------------------------------------------------------
  // The grouping gives each document its intended result
  // ---------------------------------------------------------------------

  lemma DocHitsAppend(hits: seq<Hit>, h: Hit, docId: nat)
    ensures DocHits(hits + [h], docId) == DocHits(hits, docId) + (if h.doc.id == docId then [h] else [])
  {
    assert (hits + [h])[..|hits|] == hits;
  }

  lemma {:induction false} DocHitsNone(hits: seq<Hit>, docId: nat)
    requires forall h :: h in hits ==> h.doc.id != docId
    ensures DocHits(hits, docId) == []
  {
    if hits != [] {
      var init := hits[..|hits| - 1];
      assert forall h :: h in init ==> h in hits;
      DocHitsNone(init, docId);
      assert hits[|hits| - 1] in hits;
    }
  }

  lemma MaxScoreAppend(hits: seq<Hit>, h: Hit)
    ensures MaxScore(hits + [h]) == if MaxScore(hits) >= h.score then MaxScore(hits) else h.score
  {
    assert (hits + [h])[..|hits|] == hits;
  }

  /** Entries holding exactly their document's hits among `s`, with the running maximum, and an entry for every hit's document. */
  predicate GroupsExact(groups: seq<Group>, s: seq<Hit>)
  {
    && (forall i :: 0 <= i < |groups| ==>
          groups[i].hits == DocHits(s, groups[i].doc.id) && groups[i].maxSim == MaxScore(groups[i].hits))
    && (forall h :: h in s ==> exists k :: 0 <= k < |groups| && groups[k].doc.id == h.doc.id)
  }

  /** Placing a hit opens the entry of a new document at the end. */
  lemma PlaceNewExact(groups: seq<Group>, s: seq<Hit>, h: Hit)
    requires GroupsExact(groups, s)
    requires IndexOfGroup(groups, h.doc.id).None?
    ensures GroupsExact(groups + [AddHit(NewGroup(h), h)], s + [h])
  {
    var r := groups + [AddHit(NewGroup(h), h)];
    forall x | x in s ensures x.doc.id != h.doc.id {
      var k :| 0 <= k < |groups| && groups[k].doc.id == x.doc.id;
    }
    DocHitsNone(s, h.doc.id);
    MaxScoreAppend([], h);
    assert [] + [h] == [h];
    forall k | 0 <= k < |r| ensures r[k].hits == DocHits(s + [h], r[k].doc.id) && r[k].maxSim == MaxScore(r[k].hits) {
      DocHitsAppend(s, h, r[k].doc.id);
      if k < |groups| {
        assert r[k] == groups[k];
      }
    }
    forall x | x in s + [h] ensures exists k :: 0 <= k < |r| && r[k].doc.id == x.doc.id {
      if x == h {
        assert r[|groups|].doc.id == h.doc.id;
      } else {
        var k :| 0 <= k < |groups| && groups[k].doc.id == x.doc.id;
        assert r[k] == groups[k];
      }
    }
  }

  /** Placing a hit of a document that has an entry adds it to that entry only. */
  lemma PlaceOldExact(groups: seq<Group>, s: seq<Hit>, h: Hit, i: nat)
    requires GroupsExact(groups, s)
    requires i < |groups| && groups[i].doc.id == h.doc.id
    requires forall k :: 0 <= k < |groups| && k != i ==> groups[k].doc.id != h.doc.id
    ensures GroupsExact(groups[i := AddHit(groups[i], h)], s + [h])
  {
    var r := groups[i := AddHit(groups[i], h)];
    forall k | 0 <= k < |r| ensures r[k].hits == DocHits(s + [h], r[k].doc.id) && r[k].maxSim == MaxScore(r[k].hits) {
      DocHitsAppend(s, h, r[k].doc.id);
      if k == i {
        MaxScoreAppend(groups[i].hits, h);
      } else {
        assert r[k] == groups[k];
        assert groups[k].doc.id != h.doc.id;
      }
    }
    forall x | x in s + [h] ensures exists k :: 0 <= k < |r| && r[k].doc.id == x.doc.id {
      if x == h {
        assert r[i].doc.id == h.doc.id;
      } else {
        var k :| 0 <= k < |groups| && groups[k].doc.id == x.doc.id;
        assert r[k].doc.id == groups[k].doc.id;
      }
    }
  }

  /** Entries for distinct documents. */
  predicate DistinctDocs(groups: seq<Group>)
  {
    forall i, j :: 0 <= i < j < |groups| ==> groups[i].doc.id != groups[j].doc.id
  }

  /** The entries after any number of hits are well-formed, for distinct documents. */
  lemma GroupedDistinct(top: seq<Hit>, n: nat)
    requires n <= |top|
    ensures GroupsShape(Grouped(Place, top, n))
    ensures DistinctDocs(Grouped(Place, top, n))
  {
    forall gs, h | GroupsShape(gs) ensures GroupsShape(Place(gs, h)) {
      PlaceShape(gs, h);
    }
    GroupedShape(Place, top, n);
  }

  /** One more hit keeps the entries exact. */
  lemma PlaceExact(groups: seq<Group>, s: seq<Hit>, h: Hit)
    requires DistinctDocs(groups) && GroupsExact(groups, s)
    ensures GroupsExact(Place(groups, h), s + [h])
  {
    PlaceCases(groups, h);
    match IndexOfGroup(groups, h.doc.id)
    case None => PlaceNewExact(groups, s, h);
    case Some(i) => PlaceOldExact(groups, s, h, i);
  }

  /** After the first `n` hits the entries hold exactly each document's hits among them. */
  lemma {:induction false} GroupedExact(top: seq<Hit>, n: nat)
    requires n <= |top|
    ensures GroupsExact(Grouped(Place, top, n), top[..n])
  {
    if n > 0 {
      GroupedExact(top, n - 1);
      assert top[..n] == top[..n - 1] + [top[n - 1]];
      GroupedDistinct(top, n - 1);
      PlaceExact(Grouped(Place, top, n - 1), top[..n - 1], top[n - 1]);
    }
  }

  /** An entry holding its document's hits with their maximum gives that document's intended result. */
  lemma ResultIsDocResult(g: Group, workspaceId: string)
    requires GroupShape(g) && g.maxSim == MaxScore(g.hits)
    ensures ResultOf(g, workspaceId) == DocResult(g.hits, workspaceId)
  {
  }

  /** Sorting by relevance and cutting to `limit` keeps only given results, and leaves out only results every kept one outranks. */
  lemma CutKeepsBest(found: seq<SearchResult>, limit: int)
    ensures var r := Take(SortDesc(found, RelevanceOf), limit);
      && (forall x :: x in r ==> x in found)
      && (forall y :: y in found ==> KeptOrOutranked(r, y, limit))
  {
    var sorted := SortDesc(found, RelevanceOf);
    var r := Take(sorted, limit);
    SortDescSorted(found, RelevanceOf);
    PermutationMembers(found, sorted);
    TakeIsPrefix(sorted, limit);
    TakeOfSorted(sorted, RelevanceOf, limit);
    forall y | y in found ensures KeptOrOutranked(r, y, limit) {
      assert y in multiset(sorted);
      var p :| 0 <= p < |sorted| && sorted[p] == y;
      if p >= |r| {
        forall x | x in r ensures x.relevanceScore >= y.relevanceScore {
          var q :| 0 <= q < |r| && r[q] == x;
          assert sorted[q] == x;
        }
      } else {
        assert r[p] == y;
      }
    }
  }

  /** Every result found is the intended result of a document of `top`, and every document of `top` has its result found. */
  predicate FoundAll(found: seq<SearchResult>, top: seq<Hit>, workspaceId: string)
  {
    && (forall x :: x in found ==>
          exists h :: h in top && DocHits(top, h.doc.id) != [] && x == DocResult(DocHits(top, h.doc.id), workspaceId))
    && (forall h :: h in top ==> DocHits(top, h.doc.id) != [] && DocResult(DocHits(top, h.doc.id), workspaceId) in found)
  }

  /** The result of an exact entry is the intended result of the document of its first hit. */
  lemma ExactResultAt(groups: seq<Group>, top: seq<Hit>, workspaceId: string, i: nat)
    requires i < |groups| && GroupShape(groups[i]) && GroupsExact(groups, top)
    ensures var h := groups[i].hits[0];
      && h in top && h.doc.id == groups[i].doc.id && DocHits(top, h.doc.id) != []
      && ResultOf(groups[i], workspaceId) == DocResult(DocHits(top, h.doc.id), workspaceId)
  {
    assert groups[i].hits[0] in groups[i].hits;
    ResultIsDocResult(groups[i], workspaceId);
  }

  /** A result of exact, well-formed entries is the intended result of a document of `top`. */
  lemma ExactFoundOne(groups: seq<Group>, top: seq<Hit>, workspaceId: string, x: SearchResult)
    requires GroupsShape(groups) && GroupsExact(groups, top)
    requires x in Results(groups, workspaceId, |groups|)
    ensures exists h :: h in top && DocHits(top, h.doc.id) != [] && x == DocResult(DocHits(top, h.doc.id), workspaceId)
  {
    var found := Results(groups, workspaceId, |groups|);
    var i :| 0 <= i < |found| && found[i] == x;
    ExactResultAt(groups, top, workspaceId, i);
    var h := groups[i].hits[0];
    assert h in top && DocHits(top, h.doc.id) != [] && x == DocResult(DocHits(top, h.doc.id), workspaceId);
  }

  /** Every result of exact, well-formed entries is the intended result of a document of `top`. */
  lemma ExactFoundSound(groups: seq<Group>, top: seq<Hit>, workspaceId: string)
    requires GroupsShape(groups) && GroupsExact(groups, top)
    ensures var found := Results(groups, workspaceId, |groups|);
      forall x :: x in found ==>
        exists h :: h in top && DocHits(top, h.doc.id) != [] && x == DocResult(DocHits(top, h.doc.id), workspaceId)
  {
    forall x | x in Results(groups, workspaceId, |groups|)
      ensures exists h :: h in top && DocHits(top, h.doc.id) != [] && x == DocResult(DocHits(top, h.doc.id), workspaceId)
    {
      ExactFoundOne(groups, top, workspaceId, x);
    }
  }

  /** Every document of `top` has its intended result among the results of exact, well-formed entries. */
  lemma ExactFoundComplete(groups: seq<Group>, top: seq<Hit>, workspaceId: string)
    requires GroupsShape(groups) && GroupsExact(groups, top)
    ensures var found := Results(groups, workspaceId, |groups|);
      forall h :: h in top ==> DocHits(top, h.doc.id) != [] && DocResult(DocHits(top, h.doc.id), workspaceId) in found
  {
    var found := Results(groups, workspaceId, |groups|);
    forall h | h in top ensures DocHits(top, h.doc.id) != [] && DocResult(DocHits(top, h.doc.id), workspaceId) in found {
      var k :| 0 <= k < |groups| && groups[k].doc.id == h.doc.id;
      ExactResultAt(groups, top, workspaceId, k);
      assert found[k] in found;
    }
  }

  /** The grouping finds the intended result of every document of `top`, and nothing else. */
  lemma GroupsFindAll(top: seq<Hit>, workspaceId: string)
    ensures var groups := Grouped(Place, top, |top|);
      FoundAll(Results(groups, workspaceId, |groups|), top, workspaceId)
  {
    GroupedExact(top, |top|);
    GroupedDistinct(top, |top|);
    assert top[..|top|] == top;
    ExactFoundSound(Grouped(Place, top, |top|), top, workspaceId);
    ExactFoundComplete(Grouped(Place, top, |top|), top, workspaceId);
  }

  /** Cutting what was found to the `limit` most relevant ranks the documents of `top`. */
  lemma CutRanks(found: seq<SearchResult>, top: seq<Hit>, workspaceId: string, limit: int)
    requires FoundAll(found, top, workspaceId)
    ensures RanksDocuments(Take(SortDesc(found, RelevanceOf), limit), top, workspaceId, limit)
  {
    CutKeepsBest(found, limit);
  }

  /** The ranking gives the intended result of each document of `top`, keeping the `limit` most relevant. */
  lemma RankGroupsComplete(top: seq<Hit>, workspaceId: string, limit: int)
    ensures RanksDocuments(RankGroups(top, workspaceId, limit), top, workspaceId, limit)
  {
    var groups := Grouped(Place, top, |top|);
    GroupsFindAll(top, workspaceId);
    CutRanks(Results(groups, workspaceId, |groups|), top, workspaceId, limit);
  }

  /** A collected hit is one of the hits that enter the grouping, or the cut is below it. */
  lemma TopHitsHas(documents: map<nat, Document>, chunks: seq<ChunkRecord>, req: SearchRequest, sim: ChunkRecord -> Option<real>)
    ensures var hits := Hits(HitFinder(documents, req, sim, ChunkKey), chunks, |chunks|);
      var top := TopHits(documents, chunks, req, sim, ChunkKey);
      && (forall h :: h in top ==> h in hits)
      && (hits != [] && req.limit >= 1 ==> top != [])
  {
    var hits := Hits(HitFinder(documents, req, sim, ChunkKey), chunks, |chunks|);
    PermutationMembers(hits, SortDesc(hits, HitScore));
    TakeIsPrefix(SortDesc(hits, HitScore), req.limit * ChunksPerLimit);
  }

  /**
   * The search finds something exactly when something is there: with a query
   * embedding, a well-formed workspace id and a positive limit, the results
   * are empty exactly when no stored chunk passes every test.
   */
  lemma SearchFindsResults(documents: map<nat, Document>, chunks: seq<ChunkRecord>, req: SearchRequest, queryEmbedding: seq<real>,
                           sim: ChunkRecord -> Option<real>)
    requires forall id :: id in documents ==> documents[id].id == id
    requires queryEmbedding != [] && IsObjectId(req.workspaceId) && req.limit >= 1
    ensures Search(documents, chunks, req, queryEmbedding, sim, ChunkKey) != [] <==>
      exists c, h :: c in chunks && IsHitFor(documents, req, sim, c, h)
  {
    var hitOf := HitFinder(documents, req, sim, ChunkKey);
    var hits := Hits(hitOf, chunks, |chunks|);
    var top := TopHits(documents, chunks, req, sim, ChunkKey);
    var r := Search(documents, chunks, req, queryEmbedding, sim, ChunkKey);
    RankGroupsComplete(top, req.workspaceId, req.limit);
    TopHitsHas(documents, chunks, req, sim);
    HitsGood(documents, chunks, req, sim);
    if r != [] {
      assert r[0] in r;
      var h :| h in top && DocHits(top, h.doc.id) != [] && r[0] == DocResult(DocHits(top, h.doc.id), req.workspaceId);
      assert GoodHit(documents, chunks, req, sim, h);
    }
    if exists c, h :: c in chunks && IsHitFor(documents, req, sim, c, h) {
      var c, h :| c in chunks && IsHitFor(documents, req, sim, c, h);
      var i :| 0 <= i < |chunks| && chunks[i] == c;
      HitOfSpec(documents, req, sim, c);
      HitsExact(hitOf, chunks, |chunks|);
      assert hitOf(chunks[i]) == HitOf(documents, req, sim, ChunkKey, c);
      assert hitOf(chunks[i]).value in hits;
      assert top[0] in top;
    }
  }


  /**
   * What the search promises: nothing without a query embedding or with a
   * malformed workspace id; otherwise results sorted by relevance, at most
   * `limit` of them, each a good result, and no document twice; the results
   * are the intended results of the documents of the best `limit * 5` hits,
   * the `limit` most relevant of them kept.
   */
  lemma SearchSpec(documents: map<nat, Document>, chunks: seq<ChunkRecord>, req: SearchRequest, queryEmbedding: seq<real>,
                   sim: ChunkRecord -> Option<real>)
    requires forall id :: id in documents ==> documents[id].id == id
    ensures var r := Search(documents, chunks, req, queryEmbedding, sim, ChunkKey);
      && (queryEmbedding == [] || !IsObjectId(req.workspaceId) ==> r == [])
      && SortedDesc(r, RelevanceOf)
      && (req.limit >= 0 ==> |r| <= req.limit)
      && (forall x :: x in r ==> GoodResult(documents, chunks, req, x))
      && (forall i, j :: 0 <= i < j < |r| ==> r[i].document.id != r[j].document.id)
      && (queryEmbedding != [] && IsObjectId(req.workspaceId) ==>
            RanksDocuments(r, TopHits(documents, chunks, req, sim, ChunkKey), req.workspaceId, req.limit))
  {
    if queryEmbedding != [] && IsObjectId(req.workspaceId) {
      var top := TopHits(documents, chunks, req, sim, ChunkKey);
      TopGood(documents, chunks, req, sim);
      RankGroupsSpec(documents, chunks, req, sim, top);
      RankGroupsComplete(top, req.workspaceId, req.limit);
    }
  }

  /** With the stored text key, no chunk ever joins with a document, so no hit is collected. */
  lemma {:induction false} StoredKeyFindsNothing(documents: map<nat, Document>, chunks: seq<ChunkRecord>, req: SearchRequest,
                                                 sim: ChunkRecord -> Option<real>, n: nat)
    requires n <= |chunks|
    ensures Hits(HitFinder(documents, req, sim, StoredChunkKey), chunks, n) == []
  {
    if n > 0 {
      StoredKeyFindsNothing(documents, chunks, req, sim, n - 1);
    }
  }

  /** The search as written, joining the stored text key against ObjectIds, returns nothing whatever is stored. */
  lemma SearchAsWrittenIsEmpty(documents: map<nat, Document>, chunks: seq<ChunkRecord>, req: SearchRequest, queryEmbedding: seq<real>,
                               sim: ChunkRecord -> Option<real>)
    ensures Search(documents, chunks, req, queryEmbedding, sim, StoredChunkKey) == []
  {
    StoredKeyFindsNothing(documents, chunks, req, sim, |chunks|);
  }
}
