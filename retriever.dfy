/** The two rankers of the retrieval back end, over their numeric oracles: the query-time
    rerank of vector-search hits widened through shared concepts, and the document recommender.

    The vector index, the sentence encoder and the dot products are not modelled: a search
    result is given as its list of hits, and a similarity as a function of the stored row. */
module Retriever {
  import opened Wrappers
  import opened Lists
  import opened Dicts
  import opened Strings
  import opened Sorting
  import opened DirectedGraph
  import opened KnowledgeGraph
  import opened Ingest

  /** One row of a vector-index search: a stored position (-1 pads a short result) and its similarity. */
  type Hit = (int, real)

  // ---------------------------------------------------------------- ann_search

  /** `ann_search`: the id of the chunk at each returned position, with the similarity.
      Positions are used the way Python indexes a list, so -1 names the last chunk. */
  function AnnSearch(chunks: seq<ChunkRecord>, hits: seq<Hit>): (r: Result<seq<(string, real)>>)
    ensures r.Ok? <==> forall j :: 0 <= j < |hits| ==> PyIndex(|chunks|, hits[j].0).Some?
    ensures r.Err? ==> r.error.IndexError?
    ensures r.Ok? ==> |r.value| == |hits|
    ensures r.Ok? ==> forall j :: 0 <= j < |hits| ==>
      r.value[j] == (chunks[PyIndex(|chunks|, hits[j].0).value].id, hits[j].1)
  {
    if hits == [] then Ok([])
    else
      var rest := AnnSearch(chunks, hits[1..]);
      assert forall j :: 1 <= j < |hits| ==> hits[j] == hits[1..][j - 1];
      match PyIndex(|chunks|, hits[0].0)
      case None => Err(IndexError(hits[0].0))
      case Some(p) =>
        if rest.Err? then rest else Ok([(chunks[p].id, hits[0].1)] + rest.value)
  }

  // ---------------------------------------------------------------- chunk lookup

  /** The position of the last record with id `cid`: the one `CHUNK_BY_ID` keeps, as a later
      entry of the dict comprehension overwrites an earlier one. */
  function LastPos(chunks: seq<ChunkRecord>, cid: string): (r: Option<nat>)
    ensures r.None? <==> forall i :: 0 <= i < |chunks| ==> chunks[i].id != cid
    ensures r.Some? ==> r.value < |chunks| && chunks[r.value].id == cid
    ensures r.Some? ==> forall j :: r.value < j < |chunks| ==> chunks[j].id != cid
  {
    if chunks == [] then None
    else if chunks[|chunks| - 1].id == cid then Some(|chunks| - 1)
    else LastPos(chunks[..|chunks| - 1], cid)
  }

  /** The position `next(i for i, x in enumerate(CHUNKS) if x["id"] == cid)` finds. */
  function FirstPos(chunks: seq<ChunkRecord>, cid: string): (r: Option<nat>)
    ensures r.None? <==> forall i :: 0 <= i < |chunks| ==> chunks[i].id != cid
    ensures r.Some? ==> r.value < |chunks| && chunks[r.value].id == cid
    ensures r.Some? ==> forall j :: 0 <= j < r.value ==> chunks[j].id != cid
  {
    if chunks == [] then None
    else if chunks[0].id == cid then Some(0)
    else
      var r := FirstPos(chunks[1..], cid);
      if r.None? then None else Some(r.value + 1)
  }

  /** With distinct chunk ids, the record the dict keeps is the one at the position the search finds. */
  lemma FirstIsLast(chunks: seq<ChunkRecord>, cid: string)
    requires Distinct(ChunkIdList(chunks))
    ensures FirstPos(chunks, cid) == LastPos(chunks, cid)
  {
    var f, l := FirstPos(chunks, cid), LastPos(chunks, cid);
    if f.Some? {
      assert l.Some?;
      var ids := ChunkIdList(chunks);
      assert ids[f.value] == cid && ids[l.value] == cid;
      assert f.value == l.value;
    } else {
      assert l.None?;
    }
  }

  /** The search loop of `next(...)`, for an id that some record has. */
  method FindFirst(chunks: seq<ChunkRecord>, cid: string) returns (idx: nat)
    requires exists i :: 0 <= i < |chunks| && chunks[i].id == cid
    ensures Some(idx) == FirstPos(chunks, cid)
  {
    idx := 0;
    while chunks[idx].id != cid
      invariant idx < |chunks|
      invariant forall j :: 0 <= j < idx ==> chunks[j].id != cid
      decreases |chunks| - idx
    {
      idx := idx + 1;
    }
    FirstPosAt(chunks, cid, idx);
  }

  lemma {:induction false} FirstPosAt(chunks: seq<ChunkRecord>, cid: string, idx: nat)
    requires idx < |chunks| && chunks[idx].id == cid
    requires forall j :: 0 <= j < idx ==> chunks[j].id != cid
    ensures FirstPos(chunks, cid) == Some(idx)
  {
    if idx > 0 {
      FirstPosAt(chunks[1..], cid, idx - 1);
    }
  }

  // ---------------------------------------------------------------- expand_and_rerank

  /** The ids of the base hits. */
  function HitIds(base: seq<(string, real)>): set<string> {
    set j | 0 <= j < |base| :: base[j].0
  }

  lemma {:induction false} HitIdsCard(base: seq<(string, real)>)
    ensures |HitIds(base)| <= |base|
  {
    if base != [] {
      var init := base[..|base| - 1];
      HitIdsCard(init);
      assert HitIds(base) == HitIds(init) + {base[|base| - 1].0} by {
        forall x ensures x in HitIds(base) <==> x in HitIds(init) + {base[|base| - 1].0} {
          if x in HitIds(base) {
            var j :| 0 <= j < |base| && base[j].0 == x;
            if j < |base| - 1 {
              assert init[j] == base[j];
            }
          }
          if x in HitIds(init) {
            var j :| 0 <= j < |init| && init[j].0 == x;
            assert base[j] == init[j];
          }
        }
      }
    }
  }

  /** The `max_neighbors` that `expand_and_rerank` passes to `neighbor_chunks_by_concepts`. */
  const MaxNeighbours := 6

  /** `n` is a list `neighbor_chunks_by_concepts(cid, max_neighbors=6)` can return: distinct
      concept neighbours of `cid`, as many as Python's `[:6]` keeps of the neighbour set. */
  ghost predicate NeighbourList(g: Graph, cid: string, n: seq<string>) {
    && Distinct(n)
    && (forall x :: x in n ==> x in Neighbours(g, cid))
    && |n| == SliceEnd(|Neighbours(g, cid)|, MaxNeighbours)
  }

  /** `ns[j]` is the neighbour list returned for the `j`-th base hit, for the first `|ns|` hits. */
  ghost predicate NeighbourListsSoFar(g: Graph, base: seq<(string, real)>, ns: seq<seq<string>>) {
    && |ns| <= |base|
    && forall j :: 0 <= j < |ns| ==> NeighbourList(g, base[j].0, ns[j])
  }

  /** `ns[j]` is the neighbour list returned for the `j`-th base hit, for every hit. */
  ghost predicate NeighbourLists(g: Graph, base: seq<(string, real)>, ns: seq<seq<string>>) {
    |ns| == |base| && NeighbourListsSoFar(g, base, ns)
  }

  lemma NeighbourListsSnoc(g: Graph, base: seq<(string, real)>, ns: seq<seq<string>>, n: seq<string>)
    requires NeighbourListsSoFar(g, base, ns) && |ns| < |base| && NeighbourList(g, base[|ns|].0, n)
    ensures NeighbourListsSoFar(g, base, ns + [n])
  {
  }

  /** The ids listed in any of `ns`. */
  function Flatten(ns: seq<seq<string>>): (r: set<string>)
    ensures forall x :: x in r <==> exists j :: 0 <= j < |ns| && x in ns[j]
  {
    if ns == [] then {}
    else
      var init, last := ns[..|ns| - 1], ns[|ns| - 1];
      assert forall j :: 0 <= j < |init| ==> init[j] == ns[j];
      Flatten(init) + set x | x in last
  }

  /** The candidate set the loop builds: the base ids united with every neighbour list. */
  function CandidateSet(base: seq<(string, real)>, ns: seq<seq<string>>): set<string> {
    HitIds(base) + Flatten(ns)
  }

  /** One expansion step unites one more neighbour list, adding at most six ids. */
  lemma ExpandStep(base: seq<(string, real)>, ns: seq<seq<string>>, neighs: seq<string>)
    requires Distinct(neighs) && |neighs| <= MaxNeighbours
    ensures CandidateSet(base, ns + [neighs]) == CandidateSet(base, ns) + set x | x in neighs
    ensures |CandidateSet(base, ns + [neighs])| <= |CandidateSet(base, ns)| + MaxNeighbours
  {
    assert (ns + [neighs])[..|ns|] == ns;
    DistinctCardinality(neighs);
  }

  /** What the expansion promises: every candidate is a base id or a concept neighbour of one,
      every base id is a candidate, and a base id with at most six neighbours has all of them
      among the candidates. */
  lemma CandidatesMeaning(g: Graph, base: seq<(string, real)>, ns: seq<seq<string>>, x: string)
    requires NeighbourLists(g, base, ns)
    ensures x in CandidateSet(base, ns) ==>
      x in HitIds(base) || exists j :: 0 <= j < |base| && x in Neighbours(g, base[j].0)
    ensures x in HitIds(base) ==> x in CandidateSet(base, ns)
    ensures forall j :: 0 <= j < |base| && |Neighbours(g, base[j].0)| <= MaxNeighbours && x in Neighbours(g, base[j].0) ==>
      x in CandidateSet(base, ns)
  {
    forall j | 0 <= j < |base| && |Neighbours(g, base[j].0)| <= MaxNeighbours && x in Neighbours(g, base[j].0)
      ensures x in CandidateSet(base, ns)
    {
      assert NeighbourList(g, base[j].0, ns[j]);
      DistinctCovers(ns[j], Neighbours(g, base[j].0));
    }
  }

  /** The candidate loop of `expand_and_rerank`: the base ids, and for each of them the list
      `neighbor_chunks_by_concepts` returns, which is `ns[j]`. */
  method Candidates(gs: GraphStore, base: seq<(string, real)>) returns (cands: set<string>, ghost ns: seq<seq<string>>)
    requires gs.Valid()
    ensures NeighbourLists(gs.G, base, ns)
    ensures cands == CandidateSet(base, ns)
    ensures |cands| <= 7 * |base|
  {
    cands := HitIds(base);
    ns := [];
    HitIdsCard(base);
    for j := 0 to |base|
      invariant gs.Valid()
      invariant |ns| == j && NeighbourListsSoFar(gs.G, base, ns)
      invariant cands == CandidateSet(base, ns)
      invariant |cands| <= |base| + MaxNeighbours * j
    {
      var neighs := gs.NeighborChunksByConcepts(base[j].0, MaxNeighbours);
      ExpandStep(base, ns, neighs);
      NeighbourListsSnoc(gs.G, base, ns, neighs);
      cands := cands + set x | x in neighs;
      ns := ns + [neighs];
    }
  }

  /** `set(t for t in q.lower().split() if len(t) > 2)`. */
  function QueryTerms(q: string): set<string> {
    set t | t in Words(Lower(q)) && |t| > 2
  }

  /** `len(q_terms.intersection(set(c["concepts"])))`. */
  function Overlap(terms: set<string>, concepts: seq<string>): nat {
    |terms * (set k | k in concepts)|
  }

  lemma {:induction false} SubsetCard<T>(a: set<T>, b: set<T>)
    requires a <= b
    ensures |a| <= |b|
  {
    if a != {} {
      var x :| x in a;
      SubsetCard(a - {x}, b - {x});
    }
  }

  /** The overlap counts query terms, so it is never more than their number. */
  lemma OverlapBounded(terms: set<string>, concepts: seq<string>)
    ensures Overlap(terms, concepts) <= |terms|
    ensures Overlap(terms, concepts) <= |concepts|
  {
    SubsetCard(terms * (set k | k in concepts), terms);
    var cs := set k | k in concepts;
    SubsetCard(terms * cs, cs);
    CardOfElements(concepts);
  }

  lemma {:induction false} CardOfElements<T>(s: seq<T>)
    ensures |set x | x in s| <= |s|
  {
    if s != [] {
      var init := s[..|s| - 1];
      CardOfElements(init);
      assert (set x | x in s) == (set x | x in init) + {s[|s| - 1]} by {
        assert s == init + [s[|s| - 1]];
      }
    }
  }

  /** `0.6*emb_sim + 0.25*c_overlap + 0.15*doc_pr`. */
  function Score(sim: real, overlap: nat, pr: real): real {
    0.6 * sim + 0.25 * overlap as real + 0.15 * pr
  }

  /** At equal similarity and pagerank, more overlap means a strictly higher score, and only then. */
  lemma ScoreByOverlap(sim: real, pr: real, o1: nat, o2: nat)
    ensures Score(sim, o1, pr) < Score(sim, o2, pr) <==> o1 < o2
  {
  }

  /** The tuple `(score, cid)` the loop appends for candidate `cid`, or the KeyError of
      `CHUNK_BY_ID[cid]` or of `get_doc_info`; `sim(i)` is the similarity of the query to row `i`. */
  function ScoreOf(chunks: seq<ChunkRecord>, g: Graph, sim: nat -> real, terms: set<string>, cid: string): (r: Result<(real, string)>)
    ensures r.Ok? ==> r.value.1 == cid
    ensures r.Ok? <==> LastPos(chunks, cid).Some? && DocInfoOf(g, chunks[LastPos(chunks, cid).value].docId).Ok?
  {
    match LastPos(chunks, cid)
    case None => Err(KeyError(cid))
    case Some(p) =>
      var c := chunks[p];
      var idx := FirstPos(chunks, cid).value;
      match DocInfoOf(g, c.docId)
      case Err(e) => Err(e)
      case Ok(info) => Ok((Score(sim(idx), Overlap(terms, c.concepts), info.pagerank), cid))
  }

  /** The scoring of one candidate, as a function the loop applies to each. */
  function ScoreFn(chunks: seq<ChunkRecord>, g: Graph, sim: nat -> real, terms: set<string>): string -> Result<(real, string)> {
    cid => ScoreOf(chunks, g, sim, terms, cid)
  }

  /** `a >= b` on `(score, cid)` tuples: the score decides, then the id as a string. */
  predicate TupleGe(a: (real, string), b: (real, string)) {
    a.0 > b.0 || (a.0 == b.0 && StrLe(b.1, a.1))
  }

  /** Tuples compare totally, and only equal tuples tie. */
  lemma TupleGeOrder()
    ensures TotalPreorder(TupleGe) && Antisymmetric(TupleGe)
  {
    forall a: (real, string), b: (real, string) ensures TupleGe(a, b) || TupleGe(b, a) {
      StrLeTotal(a.1, b.1);
    }
    forall a: (real, string), b: (real, string), c: (real, string) | TupleGe(a, b) && TupleGe(b, c)
      ensures TupleGe(a, c)
    {
      if a.0 == b.0 && b.0 == c.0 {
        StrLeTrans(c.1, b.1, a.1);
      }
    }
    forall a: (real, string), b: (real, string) | TupleGe(a, b) && TupleGe(b, a) ensures a == b {
      StrLeAntisymmetric(a.1, b.1);
    }
  }

  function TupleIds(ts: seq<(real, string)>): (r: seq<string>)
    ensures |r| == |ts| && forall i :: 0 <= i < |ts| ==> r[i] == ts[i].1
  {
    seq(|ts|, i requires 0 <= i < |ts| => ts[i].1)
  }

  /** `CHUNK_BY_ID[cid]`. */
  function Lookup(chunks: seq<ChunkRecord>, cid: string): (r: Result<ChunkRecord>)
    ensures r.Ok? <==> exists i :: 0 <= i < |chunks| && chunks[i].id == cid
    ensures r.Ok? ==> r.value.id == cid && r.value in chunks
  {
    match LastPos(chunks, cid)
    case None => Err(KeyError(cid))
    case Some(p) => Ok(chunks[p])
  }

  function LookupFn(chunks: seq<ChunkRecord>): string -> Result<ChunkRecord> {
    cid => Lookup(chunks, cid)
  }

  /** The ids `expand_and_rerank` keeps: the scored tuples sorted in reverse, then cut to `top_n`. */
  function TopIds(sc: seq<(real, string)>, topN: int): (r: seq<string>) {
    var sorted := SortDesc(sc, TupleGe);
    TupleIds(sorted[..SliceEnd(|sorted|, topN)])
  }

  /** What `expand_and_rerank` returns when it visits the candidates in the order `l`. */
  function Rerank(chunks: seq<ChunkRecord>, g: Graph, sim: nat -> real, terms: set<string>, l: seq<string>, topN: int): Result<seq<ChunkRecord>> {
    match MapAll(ScoreFn(chunks, g, sim, terms), l)
    case Err(e) => Err(e)
    case Ok(sc) => MapAll(LookupFn(chunks), TopIds(sc, topN))
  }

  /** Each scored tuple is the score of the candidate it names, and each candidate has one. */
  lemma ScoredTuples(chunks: seq<ChunkRecord>, g: Graph, sim: nat -> real, terms: set<string>, l: seq<string>)
    requires Distinct(l) && MapAll(ScoreFn(chunks, g, sim, terms), l).Ok?
    ensures var sc := MapAll(ScoreFn(chunks, g, sim, terms), l).value;
      && Distinct(sc)
      && (forall t :: t in sc ==> t.1 in l && Ok(t) == ScoreOf(chunks, g, sim, terms, t.1))
      && (forall x :: x in l ==> ScoreOf(chunks, g, sim, terms, x).Ok? && ScoreOf(chunks, g, sim, terms, x).value in sc)
  {
    var f := ScoreFn(chunks, g, sim, terms);
    var sc := MapAll(f, l).value;
    forall t | t in sc ensures t.1 in l && Ok(t) == ScoreOf(chunks, g, sim, terms, t.1) {
      var i :| 0 <= i < |sc| && sc[i] == t;
      assert f(l[i]) == Ok(sc[i]);
    }
    forall x | x in l ensures ScoreOf(chunks, g, sim, terms, x).Ok? && ScoreOf(chunks, g, sim, terms, x).value in sc {
      var i :| 0 <= i < |l| && l[i] == x;
      assert f(l[i]) == Ok(sc[i]);
    }
    forall i, j | 0 <= i < j < |sc| ensures sc[i] != sc[j] {
      assert f(l[i]) == Ok(sc[i]) && f(l[j]) == Ok(sc[j]);
    }
  }

  /** `sorted` lists the score of every candidate of `l` once, highest first. */
  ghost predicate SortedScoresOf(chunks: seq<ChunkRecord>, g: Graph, sim: nat -> real, terms: set<string>, l: seq<string>, sorted: seq<(real, string)>) {
    && |sorted| == |l|
    && Distinct(sorted) && Ordered(sorted, TupleGe)
    && (forall t :: t in sorted ==> t.1 in l && Ok(t) == ScoreOf(chunks, g, sim, terms, t.1))
    && (forall x :: x in l ==> ScoreOf(chunks, g, sim, terms, x).Ok? && ScoreOf(chunks, g, sim, terms, x).value in sorted)
  }

  /** The scored tuples in the order the reverse sort leaves them. */
  lemma SortedScores(chunks: seq<ChunkRecord>, g: Graph, sim: nat -> real, terms: set<string>, l: seq<string>)
    requires Distinct(l) && MapAll(ScoreFn(chunks, g, sim, terms), l).Ok?
    ensures SortedScoresOf(chunks, g, sim, terms, l, SortDesc(MapAll(ScoreFn(chunks, g, sim, terms), l).value, TupleGe))
  {
    var sc := MapAll(ScoreFn(chunks, g, sim, terms), l).value;
    var sorted := SortDesc(sc, TupleGe);
    ScoredTuples(chunks, g, sim, terms, l);
    DistinctPermutation(sc, sorted);
    TupleGeOrder();
    SortOrdered(sc, TupleGe);
    PermutationElements(sc, sorted);
  }

  /** The kept records are those `CHUNK_BY_ID` holds for the leading ids of `sorted`. */
  ghost predicate KeptFrom(chunks: seq<ChunkRecord>, sorted: seq<(real, string)>, r: seq<ChunkRecord>) {
    && |r| <= |sorted|
    && forall i :: 0 <= i < |r| ==>
      && r[i].id == sorted[i].1
      && LastPos(chunks, r[i].id).Some? && r[i] == chunks[LastPos(chunks, r[i].id).value]
  }

  /** The lookups of the kept ids never fail: each names a candidate that was scored. */
  lemma RerankOk(chunks: seq<ChunkRecord>, g: Graph, sim: nat -> real, terms: set<string>, l: seq<string>, topN: int)
    requires Distinct(l)
    ensures Rerank(chunks, g, sim, terms, l, topN).Ok? <==> forall x :: x in l ==> ScoreOf(chunks, g, sim, terms, x).Ok?
    ensures Rerank(chunks, g, sim, terms, l, topN).Ok? ==>
      var sorted := SortDesc(MapAll(ScoreFn(chunks, g, sim, terms), l).value, TupleGe);
      var r := Rerank(chunks, g, sim, terms, l, topN).value;
      && SortedScoresOf(chunks, g, sim, terms, l, sorted)
      && |r| == SliceEnd(|l|, topN) && KeptFrom(chunks, sorted, r)
  {
    var sr := MapAll(ScoreFn(chunks, g, sim, terms), l);
    if sr.Ok? {
      SortedScores(chunks, g, sim, terms, l);
      var sorted := SortDesc(sr.value, TupleGe);
      var top := TopIds(sr.value, topN);
      forall i | 0 <= i < |top| ensures LookupFn(chunks)(top[i]).Ok? {
        assert sorted[i] in sorted;
      }
      var r := MapAll(LookupFn(chunks), top).value;
      forall i | 0 <= i < |r| ensures r[i].id == sorted[i].1 && LastPos(chunks, r[i].id).Some? && r[i] == chunks[LastPos(chunks, r[i].id).value] {
        assert LookupFn(chunks)(top[i]) == Ok(r[i]);
      }
    } else {
      var i :| 0 <= i < |l| && ScoreFn(chunks, g, sim, terms)(l[i]) == Err(sr.error);
    }
  }

  /** Candidate `a` scores at least as high as candidate `b`, as tuples `(score, cid)`. */
  predicate Beats(chunks: seq<ChunkRecord>, g: Graph, sim: nat -> real, terms: set<string>, a: string, b: string) {
    && ScoreOf(chunks, g, sim, terms, a).Ok? && ScoreOf(chunks, g, sim, terms, b).Ok?
    && TupleGe(ScoreOf(chunks, g, sim, terms, a).value, ScoreOf(chunks, g, sim, terms, b).value)
  }

  /** Kept record `i` carries the `i`-th best score. */
  lemma KeptScores(chunks: seq<ChunkRecord>, g: Graph, sim: nat -> real, terms: set<string>, l: seq<string>, sorted: seq<(real, string)>, r: seq<ChunkRecord>)
    requires SortedScoresOf(chunks, g, sim, terms, l, sorted) && KeptFrom(chunks, sorted, r)
    ensures forall i :: 0 <= i < |r| ==> ScoreOf(chunks, g, sim, terms, r[i].id) == Ok(sorted[i])
  {
    forall i | 0 <= i < |r| ensures ScoreOf(chunks, g, sim, terms, r[i].id) == Ok(sorted[i]) {
      assert sorted[i] in sorted;
    }
  }

  /** What `expand_and_rerank` returns: `top_n` of the candidates (fewer when there are fewer),
      each once, as the records `CHUNK_BY_ID` holds for them, best score first, and no candidate
      left out scores above one that was kept. */
  lemma RerankResult(chunks: seq<ChunkRecord>, g: Graph, sim: nat -> real, terms: set<string>, l: seq<string>, topN: int)
    requires Distinct(l) && Rerank(chunks, g, sim, terms, l, topN).Ok?
    ensures var r := Rerank(chunks, g, sim, terms, l, topN).value;
      && |r| == SliceEnd(|l|, topN)
      && Distinct(ChunkIdList(r))
      && (forall i :: 0 <= i < |r| ==> r[i].id in l && LastPos(chunks, r[i].id).Some? && r[i] == chunks[LastPos(chunks, r[i].id).value])
      && (forall i, j :: 0 <= i < j < |r| ==>
            Beats(chunks, g, sim, terms, r[i].id, r[j].id))
      && (forall x, i :: x in l && x !in ChunkIdList(r) && 0 <= i < |r| ==>
            Beats(chunks, g, sim, terms, r[i].id, x))
  {
    var sorted := SortDesc(MapAll(ScoreFn(chunks, g, sim, terms), l).value, TupleGe);
    var r := Rerank(chunks, g, sim, terms, l, topN).value;
    RerankOk(chunks, g, sim, terms, l, topN);
    KeptScores(chunks, g, sim, terms, l, sorted, r);
    KeptBest(chunks, g, sim, terms, l, sorted, r);
    forall i | 0 <= i < |r| ensures r[i].id in l {
      assert sorted[i] in sorted;
    }
  }

  /** The kept records are distinct, in score order, and beat every candidate left out. */
  lemma KeptBest(chunks: seq<ChunkRecord>, g: Graph, sim: nat -> real, terms: set<string>, l: seq<string>, sorted: seq<(real, string)>, r: seq<ChunkRecord>)
    requires SortedScoresOf(chunks, g, sim, terms, l, sorted) && KeptFrom(chunks, sorted, r)
    requires forall i :: 0 <= i < |r| ==> ScoreOf(chunks, g, sim, terms, r[i].id) == Ok(sorted[i])
    ensures Distinct(ChunkIdList(r))
    ensures forall i, j :: 0 <= i < j < |r| ==>
      Beats(chunks, g, sim, terms, r[i].id, r[j].id)
    ensures forall x, i :: x in l && x !in ChunkIdList(r) && 0 <= i < |r| ==>
      Beats(chunks, g, sim, terms, r[i].id, x)
  {
    forall x, i | x in l && x !in ChunkIdList(r) && 0 <= i < |r|
      ensures Beats(chunks, g, sim, terms, r[i].id, x)
    {
      var j :| 0 <= j < |sorted| && sorted[j] == ScoreOf(chunks, g, sim, terms, x).value;
      assert j >= |r|;
    }
  }

  /** The order in which the candidate set happens to be visited does not matter: the scored
      tuples are distinct and the reverse sort orders them in one way only. */
  lemma RerankOrderIndependent(chunks: seq<ChunkRecord>, g: Graph, sim: nat -> real, terms: set<string>, l1: seq<string>, l2: seq<string>, topN: int)
    requires Distinct(l1) && Distinct(l2)
    requires forall x :: x in l1 <==> x in l2
    ensures Rerank(chunks, g, sim, terms, l1, topN).Ok? <==> Rerank(chunks, g, sim, terms, l2, topN).Ok?
    ensures Rerank(chunks, g, sim, terms, l1, topN).Ok? ==> Rerank(chunks, g, sim, terms, l1, topN) == Rerank(chunks, g, sim, terms, l2, topN)
  {
    RerankOk(chunks, g, sim, terms, l1, topN);
    RerankOk(chunks, g, sim, terms, l2, topN);
    var f := ScoreFn(chunks, g, sim, terms);
    if MapAll(f, l1).Ok? && MapAll(f, l2).Ok? {
      var sc1, sc2 := MapAll(f, l1).value, MapAll(f, l2).value;
      ScoredTuples(chunks, g, sim, terms, l1);
      ScoredTuples(chunks, g, sim, terms, l2);
      DistinctSameElements(sc1, sc2);
      TupleGeOrder();
      SortIndependentOfInputOrder(sc1, sc2, TupleGe);
    }
  }

  /** `r` is what `expand_and_rerank(q, top_n=topN)` returns: the search error, or the rerank of
      `l`, a listing (each once, in an order the language leaves open) of the base ids united
      with the neighbour lists `ns` of the base hits. */
  ghost predicate Reranked(q: string, chunks: seq<ChunkRecord>, hits: seq<Hit>, sim: nat -> real, g: Graph, topN: int,
                           r: Result<seq<ChunkRecord>>, ns: seq<seq<string>>, l: seq<string>) {
    match AnnSearch(chunks, hits)
    case Err(e) => r == Err(e)
    case Ok(base) =>
      && NeighbourLists(g, base, ns)
      && Distinct(l) && (forall x :: x in l <==> x in CandidateSet(base, ns))
      && r == Rerank(chunks, g, sim, QueryTerms(q), l, topN)
  }

  /** `expand_and_rerank(q, base_k, expand_hops, top_n)`: `hits` is the index search for `q`
      (its length is `base_k`) and `sim(i)` the similarity of `q` to row `i`. `expand_hops` is
      never read. The candidate set is visited in an order the language leaves open, returned as `l`. */
  method ExpandAndRerank(q: string, chunks: seq<ChunkRecord>, hits: seq<Hit>, sim: nat -> real, gs: GraphStore, topN: int)
    returns (r: Result<seq<ChunkRecord>>, ghost ns: seq<seq<string>>, ghost l: seq<string>)
    requires gs.Valid()
    ensures AnnSearch(chunks, hits).Err? ==> r == Err(AnnSearch(chunks, hits).error)
    ensures AnnSearch(chunks, hits).Ok? ==>
      var base := AnnSearch(chunks, hits).value;
      && NeighbourLists(gs.G, base, ns)
      && Distinct(l) && (forall x :: x in l <==> x in CandidateSet(base, ns))
      && r == Rerank(chunks, gs.G, sim, QueryTerms(q), l, topN)
  {
    var ann := AnnSearch(chunks, hits);
    if ann.Err? {
      return Err(ann.error), [], [];
    }
    var base := ann.value;
    var cs;
    cs, ns := Candidates(gs, base);
    ghost var listed := Enumerate(cs);
    var order :| Distinct(order) && |order| == |cs| && (forall x | x in order :: x in cs) && (forall x | x in cs :: x in order);
    l := order;
    var scored := ScoreAll(chunks, gs, sim, QueryTerms(q), order);
    if scored.Err? {
      return Err(scored.error), ns, l;
    }
    var top := TopIds(scored.value, topN);
    r := LookupAll(chunks, top);
  }

  /** The scoring loop over the listed candidates, stopping at the first exception. */
  method ScoreAll(chunks: seq<ChunkRecord>, gs: GraphStore, sim: nat -> real, terms: set<string>, order: seq<string>)
    returns (r: Result<seq<(real, string)>>)
    requires gs.Valid()
    ensures r == MapAll(ScoreFn(chunks, gs.G, sim, terms), order)
  {
    var scored: seq<(real, string)> := [];
    for i := 0 to |order|
      invariant MapAll(ScoreFn(chunks, gs.G, sim, terms), order[..i]) == Ok(scored)
    {
      var s := ScoreCandidate(chunks, gs, sim, terms, order[i]);
      MapAllSnoc(ScoreFn(chunks, gs.G, sim, terms), order, i);
      if s.Err? {
        MapAllErr(ScoreFn(chunks, gs.G, sim, terms), order, i + 1);
        return Err(s.error);
      }
      scored := scored + [s.value];
    }
    assert order[..|order|] == order;
    r := Ok(scored);
  }

  /** One pass of the scoring loop. */
  method ScoreCandidate(chunks: seq<ChunkRecord>, gs: GraphStore, sim: nat -> real, terms: set<string>, cid: string)
    returns (r: Result<(real, string)>)
    requires gs.Valid()
    ensures r == ScoreOf(chunks, gs.G, sim, terms, cid)
  {
    var p := LastPos(chunks, cid);
    if p.None? {
      return Err(KeyError(cid));
    }
    var c := chunks[p.value];
    var idx := FindFirst(chunks, cid);
    var overlap := Overlap(terms, c.concepts);
    var info := DocInfoOf(gs.G, c.docId);
    if info.Err? {
      return Err(info.error);
    }
    r := Ok((Score(sim(idx), overlap, info.value.pagerank), cid));
  }

  /** The final list comprehension. */
  method LookupAll(chunks: seq<ChunkRecord>, ids: seq<string>) returns (r: Result<seq<ChunkRecord>>)
    ensures r == MapAll(LookupFn(chunks), ids)
  {
    var out: seq<ChunkRecord> := [];
    for i := 0 to |ids|
      invariant MapAll(LookupFn(chunks), ids[..i]) == Ok(out)
    {
      var p := LastPos(chunks, ids[i]);
      MapAllSnoc(LookupFn(chunks), ids, i);
      if p.None? {
        MapAllErr(LookupFn(chunks), ids, i + 1);
        return Err(KeyError(ids[i]));
      }
      out := out + [chunks[p.value]];
    }
    assert ids[..|ids|] == ids;
    r := Ok(out);
  }

  // ---------------------------------------------------------------- recommend_similar

  /** Python's `max(a, b)`. */
  function Max(a: real, b: real): (m: real)
    ensures m >= a && m >= b && (m == a || m == b)
  {
    if b > a then b else a
  }

  /** Index position `h` names a chunk of document `x`. */
  predicate HitOf(chunks: seq<ChunkRecord>, h: int, x: string) {
    PyIndex(|chunks|, h).Some? && chunks[PyIndex(|chunks|, h).value].docId == x
  }

  /** The `doc_scores` dictionary once the first loop of `recommend_similar` has visited the
      index positions `hits`; `csim(i)` is the similarity of the centroid to row `i`. */
  function RawScores(chunks: seq<ChunkRecord>, docId: string, hits: seq<int>, csim: nat -> real): Result<Dict<string, real>> {
    if hits == [] then Ok(EmptyDict())
    else
      match RawScores(chunks, docId, hits[..|hits| - 1], csim)
      case Err(e) => Err(e)
      case Ok(d) =>
        var j := hits[|hits| - 1];
        match PyIndex(|chunks|, j)
        case None => Err(IndexError(j))
        case Some(p) =>
          var other := chunks[p].docId;
          if other != docId then Ok(d.Put(other, Max(d.Get(other, 0.0), csim(p)))) else Ok(d)
  }

  /** Exactly the other documents that some visited position belongs to are keys. */
  ghost predicate RawKeys(chunks: seq<ChunkRecord>, docId: string, hits: seq<int>, d: Dict<string, real>) {
    && d.Valid()
    && forall x :: x in d.values <==> x != docId && exists j :: 0 <= j < |hits| && HitOf(chunks, hits[j], x)
  }

  /** Each document's value is at least the 0.0 `get` starts from and every similarity of its hits. */
  ghost predicate RawAbove(chunks: seq<ChunkRecord>, docId: string, hits: seq<int>, csim: nat -> real, d: Dict<string, real>) {
    && (forall x :: x in d.values ==> d.values[x] >= 0.0)
    && forall j :: 0 <= j < |hits| && PyIndex(|chunks|, hits[j]).Some? && chunks[PyIndex(|chunks|, hits[j]).value].docId in d.values ==>
      d.values[chunks[PyIndex(|chunks|, hits[j]).value].docId] >= csim(PyIndex(|chunks|, hits[j]).value)
  }

  /** Each document's value is 0.0 or the similarity of one of its hits. */
  ghost predicate RawAttained(chunks: seq<ChunkRecord>, hits: seq<int>, csim: nat -> real, d: Dict<string, real>) {
    forall x :: x in d.values ==>
      (d.values[x] == 0.0 || exists j :: 0 <= j < |hits| && HitOf(chunks, hits[j], x) && d.values[x] == csim(PyIndex(|chunks|, hits[j]).value))
  }

  /** The new dictionary after the loop visits position `hits[|hits| - 1]`, resolved to row `p`. */
  ghost predicate RawStep(chunks: seq<ChunkRecord>, docId: string, hits: seq<int>, csim: nat -> real, d: Dict<string, real>, d2: Dict<string, real>, p: nat) {
    && hits != [] && PyIndex(|chunks|, hits[|hits| - 1]) == Some(p)
    && d2 == (if chunks[p].docId != docId then d.Put(chunks[p].docId, Max(d.Get(chunks[p].docId, 0.0), csim(p))) else d)
  }

  lemma RawKeysStep(chunks: seq<ChunkRecord>, docId: string, hits: seq<int>, csim: nat -> real, d: Dict<string, real>, d2: Dict<string, real>, p: nat)
    requires RawStep(chunks, docId, hits, csim, d, d2, p) && RawKeys(chunks, docId, hits[..|hits| - 1], d)
    ensures RawKeys(chunks, docId, hits, d2)
  {
    var n := |hits| - 1;
    assert forall j :: 0 <= j < n ==> hits[..n][j] == hits[j];
    assert HitOf(chunks, hits[n], chunks[p].docId);
  }

  lemma RawAboveStep(chunks: seq<ChunkRecord>, docId: string, hits: seq<int>, csim: nat -> real, d: Dict<string, real>, d2: Dict<string, real>, p: nat)
    requires RawStep(chunks, docId, hits, csim, d, d2, p) && RawAbove(chunks, docId, hits[..|hits| - 1], csim, d)
    requires RawKeys(chunks, docId, hits[..|hits| - 1], d)
    ensures RawAbove(chunks, docId, hits, csim, d2)
  {
    var n := |hits| - 1;
    assert forall j :: 0 <= j < n ==> hits[..n][j] == hits[j];
  }

  lemma RawAttainedStep(chunks: seq<ChunkRecord>, docId: string, hits: seq<int>, csim: nat -> real, d: Dict<string, real>, d2: Dict<string, real>, p: nat)
    requires RawStep(chunks, docId, hits, csim, d, d2, p) && RawAttained(chunks, hits[..|hits| - 1], csim, d)
    ensures RawAttained(chunks, hits, csim, d2)
  {
    var n := |hits| - 1;
    assert forall j :: 0 <= j < n ==> hits[..n][j] == hits[j];
    assert HitOf(chunks, hits[n], chunks[p].docId);
  }

  lemma RawScoresSnoc(chunks: seq<ChunkRecord>, docId: string, hits: seq<int>, csim: nat -> real, i: nat)
    requires i < |hits|
    ensures RawScores(chunks, docId, hits[..i + 1], csim) ==
      match RawScores(chunks, docId, hits[..i], csim)
      case Err(e) => Err(e)
      case Ok(d) =>
        match PyIndex(|chunks|, hits[i])
        case None => Err(IndexError(hits[i]))
        case Some(p) =>
          if chunks[p].docId != docId then Ok(d.Put(chunks[p].docId, Max(d.Get(chunks[p].docId, 0.0), csim(p)))) else Ok(d)
  {
    var s := hits[..i + 1];
    assert s[..|s| - 1] == hits[..i] && s[|s| - 1] == hits[i];
  }

  /** The loop stops at the first position Python cannot index; every other position is visited. */
  lemma {:induction false} RawScoresOk(chunks: seq<ChunkRecord>, docId: string, hits: seq<int>, csim: nat -> real)
    ensures RawScores(chunks, docId, hits, csim).Ok? <==> forall j :: 0 <= j < |hits| ==> PyIndex(|chunks|, hits[j]).Some?
    ensures RawScores(chunks, docId, hits, csim).Err? ==> RawScores(chunks, docId, hits, csim).error.IndexError?
  {
    if hits != [] {
      var init := hits[..|hits| - 1];
      RawScoresOk(chunks, docId, init, csim);
      assert forall j :: 0 <= j < |init| ==> init[j] == hits[j];
    }
  }

  /** Once a prefix of the positions fails, the whole loop fails the same way. */
  lemma {:induction false} RawScoresErr(chunks: seq<ChunkRecord>, docId: string, hits: seq<int>, csim: nat -> real, i: nat)
    requires i <= |hits| && RawScores(chunks, docId, hits[..i], csim).Err?
    ensures RawScores(chunks, docId, hits, csim) == RawScores(chunks, docId, hits[..i], csim)
    decreases |hits| - i
  {
    if i < |hits| {
      RawScoresSnoc(chunks, docId, hits, csim, i);
      RawScoresErr(chunks, docId, hits, csim, i + 1);
    } else {
      assert hits[..i] == hits;
    }
  }

  /** The dictionary the first loop builds holds, for every other document a hit belongs to,
      the best similarity among its hits, or 0.0 when all of them are below it. */
  lemma {:induction false} RawScoresMeans(chunks: seq<ChunkRecord>, docId: string, hits: seq<int>, csim: nat -> real)
    requires RawScores(chunks, docId, hits, csim).Ok?
    ensures var d := RawScores(chunks, docId, hits, csim).value;
      RawKeys(chunks, docId, hits, d) && RawAbove(chunks, docId, hits, csim, d) && RawAttained(chunks, hits, csim, d)
  {
    if hits != [] {
      var n := |hits| - 1;
      var d := RawScores(chunks, docId, hits[..n], csim).value;
      var d2 := RawScores(chunks, docId, hits, csim).value;
      var p := PyIndex(|chunks|, hits[n]).value;
      RawScoresMeans(chunks, docId, hits[..n], csim);
      assert RawStep(chunks, docId, hits, csim, d, d2, p);
      RawKeysStep(chunks, docId, hits, csim, d, d2, p);
      RawAboveStep(chunks, docId, hits, csim, d, d2, p);
      RawAttainedStep(chunks, docId, hits, csim, d, d2, p);
    }
  }

  /** One recommendation: the document, its `get_doc_info` fields and the blended score. */
  datatype Rec = Rec(docId: string, info: DocInfo, score: real)

  /** The second loop and the comprehension for one document: `0.8*raw + 0.2*pagerank`,
      with the KeyError `get_doc_info` raises for a document the graph does not hold. */
  function BlendOf(raw: map<string, real>, g: Graph, x: string): (r: Result<Rec>)
    ensures r.Ok? <==> x in raw && DocInfoOf(g, x).Ok?
    ensures r.Ok? ==> r.value.docId == x && r.value.info == DocInfoOf(g, x).value
    ensures r.Ok? ==> r.value.score == 0.8 * raw[x] + 0.2 * r.value.info.pagerank
  {
    if x !in raw then Err(KeyError(x))
    else
      match DocInfoOf(g, x)
      case Err(e) => Err(e)
      case Ok(info) => Ok(Rec(x, info, 0.8 * raw[x] + 0.2 * info.pagerank))
  }

  function BlendFn(raw: map<string, real>, g: Graph): string -> Result<Rec> {
    x => BlendOf(raw, g, x)
  }

  /** Sort key `-score`: recommendations with higher scores come first, ties keep dict order. */
  predicate ByScore(a: Rec, b: Rec) {
    a.score >= b.score
  }

  /** The document `doc_id` has chunks: otherwise `recommend_similar` returns `[]` at once. */
  predicate HasChunks(chunks: seq<ChunkRecord>, docId: string) {
    exists i :: 0 <= i < |chunks| && chunks[i].docId == docId
  }

  /** What `recommend_similar(doc_id, k)` returns, with `hits` the positions the index search
      from the document's centroid returns and `csim(i)` the centroid's similarity to row `i`. */
  function Recommend(chunks: seq<ChunkRecord>, docId: string, hits: seq<int>, csim: nat -> real, k: int, g: Graph): Result<seq<Rec>> {
    if !HasChunks(chunks, docId) then Ok([])
    else
      match RawScores(chunks, docId, hits, csim)
      case Err(e) => Err(e)
      case Ok(d) =>
        match MapAll(BlendFn(d.values, g), d.keys)
        case Err(e) => Err(e)
        case Ok(recs) =>
          var sorted := SortDesc(recs, ByScore);
          Ok(sorted[..SliceEnd(|sorted|, k)])
  }

  lemma ByScoreOrder()
    ensures TotalPreorder(ByScore)
  {
  }

  /** The sort is stable: among recommendations with equal scores, the order is that of the
      blended list, which follows the dictionary's key order (first insertion). */
  lemma RecommendStable(d: Dict<string, real>, g: Graph, y: Rec)
    requires MapAll(BlendFn(d.values, g), d.keys).Ok?
    ensures var recs := MapAll(BlendFn(d.values, g), d.keys).value;
      && (forall i :: 0 <= i < |recs| ==> recs[i].docId == d.keys[i])
      && Tied(SortDesc(recs, ByScore), ByScore, y) == Tied(recs, ByScore, y)
  {
    var recs := MapAll(BlendFn(d.values, g), d.keys).value;
    forall i | 0 <= i < |recs| ensures recs[i].docId == d.keys[i] {
      assert BlendFn(d.values, g)(d.keys[i]) == Ok(recs[i]);
    }
    ByScoreOrder();
    SortStable(recs, ByScore, y);
  }

  function RecDocs(r: seq<Rec>): (ids: seq<string>)
    ensures |ids| == |r| && forall i :: 0 <= i < |r| ==> ids[i] == r[i].docId
  {
    seq(|r|, i requires 0 <= i < |r| => r[i].docId)
  }

  /** `recommend_similar` raises only for a position the index cannot use or for a document
      the graph does not hold. */
  lemma RecommendOk(chunks: seq<ChunkRecord>, docId: string, hits: seq<int>, csim: nat -> real, k: int, g: Graph)
    ensures !HasChunks(chunks, docId) ==> Recommend(chunks, docId, hits, csim, k, g) == Ok([])
    ensures HasChunks(chunks, docId) ==>
      (Recommend(chunks, docId, hits, csim, k, g).Ok? <==>
        && RawScores(chunks, docId, hits, csim).Ok?
        && forall x :: x in RawScores(chunks, docId, hits, csim).value.values ==> DocInfoOf(g, x).Ok?)
  {
    RawScoresOk(chunks, docId, hits, csim);
    var rs := RawScores(chunks, docId, hits, csim);
    if HasChunks(chunks, docId) && rs.Ok? {
      var d := rs.value;
      RawScoresMeans(chunks, docId, hits, csim);
      var f := BlendFn(d.values, g);
      assert forall i :: 0 <= i < |d.keys| ==> f(d.keys[i]) == BlendOf(d.values, g, d.keys[i]);
      assert forall x :: x in d.values <==> x in d.keys;
    }
  }

  /** The blended recommendations in dict order: one per key, each with its blended score. */
  lemma BlendedRecs(d: Dict<string, real>, g: Graph)
    requires d.Valid() && MapAll(BlendFn(d.values, g), d.keys).Ok?
    ensures var recs := MapAll(BlendFn(d.values, g), d.keys).value;
      && Distinct(recs)
      && (forall t :: t in recs ==> t.docId in d.values && Ok(t) == BlendOf(d.values, g, t.docId))
      && (forall x :: x in d.values ==> BlendOf(d.values, g, x).Ok? && BlendOf(d.values, g, x).value in recs)
  {
    var f := BlendFn(d.values, g);
    var recs := MapAll(f, d.keys).value;
    assert forall i :: 0 <= i < |recs| ==> Ok(recs[i]) == BlendOf(d.values, g, d.keys[i]) by {
      forall i | 0 <= i < |recs| ensures Ok(recs[i]) == BlendOf(d.values, g, d.keys[i]) {
        assert f(d.keys[i]) == Ok(recs[i]);
      }
    }
    forall i, j | 0 <= i < j < |recs| ensures recs[i] != recs[j] {
      assert d.keys[i] != d.keys[j];
    }
    forall x | x in d.values ensures BlendOf(d.values, g, x).Ok? && BlendOf(d.values, g, x).value in recs {
      assert x in set k | k in d.keys;
      var i :| 0 <= i < |d.keys| && d.keys[i] == x;
      assert recs[i] in recs;
    }
  }

  /** The recommendations in score order, before the cut to `k`: one per other document
      the search reached, each with its blended score. */
  ghost predicate RankedRecs(d: Dict<string, real>, g: Graph, sorted: seq<Rec>) {
    && |sorted| == |d.keys|
    && Distinct(RecDocs(sorted)) && Ordered(sorted, ByScore)
    && (forall t :: t in sorted ==> t.docId in d.values && Ok(t) == BlendOf(d.values, g, t.docId))
    && (forall x :: x in d.values ==> BlendOf(d.values, g, x).Ok? && BlendOf(d.values, g, x).value in sorted)
  }

  lemma RankedBlend(d: Dict<string, real>, g: Graph)
    requires d.Valid() && MapAll(BlendFn(d.values, g), d.keys).Ok?
    ensures RankedRecs(d, g, SortDesc(MapAll(BlendFn(d.values, g), d.keys).value, ByScore))
  {
    var recs := MapAll(BlendFn(d.values, g), d.keys).value;
    var sorted := SortDesc(recs, ByScore);
    BlendedRecs(d, g);
    PermutationElements(recs, sorted);
    ByScoreOrder();
    SortOrdered(recs, ByScore);
    DistinctPermutation(recs, sorted);
    DistinctDocs(d, g, sorted);
  }

  /** Distinct recommendations name distinct documents, each being the blend of its own. */
  lemma DistinctDocs(d: Dict<string, real>, g: Graph, rs: seq<Rec>)
    requires Distinct(rs)
    requires forall t :: t in rs ==> Ok(t) == BlendOf(d.values, g, t.docId)
    ensures Distinct(RecDocs(rs))
  {
    forall i, j | 0 <= i < j < |rs| ensures RecDocs(rs)[i] != RecDocs(rs)[j] {
      assert rs[i] in rs && rs[j] in rs;
    }
  }

  /** The first `m` of the ranked recommendations. */
  lemma RankedCut(d: Dict<string, real>, g: Graph, sorted: seq<Rec>, m: nat)
    requires RankedRecs(d, g, sorted) && m <= |sorted|
    ensures var r := sorted[..m];
      && Distinct(RecDocs(r))
      && (forall i :: 0 <= i < |r| ==> r[i].docId in d.values && Ok(r[i]) == BlendOf(d.values, g, r[i].docId))
      && (forall i, j :: 0 <= i < j < |r| ==> r[i].score >= r[j].score)
      && (forall x, i :: x in d.values && x !in RecDocs(r) && 0 <= i < |r| ==>
            BlendOf(d.values, g, x).Ok? && r[i].score >= BlendOf(d.values, g, x).value.score)
  {
    var r := sorted[..m];
    assert forall i :: 0 <= i < |r| ==> r[i] == sorted[i] && sorted[i] in sorted;
    DistinctPrefix(RecDocs(sorted), m);
    assert RecDocs(r) == RecDocs(sorted)[..m];
    forall x, i | x in d.values && x !in RecDocs(r) && 0 <= i < |r|
      ensures BlendOf(d.values, g, x).Ok? && r[i].score >= BlendOf(d.values, g, x).value.score
    {
      var j :| 0 <= j < |sorted| && sorted[j] == BlendOf(d.values, g, x).value;
      assert j >= m;
    }
  }

  /** What `recommend_similar` returns: at most `k` other documents (fewer when the search
      reached fewer), each once, with its graph attributes and the score `0.8*raw + 0.2*pagerank`,
      best first, and no document left out scoring above one returned. */
  lemma RecommendResult(chunks: seq<ChunkRecord>, docId: string, hits: seq<int>, csim: nat -> real, k: int, g: Graph)
    requires HasChunks(chunks, docId) && Recommend(chunks, docId, hits, csim, k, g).Ok?
    ensures RawScores(chunks, docId, hits, csim).Ok?
    ensures var d := RawScores(chunks, docId, hits, csim).value;
      var r := Recommend(chunks, docId, hits, csim, k, g).value;
      && |r| == SliceEnd(|d.keys|, k)
      && Distinct(RecDocs(r))
      && (forall i :: 0 <= i < |r| ==> r[i].docId != docId && r[i].docId in d.values && Ok(r[i]) == BlendOf(d.values, g, r[i].docId))
      && (forall i, j :: 0 <= i < j < |r| ==> r[i].score >= r[j].score)
      && (forall x, i :: x in d.values && x !in RecDocs(r) && 0 <= i < |r| ==>
            BlendOf(d.values, g, x).Ok? && r[i].score >= BlendOf(d.values, g, x).value.score)
  {
    var d := RawScores(chunks, docId, hits, csim).value;
    RawScoresMeans(chunks, docId, hits, csim);
    var sorted := SortDesc(MapAll(BlendFn(d.values, g), d.keys).value, ByScore);
    RankedBlend(d, g);
    RankedCut(d, g, sorted, SliceEnd(|sorted|, k));
  }

  /** `recommend_similar(doc_id, k)`. The comprehension `doc_chunks`, the second loop and the
      final comprehension are each a loop here; the last two call `get_doc_info` for the same
      keys in the same order, so they are taken together. */
  method RecommendSimilar(chunks: seq<ChunkRecord>, docId: string, hits: seq<int>, csim: nat -> real, k: int, gs: GraphStore)
    returns (r: Result<seq<Rec>>)
    requires gs.Valid()
    ensures r == Recommend(chunks, docId, hits, csim, k, gs.G)
  {
    var found := AnyChunkOf(chunks, docId);
    if !found {
      return Ok([]);
    }
    var scores := DocScores(chunks, docId, hits, csim);
    if scores.Err? {
      return Err(scores.error);
    }
    var recs := BlendScores(scores.value, gs);
    if recs.Err? {
      return Err(recs.error);
    }
    var sorted := SortDesc(recs.value, ByScore);
    r := Ok(sorted[..SliceEnd(|sorted|, k)]);
  }

  /** `if not doc_chunks`: whether some record belongs to `doc_id`. */
  method AnyChunkOf(chunks: seq<ChunkRecord>, docId: string) returns (found: bool)
    ensures found == HasChunks(chunks, docId)
  {
    found := false;
    for i := 0 to |chunks|
      invariant found <==> exists j :: 0 <= j < i && chunks[j].docId == docId
    {
      if chunks[i].docId == docId {
        found := true;
      }
    }
  }

  /** The first loop of `recommend_similar`, filling `doc_scores`. */
  method DocScores(chunks: seq<ChunkRecord>, docId: string, hits: seq<int>, csim: nat -> real)
    returns (r: Result<Dict<string, real>>)
    ensures r == RawScores(chunks, docId, hits, csim)
  {
    var scores := EmptyDict();
    for j := 0 to |hits|
      invariant RawScores(chunks, docId, hits[..j], csim) == Ok(scores)
    {
      RawScoresSnoc(chunks, docId, hits, csim, j);
      var p := PyIndex(|chunks|, hits[j]);
      if p.None? {
        RawScoresErr(chunks, docId, hits, csim, j + 1);
        return Err(IndexError(hits[j]));
      }
      var other := chunks[p.value].docId;
      if other != docId {
        scores := scores.Put(other, Max(scores.Get(other, 0.0), csim(p.value)));
      }
    }
    assert hits[..|hits|] == hits;
    r := Ok(scores);
  }

  /** The blend with pagerank and the records, key by key in dict order. */
  method BlendScores(scores: Dict<string, real>, gs: GraphStore) returns (r: Result<seq<Rec>>)
    requires gs.Valid()
    ensures r == MapAll(BlendFn(scores.values, gs.G), scores.keys)
  {
    ghost var f := BlendFn(scores.values, gs.G);
    var ks := scores.keys;
    var recs: seq<Rec> := [];
    for i := 0 to |ks|
      invariant MapAll(f, ks[..i]) == Ok(recs)
    {
      var y := BlendOf(scores.values, gs.G, ks[i]);
      assert f(ks[i]) == y;
      MapAllSnoc(f, ks, i);
      if y.Err? {
        MapAllErr(f, ks, i + 1);
        return Err(y.error);
      }
      recs := recs + [y.value];
    }
    assert ks[..|ks|] == ks;
    r := Ok(recs);
  }
}
