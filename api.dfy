/** The HTTP endpoints' own logic: the health probe, the thin wrappers around `ask` and
    `recommend_similar`, and the document listing built from the chunk records. */
module Api {
  import opened Wrappers
  import opened Lists
  import opened Dicts
  import opened KnowledgeGraph
  import opened Ingest
  import opened Retriever
  import opened Rag

  /** `GET /health`: always `{"ok": True}`. */
  function Health(): (ok: bool)
    ensures ok
  {
    true
  }

  /** The number of recommendations `POST /recommend` asks for: the default `k`. */
  const RecK := 5

  /** `POST /recommend`: `{"items": recommend_similar(doc_id)}`, the list passed on unchanged. */
  method RecEp(chunks: seq<ChunkRecord>, docId: string, hits: seq<int>, csim: nat -> real, gs: GraphStore)
    returns (items: Result<seq<Rec>>)
    requires gs.Valid()
    ensures items == Recommend(chunks, docId, hits, csim, RecK, gs.G)
    ensures items.Ok? ==> |items.value| <= RecK
  {
    items := RecommendSimilar(chunks, docId, hits, csim, RecK, gs);
    if items.Ok? && HasChunks(chunks, docId) {
      RecommendResult(chunks, docId, hits, csim, RecK, gs.G);
    }
  }

  /** `POST /ask`: the reply of `ask` unchanged. */
  method AskEp(question: string, chunks: seq<ChunkRecord>, hits: seq<Hit>, sim: nat -> real, gs: GraphStore)
    returns (r: Result<Reply>, ghost found: Result<seq<ChunkRecord>>, ghost ns: seq<seq<string>>, ghost l: seq<string>)
    requires gs.Valid()
    ensures Answered(question, chunks, hits, sim, gs.G, r, found, ns, l)
    ensures r.Ok? ==> |r.value.citations| == |r.value.paths| <= TopN
  {
    r, found, ns, l := Ask(question, chunks, hits, sim, gs);
  }

  // ---------------------------------------------------------------- docs_list

  /** One listed document: `{"doc_id", "title", "url"}`. */
  datatype DocItem = DocItem(docId: string, title: string, url: string)

  /** The `docs` dictionary after the loop has visited `chunks`: each record writes its
      document's title and url, so a later record overwrites an earlier one in place. */
  function Listing(chunks: seq<ChunkRecord>): Dict<string, (string, string)> {
    if chunks == [] then EmptyDict()
    else
      var c := chunks[|chunks| - 1];
      Listing(chunks[..|chunks| - 1]).Put(c.docId, (c.docTitle, c.url))
  }

  /** `[{"doc_id": k, **v} for k, v in docs.items()]`. */
  function Items(d: Dict<string, (string, string)>): (r: seq<DocItem>)
    requires d.Valid()
    ensures |r| == |d.keys| && forall i :: 0 <= i < |r| ==> r[i] == DocItem(d.keys[i], d.values[d.keys[i]].0, d.values[d.keys[i]].1)
  {
    var items := d.Items();
    seq(|items|, i requires 0 <= i < |items| => DocItem(items[i].0, items[i].1.0, items[i].1.1))
  }

  lemma {:induction false} ListingValid(chunks: seq<ChunkRecord>)
    ensures Listing(chunks).Valid()
  {
    if chunks != [] {
      ListingValid(chunks[..|chunks| - 1]);
    }
  }

  function DocsItems(chunks: seq<ChunkRecord>): seq<DocItem> {
    ListingValid(chunks);
    Items(Listing(chunks))
  }

  /** `GET /docs_list`: the loop over the chunk records filling `docs`, then the items. */
  method DocsList(chunks: seq<ChunkRecord>) returns (items: seq<DocItem>)
    ensures items == DocsItems(chunks)
  {
    var docs: Dict<string, (string, string)> := EmptyDict();
    for i := 0 to |chunks|
      invariant docs == Listing(chunks[..i])
    {
      var c := chunks[i];
      assert chunks[..i + 1][..i] == chunks[..i];
      docs := docs.Put(c.docId, (c.docTitle, c.url));
    }
    assert chunks[..|chunks|] == chunks;
    ListingValid(chunks);
    var kv := docs.Items();
    items := [];
    for i := 0 to |kv|
      invariant |items| == i
      invariant forall j :: 0 <= j < i ==> items[j] == DocItem(kv[j].0, kv[j].1.0, kv[j].1.1)
    {
      items := items + [DocItem(kv[i].0, kv[i].1.0, kv[i].1.1)];
    }
  }

  function ItemIds(items: seq<DocItem>): (ids: seq<string>)
    ensures |ids| == |items| && forall i :: 0 <= i < |items| ==> ids[i] == items[i].docId
  {
    seq(|items|, i requires 0 <= i < |items| => items[i].docId)
  }

  /** Record `p` is the first with document `x`. */
  predicate FirstOf(chunks: seq<ChunkRecord>, x: string, p: nat) {
    p < |chunks| && chunks[p].docId == x && forall j :: 0 <= j < p ==> chunks[j].docId != x
  }

  /** Record `p` is the last with document `x`. */
  predicate LastOf(chunks: seq<ChunkRecord>, x: string, p: nat) {
    p < |chunks| && chunks[p].docId == x && forall j :: p < j < |chunks| ==> chunks[j].docId != x
  }

  /** The keys of `d` are the documents of the records, once each. */
  ghost predicate KeysAre(chunks: seq<ChunkRecord>, d: Dict<string, (string, string)>) {
    && d.Valid()
    && forall x :: x in d.values <==> exists i :: 0 <= i < |chunks| && chunks[i].docId == x
  }

  /** `ps` holds the first position of each key's document, and the positions increase. */
  ghost predicate FirstPositions(chunks: seq<ChunkRecord>, d: Dict<string, (string, string)>, ps: seq<nat>) {
    && |ps| == |d.keys|
    && (forall i :: 0 <= i < |ps| ==> FirstOf(chunks, d.keys[i], ps[i]))
    && (forall i, j :: 0 <= i < j < |ps| ==> ps[i] < ps[j])
  }

  /** Every value is the title and url of the last record of its document. */
  ghost predicate FromLast(chunks: seq<ChunkRecord>, d: Dict<string, (string, string)>) {
    forall x :: x in d.values ==>
      exists p: nat :: LastOf(chunks, x, p) && d.values[x] == (chunks[p].docTitle, chunks[p].url)
  }

  /** The keys of `docs` are the documents of the records, once each, in the order each first
      appears (`ps` are those first positions), and every value comes from the last record of
      its document. */
  lemma {:induction false} ListingMeans(chunks: seq<ChunkRecord>) returns (ps: seq<nat>)
    ensures KeysAre(chunks, Listing(chunks))
    ensures FirstPositions(chunks, Listing(chunks), ps)
    ensures FromLast(chunks, Listing(chunks))
  {
    ListingValid(chunks);
    if chunks == [] {
      ps := [];
    } else {
      var n := |chunks| - 1;
      var init := chunks[..n];
      var before := ListingMeans(init);
      var d, d2 := Listing(init), Listing(chunks);
      assert d2 == d.Put(chunks[n].docId, (chunks[n].docTitle, chunks[n].url));
      KeysStep(chunks, d, d2);
      ps := FirstStep(chunks, d, d2, before);
      LastStep(chunks, d, d2);
    }
  }

  lemma KeysStep(chunks: seq<ChunkRecord>, d: Dict<string, (string, string)>, d2: Dict<string, (string, string)>)
    requires chunks != [] && KeysAre(chunks[..|chunks| - 1], d)
    requires d2 == d.Put(chunks[|chunks| - 1].docId, (chunks[|chunks| - 1].docTitle, chunks[|chunks| - 1].url))
    ensures KeysAre(chunks, d2)
  {
    var n := |chunks| - 1;
    assert forall i :: 0 <= i < n ==> chunks[..n][i] == chunks[i];
  }

  lemma FirstStep(chunks: seq<ChunkRecord>, d: Dict<string, (string, string)>, d2: Dict<string, (string, string)>, before: seq<nat>)
    returns (ps: seq<nat>)
    requires chunks != [] && KeysAre(chunks[..|chunks| - 1], d) && FirstPositions(chunks[..|chunks| - 1], d, before)
    requires d2 == d.Put(chunks[|chunks| - 1].docId, (chunks[|chunks| - 1].docTitle, chunks[|chunks| - 1].url))
    ensures FirstPositions(chunks, d2, ps)
  {
    var n := |chunks| - 1;
    forall i | 0 <= i < |before| ensures before[i] < n && FirstOf(chunks, d.keys[i], before[i]) {
      FirstExtends(chunks, d.keys[i], before[i]);
    }
    if chunks[n].docId in d.values {
      ps := before;
      assert d2.keys == d.keys;
    } else {
      ps := before + [n];
      assert d2.keys == d.keys + [chunks[n].docId];
      forall j | 0 <= j < n ensures chunks[j].docId != chunks[n].docId {
        assert chunks[..n][j] == chunks[j];
      }
      assert FirstOf(chunks, chunks[n].docId, n);
      assert forall i :: 0 <= i < |before| ==> ps[i] == before[i] && d2.keys[i] == d.keys[i];
    }
  }

  /** The first record of a document stays its first when records are added after it. */
  lemma FirstExtends(chunks: seq<ChunkRecord>, x: string, p: nat)
    requires chunks != [] && FirstOf(chunks[..|chunks| - 1], x, p)
    ensures p < |chunks| - 1 && FirstOf(chunks, x, p)
  {
    var n := |chunks| - 1;
    assert forall j :: 0 <= j < p ==> chunks[..n][j] == chunks[j];
  }

  lemma LastStep(chunks: seq<ChunkRecord>, d: Dict<string, (string, string)>, d2: Dict<string, (string, string)>)
    requires chunks != [] && FromLast(chunks[..|chunks| - 1], d)
    requires d2 == d.Put(chunks[|chunks| - 1].docId, (chunks[|chunks| - 1].docTitle, chunks[|chunks| - 1].url))
    ensures FromLast(chunks, d2)
  {
    var n := |chunks| - 1;
    var init := chunks[..n];
    forall x | x in d2.values
      ensures exists p: nat :: LastOf(chunks, x, p) && d2.values[x] == (chunks[p].docTitle, chunks[p].url)
    {
      if x == chunks[n].docId {
        assert LastOf(chunks, x, n);
      } else {
        var p: nat :| LastOf(init, x, p) && d.values[x] == (init[p].docTitle, init[p].url);
        assert LastOf(chunks, x, p);
      }
    }
  }

  /** What `docs_list` returns: one item per document among the records, in the order each
      document first appears, with the title and url of its last record. */
  lemma DocsListResult(chunks: seq<ChunkRecord>)
    ensures Distinct(ItemIds(DocsItems(chunks)))
    ensures forall x :: x in ItemIds(DocsItems(chunks)) <==> exists i :: 0 <= i < |chunks| && chunks[i].docId == x
    ensures forall it :: it in DocsItems(chunks) ==>
      exists p: nat :: LastOf(chunks, it.docId, p) && it.title == chunks[p].docTitle && it.url == chunks[p].url
    ensures chunks == [] ==> DocsItems(chunks) == []
  {
    var ps := ListingMeans(chunks);
    var d := Listing(chunks);
    var items := DocsItems(chunks);
    assert ItemIds(items) == d.keys;
    assert forall x :: x in d.keys <==> x in d.values;
    forall it | it in items
      ensures exists p: nat :: LastOf(chunks, it.docId, p) && it.title == chunks[p].docTitle && it.url == chunks[p].url
    {
      var i :| 0 <= i < |items| && items[i] == it;
      assert d.keys[i] in d.values;
    }
  }

  /** The items come in order of first appearance: item `i` names a document whose first
      record comes before the first record of item `j`'s document whenever `i < j`. */
  lemma DocsListOrder(chunks: seq<ChunkRecord>) returns (ps: seq<nat>)
    ensures |ps| == |DocsItems(chunks)|
    ensures forall i :: 0 <= i < |ps| ==> FirstOf(chunks, DocsItems(chunks)[i].docId, ps[i])
    ensures forall i, j :: 0 <= i < j < |ps| ==> ps[i] < ps[j]
  {
    ps := ListingMeans(chunks);
  }
}
