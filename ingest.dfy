/** Ingestion: document records from files, chunk records from documents, the vector rows,
    and the graph built from both. */
module Ingest {
  import opened Wrappers
  import opened Lists
  import opened Strings
  import opened DirectedGraph
  import opened KnowledgeGraph
  import opened Split

  /** A loaded document: `{"id", "title", "url", "text"}`. */
  datatype DocRecord = DocRecord(id: string, title: string, url: string, text: string)

  /** A chunk record: `{"id", "doc_id", "doc_title", "url", "text", "concepts"}`. */
  datatype ChunkRecord = ChunkRecord(id: string, docId: string, docTitle: string, url: string, text: string, concepts: seq<string>)

  /** The budget `simple_chunk` uses by default. */
  const MaxChars := 700

  /** The number of concepts `extract_concepts` keeps by default. */
  const TopK := 8

  // ---------------------------------------------------------------- load_docs

  /** `os.path.basename(path)`: what follows the last `/`, or all of `path` when it has none. */
  function Basename(path: string): (b: string)
    ensures forall i :: 0 <= i < |b| ==> b[i] != '/'
    ensures |b| <= |path| && b == path[|path| - |b|..]
    ensures |b| == |path| || path[|path| - |b| - 1] == '/'
  {
    path[RFind(path, '/') + 1..]
  }

  /** `os.path.splitext(p)[0]`: `p` without its extension, the part from the last `.` after the
      last `/`, provided some character other than `.` comes before that dot in the file name. */
  function Stem(p: string): string {
    var sep := RFind(p, '/');
    var dot := RFind(p, '.');
    if dot > sep && exists i :: sep < i < dot && p[i] != '.' then p[..dot] else p
  }

  /** The record `load_docs` builds for the file at `path` holding `text`. */
  function DocOf(path: string, text: string): DocRecord {
    DocRecord(Stem(Basename(path)), Basename(path), "file://" + path, text)
  }

  /** The file `dir/name.md` gives the id `name` and the title `name.md`, when `name` has no `/`
      and is not made of dots only; its url is `file://` and the path. */
  lemma MarkdownDoc(dir: string, name: string, text: string)
    requires forall i :: 0 <= i < |name| ==> name[i] != '/'
    requires exists i :: 0 <= i < |name| && name[i] != '.'
    ensures var path := dir + "/" + name + ".md";
      DocOf(path, text) == DocRecord(name, name + ".md", "file://" + path, text)
  {
    var path := dir + "/" + name + ".md";
    var file := name + ".md";
    MarkdownBasename(dir, name);
    MarkdownStem(name);
  }

  lemma MarkdownBasename(dir: string, name: string)
    requires forall i :: 0 <= i < |name| ==> name[i] != '/'
    ensures Basename(dir + "/" + name + ".md") == name + ".md"
  {
    var file := name + ".md";
    forall i | 0 <= i < |file| ensures file[i] != '/' {
      if i < |name| { assert file[i] == name[i]; } else { assert file[i] == ".md"[i - |name|]; }
    }
    RFindAppend(dir + "/", file, '/');
    assert dir + "/" + name + ".md" == (dir + "/") + file;
  }

  lemma MarkdownStem(name: string)
    requires forall i :: 0 <= i < |name| ==> name[i] != '/'
    requires exists i :: 0 <= i < |name| && name[i] != '.'
    ensures Stem(name + ".md") == name
  {
    var file := name + ".md";
    assert file == (name + ".") + "md";
    RFindAppend(name + ".", "md", '.');
    assert RFind(file, '.') == |name|;
    forall i | 0 <= i < |file| ensures file[i] != '/' {
      if i < |name| { assert file[i] == name[i]; } else { assert file[i] == ".md"[i - |name|]; }
    }
    assert RFind(file, '/') == -1;
    var i :| 0 <= i < |name| && name[i] != '.';
    assert file[i] == name[i];
    assert file[..|name|] == name;
  }

  /** `load_docs`: one record per file, in the order the files are listed. */
  method LoadDocs(files: seq<(string, string)>) returns (docs: seq<DocRecord>)
    ensures |docs| == |files|
    ensures forall i :: 0 <= i < |files| ==> docs[i] == DocOf(files[i].0, files[i].1)
  {
    docs := [];
    for i := 0 to |files|
      invariant |docs| == i
      invariant forall j :: 0 <= j < i ==> docs[j] == DocOf(files[j].0, files[j].1)
    {
      var (path, text) := files[i];
      var name := Basename(path);
      var d := DocRecord(Stem(name), name, "file://" + path, text);
      assert d == DocOf(files[i].0, files[i].1);
      docs := docs + [d];
    }
  }

  // ---------------------------------------------------------------- chunk records

  /** `f"{doc_id}_chunk_{i}"`. */
  function ChunkId(docId: string, i: nat): string {
    docId + "_chunk_" + DecimalString(i)
  }

  /** The last `_` of a chunk id is the one just before the number. */
  lemma ChunkIdUnderscore(docId: string, i: nat)
    ensures RFind(ChunkId(docId, i), '_') == |docId| + 6
  {
    var digits := DecimalString(i);
    forall k | 0 <= k < |digits| ensures digits[k] != '_' {
      assert IsDigit(digits[k]);
    }
    RFindAppend(docId + "_chunk_", digits, '_');
    assert (docId + "_chunk_")[|docId| + 6] == '_';
  }

  /** Different (document, position) pairs give different chunk ids. */
  lemma ChunkIdInjective(d1: string, i1: nat, d2: string, i2: nat)
    requires ChunkId(d1, i1) == ChunkId(d2, i2)
    ensures d1 == d2 && i1 == i2
  {
    var s := ChunkId(d1, i1);
    ChunkIdUnderscore(d1, i1);
    ChunkIdUnderscore(d2, i2);
    assert d1 == s[..|d1|] == d2;
    assert DecimalString(i1) == s[|d1| + 7..] == DecimalString(i2);
    DecimalStringInjective(i1, i2);
  }

  /** `simple_chunk(d["text"])` with the default budget; it never raises, as the budget is positive. */
  function TextChunks(text: string, split: string -> seq<string>): seq<string> {
    ChunksBounded(split(Strip(text)), MaxChars);
    SimpleChunkOf(text, MaxChars, split).value
  }

  /** The record of the `i`-th chunk `t` of document `d`. */
  function ChunkRecordOf(d: DocRecord, i: nat, t: string): ChunkRecord {
    ChunkRecord(ChunkId(d.id, i), d.id, d.title, d.url, t, Concepts(t, TopK))
  }

  /** `rs[j]` is the record of the `j`-th chunk `ts[j]` of document `d`. */
  predicate RecordAt(rs: seq<ChunkRecord>, d: DocRecord, ts: seq<string>, j: int) {
    0 <= j < |rs| && j < |ts| && rs[j] == ChunkRecordOf(d, j, ts[j])
  }

  /** The records of one document's chunks `ts`, by position. */
  function RecordsOf(d: DocRecord, ts: seq<string>): (r: seq<ChunkRecord>)
    ensures |r| == |ts| && forall i :: 0 <= i < |ts| ==> RecordAt(r, d, ts, i)
  {
    seq(|ts|, i requires 0 <= i < |ts| => ChunkRecordOf(d, i, ts[i]))
  }

  /** The records of one document's chunks, by position. */
  function DocChunks(d: DocRecord, split: string -> seq<string>): seq<ChunkRecord> {
    RecordsOf(d, TextChunks(d.text, split))
  }

  /** The `chunks` list of `build_index`: document by document, then by position. */
  function AllChunks(docs: seq<DocRecord>, split: string -> seq<string>): seq<ChunkRecord> {
    if docs == [] then [] else AllChunks(docs[..|docs| - 1], split) + DocChunks(docs[|docs| - 1], split)
  }

  /** The ids of a list of documents, the keys the uniqueness of chunk ids rests on.
      `DocRecord` and `ChunkRecord` are separate datatypes with no common supertype, so this
      projection and `ChunkIdList` are written once for each. */
  function DocIdList(docs: seq<DocRecord>): (r: seq<string>)
    ensures |r| == |docs| && forall j :: 0 <= j < |docs| ==> r[j] == docs[j].id
  {
    seq(|docs|, j requires 0 <= j < |docs| => docs[j].id)
  }

  /** Every chunk record is position `i` of the chunks of some document `d`: it carries `d`'s
      id, title and url, the `i`-th chunk text, the id `d_chunk_i`, and the concepts of its text. */
  lemma {:induction false} ChunkRecordOrigin(docs: seq<DocRecord>, split: string -> seq<string>, c: ChunkRecord)
    requires c in AllChunks(docs, split)
    ensures exists d, i :: (d in docs && 0 <= i < |TextChunks(d.text, split)| &&
      c == ChunkRecord(ChunkId(d.id, i), d.id, d.title, d.url, TextChunks(d.text, split)[i], Concepts(TextChunks(d.text, split)[i], TopK)))
  {
    var init, d := docs[..|docs| - 1], docs[|docs| - 1];
    if c in AllChunks(init, split) {
      ChunkRecordOrigin(init, split, c);
      var d', i :| d' in init && 0 <= i < |TextChunks(d'.text, split)| &&
        c == ChunkRecord(ChunkId(d'.id, i), d'.id, d'.title, d'.url, TextChunks(d'.text, split)[i], Concepts(TextChunks(d'.text, split)[i], TopK));
      assert d' in docs;
    } else {
      var i :| 0 <= i < |DocChunks(d, split)| && DocChunks(d, split)[i] == c;
    }
  }

  /** The id of each chunk record is `d_chunk_i` for one of the documents `d`. */
  lemma {:induction false} ChunkIdSource(docs: seq<DocRecord>, split: string -> seq<string>, x: nat) returns (k: nat, i: nat)
    requires x < |AllChunks(docs, split)|
    ensures k < |docs| && AllChunks(docs, split)[x].id == ChunkId(docs[k].id, i)
  {
    var init, d := docs[..|docs| - 1], docs[|docs| - 1];
    var a := AllChunks(init, split);
    if x < |a| {
      k, i := ChunkIdSource(init, split, x);
      assert docs[k] == init[k];
    } else {
      k, i := |docs| - 1, x - |a|;
      assert AllChunks(docs, split)[x] == DocChunks(d, split)[x - |a|];
    }
  }

  lemma DocChunkId(d: DocRecord, split: string -> seq<string>, j: nat)
    requires j < |DocChunks(d, split)|
    ensures DocChunks(d, split)[j].id == ChunkId(d.id, j)
  {
    assert RecordAt(DocChunks(d, split), d, TextChunks(d.text, split), j);
  }

  /** The chunks of a document whose id is new do not reuse an earlier chunk id. */
  lemma CrossIds(init: seq<DocRecord>, d: DocRecord, split: string -> seq<string>, x: nat, j: nat)
    requires forall k :: 0 <= k < |init| ==> init[k].id != d.id
    requires x < |AllChunks(init, split)| && j < |DocChunks(d, split)|
    ensures AllChunks(init, split)[x].id != DocChunks(d, split)[j].id
  {
    var k, i := ChunkIdSource(init, split, x);
    DocChunkId(d, split, j);
    if AllChunks(init, split)[x].id == DocChunks(d, split)[j].id {
      ChunkIdInjective(init[k].id, i, d.id, j);
    }
  }

  /** The chunks of one document have distinct ids. */
  lemma OwnIds(d: DocRecord, split: string -> seq<string>, x: nat, y: nat)
    requires x < y < |DocChunks(d, split)|
    ensures DocChunks(d, split)[x].id != DocChunks(d, split)[y].id
  {
    DocChunkId(d, split, x);
    DocChunkId(d, split, y);
    if DocChunks(d, split)[x].id == DocChunks(d, split)[y].id {
      ChunkIdInjective(d.id, x, d.id, y);
    }
  }

  /** With distinct document ids, chunk ids are distinct. */
  lemma {:induction false} ChunkIdsDistinct(docs: seq<DocRecord>, split: string -> seq<string>)
    requires Distinct(DocIdList(docs))
    ensures Distinct(ChunkIdList(AllChunks(docs, split)))
  {
    if docs != [] {
      var init, d := docs[..|docs| - 1], docs[|docs| - 1];
      assert DocIdList(init) == DocIdList(docs)[..|docs| - 1];
      ChunkIdsDistinct(init, split);
      var a: seq<ChunkRecord> := AllChunks(init, split);
      var b: seq<ChunkRecord> := DocChunks(d, split);
      forall k | 0 <= k < |init| ensures init[k].id != d.id {
        assert DocIdList(docs)[k] == init[k].id && DocIdList(docs)[|docs| - 1] == d.id;
      }
      forall x, j | 0 <= x < |a| && 0 <= j < |b| ensures a[x].id != b[j].id {
        CrossIds(init, d, split, x, j);
      }
      forall x, y | 0 <= x < y < |b| ensures ChunkIdList(b)[x] != ChunkIdList(b)[y] {
        OwnIds(d, split, x, y);
      }
      AppendIdsDistinct(a, b);
    }
  }

  /** Two lists of records with distinct ids each, and no id shared, have distinct ids together. */
  lemma AppendIdsDistinct(a: seq<ChunkRecord>, b: seq<ChunkRecord>)
    requires Distinct(ChunkIdList(a)) && Distinct(ChunkIdList(b))
    requires forall x, j :: 0 <= x < |a| && 0 <= j < |b| ==> a[x].id != b[j].id
    ensures Distinct(ChunkIdList(a + b))
  {
    var ids := ChunkIdList(a + b);
    forall x, y | 0 <= x < y < |ids| ensures ids[x] != ids[y] {
      if y < |a| {
        assert ChunkIdList(a)[x] == a[x].id && ChunkIdList(a)[y] == a[y].id;
      } else if x < |a| {
        assert ids[y] == b[y - |a|].id;
      } else {
        assert ChunkIdList(b)[x - |a|] == ids[x] && ChunkIdList(b)[y - |a|] == ids[y];
      }
    }
  }

  /** The ids of a list of chunk records, the ids stored on the chunk nodes (see `DocIdList`). */
  function ChunkIdList(cs: seq<ChunkRecord>): (r: seq<string>)
    ensures |r| == |cs| && forall j :: 0 <= j < |cs| ==> r[j] == cs[j].id
  {
    seq(|cs|, j requires 0 <= j < |cs| => cs[j].id)
  }

  /** The inner loop of the chunk-record loop, over the chunk texts `ts` of document `d`. */
  method ChunkRecords(d: DocRecord, ts: seq<string>) returns (rs: seq<ChunkRecord>)
    ensures rs == RecordsOf(d, ts)
  {
    rs := [];
    for i := 0 to |ts|
      invariant |rs| == i
      invariant forall j :: 0 <= j < i ==> RecordAt(rs, d, ts, j)
    {
      var cpts := ExtractConcepts(ts[i], TopK);
      ghost var before := rs;
      rs := rs + [ChunkRecord(ChunkId(d.id, i), d.id, d.title, d.url, ts[i], cpts)];
      forall j | 0 <= j < i + 1 ensures RecordAt(rs, d, ts, j) {
        if j < i {
          assert RecordAt(before, d, ts, j);
        }
      }
    }
    forall j | 0 <= j < |ts| ensures rs[j] == RecordsOf(d, ts)[j] {
      assert RecordAt(rs, d, ts, j) && RecordAt(RecordsOf(d, ts), d, ts, j);
    }
  }

  /** One document's turn in the chunk-record loop. */
  method DocChunkRecords(d: DocRecord, split: string -> seq<string>) returns (rs: seq<ChunkRecord>)
    ensures rs == DocChunks(d, split)
  {
    var texts := SimpleChunk(d.text, MaxChars, split);
    ChunksBounded(split(Strip(d.text)), MaxChars);
    rs := ChunkRecords(d, texts.value);
  }

  /** The chunk-record loop of `build_index`. */
  method BuildChunks(docs: seq<DocRecord>, split: string -> seq<string>) returns (chunks: seq<ChunkRecord>)
    ensures chunks == AllChunks(docs, split)
  {
    chunks := [];
    for j := 0 to |docs|
      invariant chunks == AllChunks(docs[..j], split)
    {
      var rs := DocChunkRecords(docs[j], split);
      chunks := chunks + rs;
      assert docs[..j + 1][..j] == docs[..j];
    }
    assert docs[..|docs|] == docs;
  }

  /** The vector rows: row `i` is the embedding of the text of `chunks[i]`. */
  function Vectors<V>(chunks: seq<ChunkRecord>, embed: string -> V): (r: seq<V>)
    ensures |r| == |chunks| && forall i :: 0 <= i < |chunks| ==> r[i] == embed(chunks[i].text)
  {
    seq(|chunks|, i requires 0 <= i < |chunks| => embed(chunks[i].text))
  }

  // ---------------------------------------------------------------- the graph

  /** `for d in docs: gs.add_doc(d["id"], d["title"], d["url"])`. */
  function WithDocs(g: Graph, docs: seq<DocRecord>): (r: Graph)
    ensures Inv(g) ==> Inv(r)
    ensures r.edges == g.edges
  {
    if docs == [] then g
    else
      var d := docs[|docs| - 1];
      WithDoc(WithDocs(g, docs[..|docs| - 1]), d.id, d.title, d.url)
  }

  /** `for k in concepts: gs.add_concept(k); gs.link_mentions(cid, k)`: every node keeps its
      attributes and no HAS_CHUNK edge appears or disappears. */
  function WithLinks(g: Graph, cid: string, ks: seq<string>): (r: Graph)
    requires Inv(g)
    ensures Inv(r)
    ensures forall n :: n in g.nodes.values ==> n in r.nodes.values && r.nodes.values[n] == g.nodes.values[n]
    ensures EdgesOfType(r.edges.values, HasChunk) == EdgesOfType(g.edges.values, HasChunk)
  {
    if ks == [] then g
    else
      var k := ks[|ks| - 1];
      var h := WithLinks(g, cid, ks[..|ks| - 1]);
      var e := (Node(Chunk, cid), Node(Concept, k));
      assert e in h.edges.values ==> h.edges.values[e] != HasChunk by {
        if e in h.edges.values {
          assert Fits(e, h.edges.values[e]);
        }
      }
      EdgesOfTypeUpdate(h.edges.values, e, HasChunk, Mentions);
      WithMention(WithConcept(h, k), cid, k)
  }

  lemma WithLinksSnoc(g: Graph, cid: string, ks: seq<string>, k: string)
    requires Inv(g)
    ensures WithLinks(g, cid, ks + [k]) == WithMention(WithConcept(WithLinks(g, cid, ks), k), cid, k)
  {
    var s := ks + [k];
    assert s[..|s| - 1] == ks && s[|s| - 1] == k;
  }

  lemma WithLinksPrefix(g: Graph, cid: string, ks: seq<string>, i: nat)
    requires Inv(g) && i < |ks|
    ensures WithLinks(g, cid, ks[..i + 1]) == WithMention(WithConcept(WithLinks(g, cid, ks[..i]), ks[i]), cid, ks[i])
  {
    var s := ks[..i + 1];
    assert s[..|s| - 1] == ks[..i] && s[|s| - 1] == ks[i];
  }

  /** Linking one concept adds exactly its MENTIONS edge. */
  lemma MentionStep(h: Graph, cid: string, k: string, u: Node, v: Node)
    ensures IsEdge(WithMention(WithConcept(h, k), cid, k), u, v, Mentions) <==>
      IsEdge(h, u, v, Mentions) || (u == Node(Chunk, cid) && v == Node(Concept, k))
  {
    var h1 := WithConcept(h, k);
    assert h1.edges.values == h.edges.values;
    assert WithMention(h1, cid, k).edges.values == h.edges.values[(Node(Chunk, cid), Node(Concept, k)) := Mentions];
  }

  /** After linking, `u -> v` is a MENTIONS edge exactly when it was one, or it joins chunk `cid`
      to a concept of `ks`. */
  lemma {:induction false} LinkedMentions(g: Graph, cid: string, ks: seq<string>, u: Node, v: Node)
    requires Inv(g)
    ensures IsEdge(WithLinks(g, cid, ks), u, v, Mentions) <==>
      IsEdge(g, u, v, Mentions) || (u == Node(Chunk, cid) && v.kind == Concept && v.id in ks)
  {
    if ks != [] {
      var init, k := ks[..|ks| - 1], ks[|ks| - 1];
      assert ks == init + [k];
      LinkedMentions(g, cid, init, u, v);
      WithLinksSnoc(g, cid, init, k);
      MentionStep(WithLinks(g, cid, init), cid, k, u, v);
      assert v.id in ks <==> v.id in init || v.id == k;
    }
  }

  /** One chunk's turn in the graph loop: `add_chunk`, then the chunk's concepts. */
  function WithChunkRecord(g: Graph, c: ChunkRecord): (r: Graph)
    requires Inv(g)
    ensures Inv(r)
  {
    WithLinks(WithChunk(g, c.id, c.text, c.docId), c.id, c.concepts)
  }

  /** The chunk loop of the graph build. */
  function WithChunks(g: Graph, chunks: seq<ChunkRecord>): (r: Graph)
    requires Inv(g)
    ensures Inv(r)
  {
    if chunks == [] then g else WithChunkRecord(WithChunks(g, chunks[..|chunks| - 1]), chunks[|chunks| - 1])
  }

  /** The graph before `compute_doc_pagerank`: all documents first, then all chunks. */
  function Built(docs: seq<DocRecord>, chunks: seq<ChunkRecord>): (g: Graph)
    ensures Inv(g)
  {
    WithChunks(WithDocs(EmptyGraph(), docs), chunks)
  }

  /** The concepts the chunks with id `cid` list, over all such chunk records. */
  function MentionedBy(chunks: seq<ChunkRecord>, cid: string): set<string> {
    if chunks == [] then {}
    else
      var c := chunks[|chunks| - 1];
      MentionedBy(chunks[..|chunks| - 1], cid) + (if c.id == cid then set k | k in c.concepts else {})
  }

  /** With one record per chunk id, the concepts mentioned by a chunk are its concept list. */
  lemma {:induction false} MentionedByUnique(chunks: seq<ChunkRecord>, j: nat)
    requires Distinct(ChunkIdList(chunks)) && j < |chunks|
    ensures MentionedBy(chunks, chunks[j].id) == set k | k in chunks[j].concepts
  {
    var init, c := chunks[..|chunks| - 1], chunks[|chunks| - 1];
    assert ChunkIdList(init) == ChunkIdList(chunks)[..|chunks| - 1];
    if j < |chunks| - 1 {
      MentionedByUnique(init, j);
      assert ChunkIdList(chunks)[j] != ChunkIdList(chunks)[|chunks| - 1];
    } else {
      MentionedByAbsent(init, c.id);
    }
  }

  lemma {:induction false} MentionedByAbsent(chunks: seq<ChunkRecord>, cid: string)
    requires cid !in ChunkIdList(chunks)
    ensures MentionedBy(chunks, cid) == {}
  {
    if chunks != [] {
      var init := chunks[..|chunks| - 1];
      assert ChunkIdList(init) == ChunkIdList(chunks)[..|chunks| - 1];
      assert ChunkIdList(chunks)[|chunks| - 1] == chunks[|chunks| - 1].id;
      MentionedByAbsent(init, cid);
    }
  }

  /** One chunk's turn adds the MENTIONS edges from the chunk to its concepts and no other. */
  lemma ChunkRecordMentions(g: Graph, c: ChunkRecord, cid: string, k: string)
    requires Inv(g)
    ensures IsEdge(WithChunkRecord(g, c), Node(Chunk, cid), Node(Concept, k), Mentions) <==>
      IsEdge(g, Node(Chunk, cid), Node(Concept, k), Mentions) || (c.id == cid && k in c.concepts)
  {
    var h := WithChunk(g, c.id, c.text, c.docId);
    var u, v := Node(Chunk, cid), Node(Concept, k);
    LinkedMentions(h, c.id, c.concepts, u, v);
    ChunkKeepsEdge(g, c, u, v, Mentions);
    assert WithChunkRecord(g, c) == WithLinks(h, c.id, c.concepts);
  }

  /** `add_chunk` adds only an edge out of a document node. */
  lemma ChunkKeepsEdge(g: Graph, c: ChunkRecord, u: Node, v: Node, t: EdgeType)
    requires u.kind != Doc
    ensures IsEdge(WithChunk(g, c.id, c.text, c.docId), u, v, t) <==> IsEdge(g, u, v, t)
  {
  }

  /** The MENTIONS edges out of a chunk are the ones it had, plus one per concept of each record
      with its id; nothing the chunk loop does removes or retypes a MENTIONS edge. */
  lemma {:induction false} ChunkMentions(g: Graph, chunks: seq<ChunkRecord>, cid: string, k: string)
    requires Inv(g)
    ensures IsEdge(WithChunks(g, chunks), Node(Chunk, cid), Node(Concept, k), Mentions) <==>
      IsEdge(g, Node(Chunk, cid), Node(Concept, k), Mentions) || k in MentionedBy(chunks, cid)
  {
    if chunks != [] {
      var init, c := chunks[..|chunks| - 1], chunks[|chunks| - 1];
      ChunkMentions(g, init, cid, k);
      ChunkRecordMentions(WithChunks(g, init), c, cid, k);
    }
  }

  /** Every HAS_CHUNK edge leaves a document node that has a title and a url. */
  ghost predicate Described(g: Graph) {
    forall e :: e in EdgesOfType(g.edges.values, HasChunk) ==>
      e.0 in g.nodes.values && g.nodes.values[e.0].title.Some? && g.nodes.values[e.0].url.Some?
  }

  /** The documents with ids in `ids` are nodes with a title and a url. */
  ghost predicate DocsDescribed(g: Graph, ids: set<string>) {
    forall id :: id in ids ==>
      Node(Doc, id) in g.nodes.values && g.nodes.values[Node(Doc, id)].title.Some? && g.nodes.values[Node(Doc, id)].url.Some?
  }

  /** Every HAS_CHUNK edge leaves a node whose id is in `ids`. */
  ghost predicate OwnedBy(g: Graph, ids: set<string>) {
    forall e :: e in EdgesOfType(g.edges.values, HasChunk) ==> e.0.id in ids
  }

  lemma DescribedByOwners(g: Graph, ids: set<string>)
    requires Inv(g) && DocsDescribed(g, ids) && OwnedBy(g, ids)
    ensures Described(g)
  {
    forall e | e in EdgesOfType(g.edges.values, HasChunk)
      ensures e.0 in g.nodes.values && g.nodes.values[e.0].title.Some? && g.nodes.values[e.0].url.Some?
    {
      assert Fits(e, HasChunk);
      assert e.0 == Node(Doc, e.0.id);
    }
  }

  lemma {:induction false} DocsAdded(g: Graph, docs: seq<DocRecord>)
    ensures DocsDescribed(WithDocs(g, docs), set id | id in DocIdList(docs))
  {
    if docs != [] {
      var init, d := docs[..|docs| - 1], docs[|docs| - 1];
      DocsAdded(g, init);
      assert DocIdList(init) == DocIdList(docs)[..|docs| - 1];
      assert DocIdList(docs) == DocIdList(init) + [d.id];
    }
  }

  lemma ChunkOwned(g: Graph, c: ChunkRecord, ids: set<string>)
    requires Inv(g) && OwnedBy(g, ids) && c.docId in ids
    ensures OwnedBy(WithChunk(g, c.id, c.text, c.docId), ids)
  {
    var h := WithChunk(g, c.id, c.text, c.docId);
    forall e | e in EdgesOfType(h.edges.values, HasChunk) ensures e.0.id in ids {
      if e != (Node(Doc, c.docId), Node(Chunk, c.id)) {
        assert e in EdgesOfType(g.edges.values, HasChunk);
      }
    }
  }

  lemma ChunkKeepsDocs(g: Graph, c: ChunkRecord, ids: set<string>)
    requires Inv(g) && DocsDescribed(g, ids)
    ensures DocsDescribed(WithChunk(g, c.id, c.text, c.docId), ids)
  {
    var h := WithChunk(g, c.id, c.text, c.docId);
    forall id | id in ids ensures Node(Doc, id) in h.nodes.values && h.nodes.values[Node(Doc, id)] == g.nodes.values[Node(Doc, id)] {
      assert Node(Doc, id) != Node(Chunk, c.id);
    }
  }

  /** A chunk of a described document keeps every document described and owned. */
  lemma ChunkRecordDescribed(g: Graph, c: ChunkRecord, ids: set<string>)
    requires Inv(g) && DocsDescribed(g, ids) && OwnedBy(g, ids) && c.docId in ids
    ensures DocsDescribed(WithChunkRecord(g, c), ids) && OwnedBy(WithChunkRecord(g, c), ids)
  {
    ChunkOwned(g, c, ids);
    ChunkKeepsDocs(g, c, ids);
  }

  lemma {:induction false} ChunksDescribed(g: Graph, chunks: seq<ChunkRecord>, ids: set<string>)
    requires Inv(g) && DocsDescribed(g, ids) && OwnedBy(g, ids)
    requires forall j :: 0 <= j < |chunks| ==> chunks[j].docId in ids
    ensures DocsDescribed(WithChunks(g, chunks), ids) && OwnedBy(WithChunks(g, chunks), ids)
  {
    if chunks != [] {
      var init, c := chunks[..|chunks| - 1], chunks[|chunks| - 1];
      ChunksDescribed(g, init, ids);
      ChunkRecordDescribed(WithChunks(g, init), c, ids);
    }
  }

  /** After the graph build, the source of every HAS_CHUNK edge is a document with a title and a url,
      and every chunk's MENTIONS targets are exactly its concept list when chunk ids are distinct. */
  lemma BuiltShape(docs: seq<DocRecord>, chunks: seq<ChunkRecord>)
    requires forall j :: 0 <= j < |chunks| ==> chunks[j].docId in DocIdList(docs)
    ensures Described(Built(docs, chunks))
    ensures forall j, k :: 0 <= j < |chunks| && Distinct(ChunkIdList(chunks)) ==>
      (IsEdge(Built(docs, chunks), Node(Chunk, chunks[j].id), Node(Concept, k), Mentions) <==> k in chunks[j].concepts)
  {
    var ids := set id | id in DocIdList(docs);
    var g0 := WithDocs(EmptyGraph(), docs);
    DocsAdded(EmptyGraph(), docs);
    assert g0.edges.values == map[];
    ChunksDescribed(g0, chunks, ids);
    DescribedByOwners(Built(docs, chunks), ids);
    forall j, k | 0 <= j < |chunks| && Distinct(ChunkIdList(chunks))
      ensures IsEdge(Built(docs, chunks), Node(Chunk, chunks[j].id), Node(Concept, k), Mentions) <==> k in chunks[j].concepts
    {
      ChunkMentions(g0, chunks, chunks[j].id, k);
      MentionedByUnique(chunks, j);
    }
  }

  /** `compute_doc_pagerank` keeps both properties: it adds only RELATED_DOC edges and writes only `pagerank`. */
  lemma RankedShape(docs: seq<DocRecord>, chunks: seq<ChunkRecord>, rank: (Graph, Node) -> real)
    requires forall j :: 0 <= j < |chunks| ==> chunks[j].docId in DocIdList(docs)
    requires Distinct(ChunkIdList(chunks))
    ensures var g := Ranked(Projected(Built(docs, chunks)), rank);
      && Described(g)
      && forall j, k :: 0 <= j < |chunks| ==>
        (IsEdge(g, Node(Chunk, chunks[j].id), Node(Concept, k), Mentions) <==> k in chunks[j].concepts)
  {
    var b := Built(docs, chunks);
    BuiltShape(docs, chunks);
    ProjectedEdges(b);
    var p := Projected(b);
    var g := Ranked(p, rank);
    forall e | e in EdgesOfType(g.edges.values, HasChunk)
      ensures e.0 in g.nodes.values && g.nodes.values[e.0].title.Some? && g.nodes.values[e.0].url.Some?
    {
      assert e in EdgesOfType(b.edges.values, HasChunk);
      assert Fits(e, HasChunk);
    }
    forall j, k | 0 <= j < |chunks|
      ensures IsEdge(g, Node(Chunk, chunks[j].id), Node(Concept, k), Mentions) <==> k in chunks[j].concepts
    {
      var e := (Node(Chunk, chunks[j].id), Node(Concept, k));
      assert e in EdgesOfType(p.edges.values, Mentions) <==> e in EdgesOfType(b.edges.values, Mentions);
    }
  }

  /** The document loop of the graph build. */
  method AddDocs(gs: GraphStore, docs: seq<DocRecord>)
    requires gs.Valid()
    modifies gs
    ensures gs.Valid() && gs.G == WithDocs(old(gs.G), docs)
  {
    for j := 0 to |docs|
      invariant gs.Valid() && gs.G == WithDocs(old(gs.G), docs[..j])
    {
      gs.AddDoc(docs[j].id, docs[j].title, docs[j].url);
      assert docs[..j + 1][..j] == docs[..j];
    }
    assert docs[..|docs|] == docs;
  }

  /** `x` is `h` with chunk `cid` linked to the concepts `ks`. */
  ghost predicate LinkedFrom(x: Graph, h: Graph, cid: string, ks: seq<string>) {
    Inv(h) && x == WithLinks(h, cid, ks)
  }

  /** `gs.add_concept(ks[i]); gs.link_mentions(cid, ks[i])`. */
  method LinkConcept(gs: GraphStore, cid: string, ks: seq<string>, i: nat, ghost h: Graph)
    requires i < |ks| && gs.Valid() && LinkedFrom(gs.G, h, cid, ks[..i])
    modifies gs
    ensures gs.Valid() && LinkedFrom(gs.G, h, cid, ks[..i + 1])
  {
    gs.AddConcept(ks[i]);
    gs.LinkMentions(cid, ks[i]);
    WithLinksPrefix(h, cid, ks, i);
  }

  /** The concept loop of one chunk. */
  method LinkConcepts(gs: GraphStore, cid: string, ks: seq<string>)
    requires gs.Valid()
    modifies gs
    ensures gs.Valid() && LinkedFrom(gs.G, old(gs.G), cid, ks)
  {
    ghost var h := gs.G;
    for i := 0 to |ks|
      invariant gs.Valid() && LinkedFrom(gs.G, h, cid, ks[..i])
    {
      LinkConcept(gs, cid, ks, i, h);
    }
    assert ks[..|ks|] == ks;
  }

  /** One chunk's turn in the graph loop. */
  method AddChunkRecord(gs: GraphStore, c: ChunkRecord)
    requires gs.Valid()
    modifies gs
    ensures gs.Valid() && gs.G == WithChunkRecord(old(gs.G), c)
  {
    gs.AddChunk(c.id, c.text, c.docId);
    LinkConcepts(gs, c.id, c.concepts);
  }

  /** `x` is `h` after the chunk loop over `chunks`. */
  ghost predicate ChunkedFrom(x: Graph, h: Graph, chunks: seq<ChunkRecord>) {
    Inv(h) && x == WithChunks(h, chunks)
  }

  lemma WithChunksPrefix(g: Graph, chunks: seq<ChunkRecord>, j: nat)
    requires Inv(g) && j < |chunks|
    ensures WithChunks(g, chunks[..j + 1]) == WithChunkRecord(WithChunks(g, chunks[..j]), chunks[j])
  {
    var s := chunks[..j + 1];
    assert s[..|s| - 1] == chunks[..j] && s[|s| - 1] == chunks[j];
  }

  /** The turn of `chunks[j]` in the chunk loop. */
  method AddChunkAt(gs: GraphStore, chunks: seq<ChunkRecord>, j: nat, ghost h: Graph)
    requires j < |chunks| && gs.Valid() && ChunkedFrom(gs.G, h, chunks[..j])
    modifies gs
    ensures gs.Valid() && ChunkedFrom(gs.G, h, chunks[..j + 1])
  {
    AddChunkRecord(gs, chunks[j]);
    WithChunksPrefix(h, chunks, j);
  }

  /** The chunk loop of the graph build. */
  method AddChunkRecords(gs: GraphStore, chunks: seq<ChunkRecord>)
    requires gs.Valid()
    modifies gs
    ensures gs.Valid() && ChunkedFrom(gs.G, old(gs.G), chunks)
  {
    ghost var h := gs.G;
    for j := 0 to |chunks|
      invariant gs.Valid() && ChunkedFrom(gs.G, h, chunks[..j])
    {
      AddChunkAt(gs, chunks, j, h);
    }
    assert chunks[..|chunks|] == chunks;
  }

  /** The graph loops of `build_index`, then `compute_doc_pagerank`; `rank` stands for `nx.pagerank`. */
  method BuildGraph(docs: seq<DocRecord>, chunks: seq<ChunkRecord>, rank: (Graph, Node) -> real) returns (gs: GraphStore)
    ensures fresh(gs) && gs.Valid()
    ensures gs.G == Ranked(Projected(Built(docs, chunks)), rank)
  {
    gs := new GraphStore();
    AddDocs(gs, docs);
    AddChunkRecords(gs, chunks);
    gs.ComputeDocPagerank(rank);
  }

  /** What `build_index` produces: the chunk records, the vector rows and the graph. */
  method BuildIndex<V>(docs: seq<DocRecord>, split: string -> seq<string>, embed: string -> V, rank: (Graph, Node) -> real)
    returns (chunks: seq<ChunkRecord>, vectors: seq<V>, gs: GraphStore)
    ensures chunks == AllChunks(docs, split)
    ensures vectors == Vectors(chunks, embed)
    ensures fresh(gs) && gs.Valid() && gs.G == Ranked(Projected(Built(docs, chunks)), rank)
  {
    chunks := BuildChunks(docs, split);
    vectors := Vectors(chunks, embed);
    gs := BuildGraph(docs, chunks, rank);
  }

  /** Every chunk record of `build_index` names one of the documents. */
  lemma ChunksNameDocs(docs: seq<DocRecord>, split: string -> seq<string>)
    ensures forall j :: 0 <= j < |AllChunks(docs, split)| ==> AllChunks(docs, split)[j].docId in DocIdList(docs)
  {
    forall j | 0 <= j < |AllChunks(docs, split)| ensures AllChunks(docs, split)[j].docId in DocIdList(docs) {
      var c := AllChunks(docs, split)[j];
      ChunkRecordOrigin(docs, split, c);
      var d, i :| d in docs && 0 <= i < |TextChunks(d.text, split)| && c.docId == d.id;
      var k :| 0 <= k < |docs| && docs[k] == d;
      assert DocIdList(docs)[k] == d.id;
    }
  }

  /** The ingestion entry point: no files aborts before anything is built. */
  method Ingest<V>(files: seq<(string, string)>, split: string -> seq<string>, embed: string -> V, rank: (Graph, Node) -> real)
    returns (r: Result<(seq<DocRecord>, seq<ChunkRecord>, seq<V>)>, gs: GraphStore?)
    ensures r.Err? <==> files == []
    ensures r.Err? ==> r.error == NoDocs && gs == null
    ensures r.Ok? ==> gs != null && fresh(gs) && gs.Valid()
    ensures r.Ok? ==> |r.value.0| == |files| && forall i :: 0 <= i < |files| ==> r.value.0[i] == DocOf(files[i].0, files[i].1)
    ensures r.Ok? ==> r.value.1 == AllChunks(r.value.0, split) && r.value.2 == Vectors(r.value.1, embed)
    ensures r.Ok? && gs != null ==> gs.G == Ranked(Projected(Built(r.value.0, r.value.1)), rank)
  {
    var docs := LoadDocs(files);
    if |docs| == 0 {
      return Err(NoDocs), null;
    }
    var chunks, vectors, g := BuildIndex(docs, split, embed, rank);
    return Ok((docs, chunks, vectors)), g;
  }
}
