# Graph-RAG-Engine, modelled in Dafny

A model of the core of Graph-RAG-Engine, a small retrieval-augmented question-answering
service over a folder of Markdown documents. Ingestion splits each document into chunks
(greedy paragraph packing under a character budget), extracts frequency-ranked concept
tokens from every chunk, and builds a typed knowledge graph: Doc, Chunk and Concept nodes,
HAS_CHUNK and MENTIONS edges, and RELATED_DOC edges between documents that reach a shared
concept. The graph then gets a PageRank score on every document node. At query time the
vector-search hits are widened through shared concepts and reranked with a fixed blend of
similarity, concept overlap and document PageRank. An extractive answer is assembled with
citations and provenance paths. A second ranker recommends documents similar to a given
one. The HTTP layer adds a health probe and a de-duplicated document listing.

One module per source concern, one file per module:

| file | module | models |
|---|---|---|
| wrappers.dfy | Wrappers | Option, Result and the exceptions the code can raise; `MapAll`, a list comprehension that stops at the first exception |
| lists.dfy | Lists | Python slicing `[:n]` and indexing with negative indices; distinct lists |
| dicts.dfy | Dicts | the insertion-ordered `dict` (`get`, item assignment, `items()`) |
| strings.dfy | Strings | `str.isspace`, `strip`, `split()`, `lower`, `join`, string comparison, decimal rendering |
| sorting.dfy | Sorting | Python's stable `sorted`/`list.sort` in descending order |
| split.dfy | Split | `simple_chunk` and `extract_concepts` |
| digraph.dfy | DirectedGraph | the part of a networkx `DiGraph` the store uses: attribute-merging `add_node`, `add_edge` creating missing endpoints, in/out edge iteration |
| graph_store.dfy | KnowledgeGraph | the class `GraphStore`, its invariant, the RELATED_DOC projection and the queries |
| ingest.dfy | Ingest | `load_docs`, the chunk-record loop and the graph-building loops of `build_index` |
| retriever.dfy | Retriever | `ann_search`, `expand_and_rerank`, `recommend_similar` |
| rag.dfy | Rag | `compose_answer_extractive`, `ask` |
| api.dfy | Api | `health`, `ask_ep`, `rec_ep`, `docs_list` |

The store is a class whose methods reassign its graph field, and each method is proved
against a function of the old graph (`WithDoc`, `WithChunk`, `Projected`, `Ranked`, ...).
Every loop of the source is a method with loop invariants, proved equal to a
specification function. The lemmas state what the source promises about those functions.

The numeric oracles are parameters:
- a vector-index search result is its list of hits (`(position, similarity)` pairs, or
  positions only for the recommender);
- a similarity is a function `nat -> real` of the stored row;
- PageRank is a function `(Graph, Node) -> real`;
- the paragraph splitter `re.split(r"\n\s*\n", ·)` is a function `string -> seq<string>`;
- the sentence encoder is a function `string -> V`.

Query terms keep their punctuation: `q.lower().split()` turns the UI's default question
"What is FAISS?" (ui/app.py:47) into the term "faiss?", which never equals the concept
"faiss", so that question counts no concept overlap.

`expand_hops` is accepted but never read, so expansion is always exactly one hop.

Exceptions the code can raise are results of the model, not preconditions:
- `get_doc_info` of an unknown document raises KeyError, so scoring a chunk whose document is
  missing fails `expand_and_rerank`, and `recommend_similar` fails the same way.
- A stale chunk id fails the `CHUNK_BY_ID` lookup.
- A search position outside Python's index range fails with IndexError. Position -1, FAISS's
  padding, names the last chunk.
- `simple_chunk` with a zero budget fails in `range(0, len(p), 0)`.

## Model

| member | source | states |
|---|---|---|
| KnowledgeGraph.GraphStore.constructor | graph/graph_store.py:6-7 | a new store holds the empty graph and satisfies the store invariant |
| KnowledgeGraph.GraphStore.AddDoc | graph/graph_store.py:9-10 | the new graph is `WithDoc` of the old one, and the store invariant is kept |
| KnowledgeGraph.WithDoc | graph/graph_store.py:9-10 | adds node Doc(id), or keeps the one already there; title and url are overwritten, and text and pagerank are kept; no other node and no edge changes |
| KnowledgeGraph.AddDocTwice | graph/graph_store.py:9-10 | re-adding a doc id keeps one node in the same position, holding the second title and url |
| KnowledgeGraph.GraphStore.AddChunk | graph/graph_store.py:12-14 | the new graph is `WithChunk` of the old one, and the store invariant is kept |
| KnowledgeGraph.WithChunk | graph/graph_store.py:12-14 | the chunk node's attributes are its old ones (or none) merged with the new text; a missing owner becomes a bare Doc node; other nodes unchanged; new nodes are appended chunk first, then doc; the one edge (doc, chunk) is set to HAS_CHUNK, appended only if new |
| KnowledgeGraph.ImplicitDocInfo | graph/graph_store.py:12-14 | the doc created implicitly by `add_chunk` reports title None, url None and pagerank 0.0 |
| KnowledgeGraph.GraphStore.AddConcept | graph/graph_store.py:16-17 | the new graph is `WithConcept` of the old one, and the store invariant is kept |
| KnowledgeGraph.WithConcept | graph/graph_store.py:16-17 | an existing concept leaves the graph unchanged; a new one is appended bare; edges are unchanged |
| KnowledgeGraph.AddConceptIdempotent | graph/graph_store.py:16-17 | adding a concept twice equals adding it once |
| KnowledgeGraph.GraphStore.LinkMentions | graph/graph_store.py:19-20 | the new graph is `WithMention` of the old one, and the store invariant is kept |
| KnowledgeGraph.WithMention | graph/graph_store.py:19-20 | never fails: missing chunk and concept nodes are created bare; existing nodes are unchanged; the edge (chunk, concept) is set to MENTIONS |
| DirectedGraph.AddNode | graph/graph_store.py:10 | networkx `add_node`: the node is appended once; given attributes overwrite and the others are kept; nothing else changes |
| DirectedGraph.Merge | graph/graph_store.py:10 | each attribute given in the update wins, and each absent one keeps its old value |
| DirectedGraph.Touch | graph/graph_store.py:14 | the endpoint creation of `add_edge`: a missing node is appended bare, an existing one keeps its attributes and position; edges are unchanged |
| DirectedGraph.AddEdge | graph/graph_store.py:14 | networkx `add_edge`: missing endpoints become bare nodes, appended to the node order source first; existing nodes are unchanged; at most one edge per ordered pair, whose type is overwritten, appended only if new |
| DirectedGraph.Targets | graph/graph_store.py:48 | exactly the out-neighbours of a node over edges of one type; for any two of them the edge to the earlier was added first; no duplicates when the edge list has none |
| DirectedGraph.Sources | graph/graph_store.py:52 | exactly the in-neighbours of a node; for any two of them the edge from the earlier was added first |
| DirectedGraph.FirstSource | graph/graph_store.py:66-68 | None exactly when no edge of the given type enters the node; otherwise the source of the edge at the first position that does |
| KnowledgeGraph.GraphStore.ComputeDocPagerank | graph/graph_store.py:22-44 | the new graph is `Ranked(Projected(old graph), rank)`: the projection, then pagerank written on document nodes |
| KnowledgeGraph.GraphStore.ProjectDocs | graph/graph_store.py:24-39 | the nested loops over document pairs leave `Projected(old graph)` |
| KnowledgeGraph.GraphStore.LinkRow | graph/graph_store.py:27-39 | the inner loop extends the fold of projection steps by one row of pairs |
| KnowledgeGraph.GraphStore.LinkIfShared | graph/graph_store.py:28-39 | one pair: a RELATED_DOC edge is added exactly when the ids differ and the reachable concept sets intersect |
| KnowledgeGraph.GraphStore.CollectConcepts | graph/graph_store.py:30-37 | the loop over a document's out-edges collects exactly the concepts reachable from it by HAS_CHUNK then MENTIONS |
| KnowledgeGraph.ConceptsSeenSnoc | graph/graph_store.py:31-33 | one more out-edge adds its chunk's MENTIONS targets when it is a HAS_CHUNK edge of the document, and nothing otherwise |
| KnowledgeGraph.ConceptsViaAdd | graph/graph_store.py:31-33 | one more HAS_CHUNK edge out of the document adds exactly the concepts its chunk mentions |
| KnowledgeGraph.MentionIdsTargets | graph/graph_store.py:33 | the comprehension over a chunk's out-edges finds exactly the ids of its MENTIONS targets |
| KnowledgeGraph.DocIds | graph/graph_store.py:24 | exactly the ids of the Doc nodes; for any two of them the earlier's node comes first; no duplicates |
| KnowledgeGraph.DocConceptsIff | graph/graph_store.py:30-37 | concept c is reachable from doc d exactly when some chunk of d has a MENTIONS edge to c |
| KnowledgeGraph.Pairs | graph/graph_store.py:26-27 | the nested loops visit every (id1, id2) pair of document ids |
| KnowledgeGraph.StepKeepsTypedEdges | graph/graph_store.py:38-39 | one projection step keeps the invariant, the nodes, every existing edge and its type, and the HAS_CHUNK and MENTIONS edge sets |
| KnowledgeGraph.FoldSnoc | graph/graph_store.py:26-39 | visiting one more pair is one more projection step on the graph built so far |
| KnowledgeGraph.FoldEffect | graph/graph_store.py:26-39 | after any run of steps, old edges are kept; each new edge links two distinct sharing docs from a visited pair; every visited sharing pair is linked |
| KnowledgeGraph.FoldFixed | graph/graph_store.py:26-39 | steps over pairs that are already linked change nothing |
| KnowledgeGraph.ProjectedEdges | graph/graph_store.py:24-39 | projection only adds edges; for d1 ≠ d2 there is an edge d1→d2 iff there was one or they share a concept; every new edge is a RELATED_DOC edge between distinct docs |
| KnowledgeGraph.ProjectedInv | graph/graph_store.py:24-39 | projection keeps the store invariant |
| KnowledgeGraph.NoDocDocEdges | graph/graph_store.py:24-39 | a store graph without RELATED_DOC edges has no doc-to-doc edge at all |
| KnowledgeGraph.SameDocConcepts | graph/graph_store.py:30-37 | graphs with equal HAS_CHUNK and MENTIONS edges reach the same concepts from every doc |
| KnowledgeGraph.ProjectionRelation | graph/graph_store.py:24-39 | after projection of a freshly built graph, RELATED_DOC d1→d2 holds iff d1 ≠ d2 and they share a concept; the relation is symmetric and irreflexive; reachable concepts are unchanged |
| KnowledgeGraph.ProjectedIdempotent | graph/graph_store.py:24-39 | projecting twice equals projecting once |
| KnowledgeGraph.Ranked | graph/graph_store.py:40-44 | only pagerank on Doc nodes is written, as the oracle's score; edges, node order and all other nodes are unchanged |
| KnowledgeGraph.GraphStore.WriteRanks | graph/graph_store.py:42-44 | the loop over the nodes leaves `Ranked(old graph, rank)` |
| KnowledgeGraph.RankedAll | graph/graph_store.py:42-44 | once every node has been visited, the graph is `Ranked(old graph, rank)` and keeps the store invariant |
| KnowledgeGraph.RankStep | graph/graph_store.py:42-44 | one loop step writes the rank of the visited node if it is a document and changes nothing else |
| KnowledgeGraph.GraphStore.NeighborChunksByConcepts | graph/graph_store.py:46-55 | no duplicates; never the input chunk; only chunks sharing a MENTIONS concept with it; length is Python's `[:max_neighbors]` of the set size, at most `max_neighbors`; empty for an unknown chunk |
| KnowledgeGraph.GraphStore.CollectNeighbours | graph/graph_store.py:48-54 | the outer loop builds exactly `Neighbours(G, chunk)` |
| KnowledgeGraph.GraphStore.ChunksMentioning | graph/graph_store.py:52-54 | the inner loop collects the chunks other than the input with an edge into the concept |
| KnowledgeGraph.ChunksAmong | graph/graph_store.py:52-54 | x is collected iff x differs from the input chunk and Chunk(x) is among the sources |
| KnowledgeGraph.ChunksInto | graph/graph_store.py:50-54 | x is collected iff x differs from the input and has an edge into one of the listed concepts |
| KnowledgeGraph.NeighboursIff | graph/graph_store.py:46-55 | x is a neighbour iff x differs from the chunk and both chunks mention a common concept |
| KnowledgeGraph.NeighboursOfUnknown | graph/graph_store.py:46-55 | an unknown chunk has no neighbours |
| KnowledgeGraph.DocInfoOf | graph/graph_store.py:57-63 | KeyError exactly for an unknown doc id; otherwise the node's title and url, and pagerank 0.0 when none was written |
| KnowledgeGraph.ChunkDocOf | graph/graph_store.py:65-69 | None iff no HAS_CHUNK edge enters the chunk; otherwise the document at the source of the first such edge in edge order |
| KnowledgeGraph.GraphStore.GetChunkDoc | graph/graph_store.py:65-69 | the loop returns `ChunkDocOf(G, chunk)` |
| KnowledgeGraph.PathOf | graph/graph_store.py:74-84 | chunk_id copied; doc_id is the chunk's owner; concepts are exactly its MENTIONS targets; title and url are None when the owner is missing or is the empty id `""`, and are the owner node's `title` and `url` for any other owner |
| KnowledgeGraph.Ids | graph/graph_store.py:76 | the list comprehension over the target nodes: their ids, one per node, in order |
| KnowledgeGraph.PathConceptsOrder | graph/graph_store.py:76 | the concepts of a path are distinct, and for any two of them the chunk's MENTIONS edge to the earlier was added first |
| KnowledgeGraph.GraphStore.ExplainPaths | graph/graph_store.py:71-85 | never fails; one path per requested id, in request order with duplicates kept, each equal to `PathOf` |
| KnowledgeGraph.GraphStore.PathFor | graph/graph_store.py:75-84 | the loop body builds `PathOf(G, cid)` |
| Split.Slices | ingest/split.py:17-18 | the hard-split pieces are non-empty, at most `max_chars` long, every piece but the last exactly `max_chars` long, and they concatenate back to the paragraph |
| Split.HardSplit | ingest/split.py:17-18 | the slicing loop appends exactly `Slices(p, max_chars)` |
| Split.PackParagraph | ingest/split.py:8-19 | one loop iteration equals `PackStep`: append to the buffer when len(buf)+len(p)+2 ≤ max_chars, else flush and restart or hard-split; ValueError for a zero budget |
| Split.SimpleChunk | ingest/split.py:4-22 | the loop, final flush and cleanup return `SimpleChunkOf(text, max_chars)`, including the ValueError |
| Split.PackAllErr | ingest/split.py:7-19 | once an iteration raises, the whole call raises that error |
| Split.CleanedShape | ingest/split.py:22 | cleaned chunks are non-empty, equal their own `strip()`, and are no longer than before |
| Split.ChunksStripped | ingest/split.py:22 | every chunk returned is non-empty and equals its own `strip()` |
| Split.PackBounded | ingest/split.py:8-19 | with a positive budget the loop never raises, and the buffer and every emitted chunk are at most `max_chars` long |
| Split.ChunksBounded | ingest/split.py:4-22 | with a positive budget, every returned chunk is at most `max_chars` long |
| Split.PackErrIff | ingest/split.py:17 | the loop raises ValueError iff the budget is 0 and some paragraph is non-empty |
| Split.ChunkedErrIff | ingest/split.py:4-22 | `simple_chunk` raises ValueError iff the budget is 0 and some paragraph is non-empty |
| Split.StepContent | ingest/split.py:8-19 | one iteration keeps the non-whitespace text of chunks and buffer equal to that of the paragraphs read |
| Split.JoinedContent | ingest/split.py:9 | appending a paragraph to the buffer keeps the text accounting of the loop |
| Split.SliceContent | ingest/split.py:17-18 | the hard-split pieces, flushed with an empty buffer, carry exactly the paragraph's non-whitespace text |
| Split.PackContent | ingest/split.py:7-21 | after the loop, the chunks and buffer hold exactly the non-whitespace text of all paragraphs, in order |
| Split.CleanedContent | ingest/split.py:22 | the cleanup drops only whitespace |
| Split.ChunksPreserveText | ingest/split.py:4-22 | the chunks hold exactly the non-whitespace text of the paragraphs, in order: nothing lost, duplicated or reordered |
| Split.ContentCountsChunks | ingest/split.py:22 | there are no more chunks than non-whitespace characters |
| Split.AllSpaceContent | ingest/split.py:5 | whitespace-only paragraphs carry no text |
| Split.EmptyTextNoChunks | ingest/split.py:5-22 | the single empty paragraph gives no chunks, for every budget |
| Split.BlankTextGivesNoChunks | ingest/split.py:5-22 | empty or whitespace-only text gives `[]` for every budget |
| Split.BlankTextNoChunks | ingest/split.py:7-22 | whitespace-only paragraphs give no chunks under a positive budget |
| Split.JoinContent | ingest/split.py:9 | joining the buffer and a paragraph with a blank line and stripping adds and removes only whitespace |
| Split.Scrub | ingest/split.py:26 | `re.sub(r"[^A-Za-z0-9_\-\s]", " ", ch)`: same length; characters outside the class become a space |
| Split.LongLower | ingest/split.py:27 | keeps only lower-cased tokens longer than 2 characters, never more than there were |
| Split.LongLowerPositions | ingest/split.py:27 | an order-keeping filter-map: token `i` is the lowercase form of the word at rising position `ps[i]`, and the positions are exactly those of the words longer than 2 |
| Split.LongLowerMembers | ingest/split.py:27 | a string is a token exactly when it is the lowercase form of some word longer than 2 |
| Split.LongLowerShape | ingest/split.py:27 | lower-casing keeps scrubbed characters inside [a-z0-9_-] |
| Split.TokensShape | ingest/split.py:26-27 | every token is longer than 2 characters and uses only [a-z0-9_-] |
| Split.FreqLast | ingest/split.py:30-33 | counting one more token adds one to that token's entry, unless it is a stop word |
| Split.Freq | ingest/split.py:29-33 | the counting table's keys are exactly the tokens outside the stop words; each value is that token's number of occurrences |
| Split.FreqFirstOrder | ingest/split.py:29-33 | the counting table's keys come in order of first occurrence: each key is paired with the position where it first occurs among the tokens, and those positions strictly increase |
| Split.CountTokens | ingest/split.py:29-33 | the counting loop builds `Freq(toks, stop words)` |
| Split.CountPositive | ingest/split.py:33 | a token is counted at least once iff it occurs |
| Split.ByCountPreorder | ingest/split.py:34 | the sort key `-count` is a total preorder |
| Split.ExtractConcepts | ingest/split.py:24-34 | returns `Concepts(ch, top_k)`: the sorted table cut by `[:top_k]` |
| Split.RankingEntries | ingest/split.py:29-34 | the ranked words are distinct; they are exactly the non-stop tokens; each carries its count |
| Split.TopSelection | ingest/split.py:34 | the cut keeps min(top_k, n) distinct words of the ranking |
| Split.ConceptsSelection | ingest/split.py:24-34 | at most `top_k` concepts, no duplicates, none a stop word, all tokens of the text |
| Split.ConceptsShape | ingest/split.py:26-27 | every concept is lower case, longer than 2 characters, and made of [a-z0-9_-] |
| Split.ConceptsOrder | ingest/split.py:34 | concepts are ordered by descending count, and the concepts of any one count come in the order of the counting table, which `Split.FreqFirstOrder` shows is first-occurrence order |
| Split.ItemsDistinct | ingest/split.py:34 | `freq.items()` has no duplicate entries |
| Split.RearrangedKeys | ingest/split.py:34 | a rearrangement of `items()` lists each key once and no other word |
| Split.RearrangedEntries | ingest/split.py:34 | every entry of a rearrangement of `items()` is a key with its count |
| Ingest.Basename | ingest/ingest_docs.py:21-22 | `os.path.basename`: a suffix of the path with no `/` in it, preceded by a `/` unless it is the whole path, so it starts right after the last `/` |
| Ingest.MarkdownDoc | ingest/ingest_docs.py:20-24 | the file dir/name.md gives id `name`, title `name.md` and url `file://` + path |
| Ingest.MarkdownBasename | ingest/ingest_docs.py:22 | the basename of dir/name.md is name.md |
| Ingest.MarkdownStem | ingest/ingest_docs.py:21 | `splitext` of name.md gives name |
| Ingest.LoadDocs | ingest/ingest_docs.py:15-26 | one record per file, in the order given, each equal to `DocOf(path, text)` |
| Strings.RFind | ingest/ingest_docs.py:21 | the last position of a character, or -1 exactly when it does not occur |
| Strings.DecimalString | ingest/ingest_docs.py:34 | `str(i)` of a natural number: non-empty, digits only, one digit exactly below 10 |
| Strings.DecimalStringValue | ingest/ingest_docs.py:34 | `str(i)` denotes `i` read back as a decimal numeral (`DigitsValue`, most significant digit first) and has no leading zero unless it is `"0"` |
| Ingest.ChunkIdUnderscore | ingest/ingest_docs.py:34 | the last `_` of a chunk id sits just before the chunk index |
| Ingest.ChunkIdInjective | ingest/ingest_docs.py:34 | equal chunk ids have equal doc ids and equal indices |
| Strings.DecimalStringInjective | ingest/ingest_docs.py:34 | distinct indices render as distinct decimal strings |
| Ingest.RecordsOf | ingest/ingest_docs.py:33-44 | record i of a document carries id `{doc_id}_chunk_{i}`, the doc's id, title and url, the i-th chunk text, and its concepts |
| Ingest.ChunkRecords | ingest/ingest_docs.py:33-44 | the inner loop builds `RecordsOf(d, texts)` |
| Ingest.DocChunkRecords | ingest/ingest_docs.py:33-44 | the inner loop over `simple_chunk(d.text)` builds `DocChunks(d)` |
| Ingest.BuildChunks | ingest/ingest_docs.py:32-44 | the nested loops build `AllChunks(docs)`: doc by doc, then by chunk index |
| Ingest.ChunkRecordOrigin | ingest/ingest_docs.py:32-44 | every chunk record is record i of some listed document, with that document's fields and the i-th chunk text |
| Ingest.ChunkIdSource | ingest/ingest_docs.py:34 | every chunk id is `{doc_id}_chunk_{i}` for one of the listed documents |
| Ingest.DocChunkId | ingest/ingest_docs.py:34 | chunk j of a document has id `{doc_id}_chunk_{j}` |
| Ingest.ChunkIdsDistinct | ingest/ingest_docs.py:32-44 | distinct document ids give distinct chunk ids |
| Ingest.ChunksNameDocs | ingest/ingest_docs.py:39 | every chunk record names one of the listed documents |
| Ingest.Vectors | ingest/ingest_docs.py:47 | vector row i is the embedding of chunk i's text |
| Ingest.Built | ingest/ingest_docs.py:60-67 | the graph after the doc loop and the chunk loop keeps the store invariant |
| Ingest.WithDocs | ingest/ingest_docs.py:61-62 | adding the documents keeps the invariant and the edges |
| Ingest.AddDocs | ingest/ingest_docs.py:61-62 | the loop leaves `WithDocs(old graph, docs)` |
| Ingest.WithLinks | ingest/ingest_docs.py:65-67 | linking the concepts keeps the invariant, every existing node and the HAS_CHUNK edges |
| Ingest.LinkConcept | ingest/ingest_docs.py:66-67 | one inner iteration adds the concept, then the MENTIONS edge |
| Ingest.LinkConcepts | ingest/ingest_docs.py:65-67 | the inner loop leaves `WithLinks(old graph, cid, concepts)` |
| Ingest.MentionStep | ingest/ingest_docs.py:66-67 | one iteration adds exactly the edge (chunk, concept) to the MENTIONS edges |
| Ingest.WithLinksPrefix | ingest/ingest_docs.py:66-67 | linking the first i+1 concepts is linking the first i, then the concept, then the mention |
| Ingest.LinkedMentions | ingest/ingest_docs.py:65-67 | after the inner loop, the chunk's new MENTIONS targets are exactly its concepts |
| Ingest.WithChunkRecord | ingest/ingest_docs.py:64-67 | adding one chunk record keeps the store invariant |
| Ingest.ChunkKeepsEdge | ingest/ingest_docs.py:64 | `add_chunk` changes no edge that leaves a chunk or concept node |
| Ingest.AddChunkRecord | ingest/ingest_docs.py:64-67 | one outer iteration leaves `WithChunkRecord(old graph, c)` |
| Ingest.AddChunkAt | ingest/ingest_docs.py:63-67 | one outer iteration extends the graph built from the first j records to j+1 |
| Ingest.AddChunkRecords | ingest/ingest_docs.py:63-67 | the outer loop leaves `WithChunks(old graph, chunks)` |
| Ingest.WithChunksPrefix | ingest/ingest_docs.py:63-67 | the graph from j+1 records is the graph from j records plus record j |
| Ingest.ChunkRecordMentions | ingest/ingest_docs.py:64-67 | adding one record adds exactly the MENTIONS edges from its chunk to its concepts |
| Ingest.ChunkMentions | ingest/ingest_docs.py:63-67 | after the loop, a chunk's MENTIONS targets are the old ones plus the concepts of its records |
| Ingest.MentionedByUnique | ingest/ingest_docs.py:63-67 | with distinct chunk ids, the concepts recorded for a chunk id are exactly its record's concepts |
| Ingest.MentionedByAbsent | ingest/ingest_docs.py:63-67 | an id no record has gets no concepts |
| Ingest.DocsAdded | ingest/ingest_docs.py:61-62 | after the doc loop, every listed document is a node with a title and a url |
| Ingest.ChunkOwned | ingest/ingest_docs.py:64 | adding a chunk of a listed document keeps every HAS_CHUNK source a listed document |
| Ingest.ChunkKeepsDocs | ingest/ingest_docs.py:64 | adding a chunk keeps every listed document's title and url |
| Ingest.ChunkRecordDescribed | ingest/ingest_docs.py:64-67 | one outer iteration keeps documents described and chunks owned by listed documents |
| Ingest.ChunksDescribed | ingest/ingest_docs.py:63-67 | the whole chunk loop keeps documents described and chunks owned |
| Ingest.DescribedByOwners | ingest/ingest_docs.py:61-67 | if every HAS_CHUNK source is a described document, every HAS_CHUNK source has a title and a url |
| Ingest.BuiltShape | ingest/ingest_docs.py:60-67 | docs before chunks: every HAS_CHUNK source is a doc with title and url; each chunk's MENTIONS targets are exactly its concept list |
| Ingest.RankedShape | ingest/ingest_docs.py:60-68 | both facts still hold after projection and PageRank |
| Ingest.BuildGraph | ingest/ingest_docs.py:60-68 | the graph-building loops, then `compute_doc_pagerank` once after all insertions, give `Ranked(Projected(Built(docs, chunks)))` |
| Ingest.BuildIndex | ingest/ingest_docs.py:28-69 | returns the chunk records `AllChunks(docs)`, the vector rows aligned with them, and the built graph |
| Ingest.Ingest | ingest/ingest_docs.py:71-75 | an empty document list aborts before any build; otherwise the documents, chunks, vectors and graph of `build_index(load_docs())` |
| Lists.PyIndex | backend/retriever.py:21 | Python list indexing: valid for -n ≤ i < n; a negative index counts from the end, so -1 names the last element |
| Retriever.AnnSearch | backend/retriever.py:18-23 | IndexError iff some position is out of Python's range; otherwise one (chunk id, similarity) per hit, in order, with -1 padding resolved to the last chunk |
| Retriever.LastPos | backend/retriever.py:16 | the record `CHUNK_BY_ID` keeps for an id: the last with that id, or None when there is none |
| Retriever.FirstPos | backend/retriever.py:38 | the position `next(...)` finds: the first record with that id |
| Retriever.FindFirst | backend/retriever.py:38 | the search loop returns the first position whose chunk id equals cid |
| Retriever.FirstPosAt | backend/retriever.py:38 | a record whose id appears at no earlier position is the one `next(...)` finds |
| Retriever.FirstIsLast | backend/retriever.py:16-38 | with distinct chunk ids, the first and the last record of an id coincide |
| Retriever.HitIdsCard | backend/retriever.py:27 | the base set has at most as many ids as there are hits |
| Retriever.ExpandStep | backend/retriever.py:29-31 | one expansion step adds exactly the elements of one neighbour list of at most 6 distinct ids, so the set grows by at most 6 |
| Retriever.CandidatesMeaning | backend/retriever.py:27-31 | a candidate is a base id or a concept-neighbour of some base id; every base id is a candidate; every neighbour of a base id with at most 6 neighbours is a candidate |
| Retriever.Candidates | backend/retriever.py:27-31 | for each base id there is a list of its concept-neighbours (all of them when at most 6, else 6 of them), and the candidate set is exactly the base ids united with those lists; at most 7 per hit |
| Retriever.Flatten | backend/retriever.py:29-31 | an id is in the union of the neighbour lists exactly when some list holds it |
| Retriever.OverlapBounded | backend/retriever.py:41-42 | 0 ≤ overlap ≤ the number of distinct query terms, and ≤ the number of concepts |
| Retriever.ScoreByOverlap | backend/retriever.py:46 | at equal similarity and pagerank, the score is strictly larger iff the overlap is strictly larger |
| Retriever.ScoreOf | backend/retriever.py:36-47 | a candidate scores iff `CHUNK_BY_ID` and `get_doc_info` both succeed; the tuple carries the candidate's id |
| Retriever.ScoreCandidate | backend/retriever.py:36-47 | the loop body computes `ScoreOf` for the candidate |
| Strings.StrLeTotal | backend/retriever.py:48 | Python string comparison, the tie-break on chunk id, is total |
| Strings.StrLeTrans | backend/retriever.py:48 | string comparison is transitive |
| Strings.StrLeAntisymmetric | backend/retriever.py:48 | strings that compare both ways are equal |
| Retriever.TupleGeOrder | backend/retriever.py:48 | reverse ordering of (score, cid) tuples is a total order |
| Retriever.Lookup | backend/retriever.py:50 | `CHUNK_BY_ID[cid]` succeeds iff some record has that id, and then gives a record with that id |
| Retriever.LookupAll | backend/retriever.py:50 | the final comprehension looks up each kept id in order, stopping at the first KeyError |
| Retriever.ScoredTuples | backend/retriever.py:45-47 | the scored list holds each candidate's tuple exactly once |
| Retriever.SortedScores | backend/retriever.py:48 | after the reverse sort, the tuples are all the candidates' scores, once each, highest first |
| Retriever.RerankOk | backend/retriever.py:35-50 | the rerank succeeds iff every candidate scores; then the length is `[:top_n]` of the candidate count |
| Retriever.KeptScores | backend/retriever.py:48-50 | kept record i carries the i-th best score |
| Retriever.RerankResult | backend/retriever.py:35-50 | length min(top_n, candidates); distinct ids; each result is the `CHUNK_BY_ID` record of a candidate; ordered by (score, cid) descending; every left-out candidate ranks below every kept one |
| Retriever.KeptBest | backend/retriever.py:48-50 | the kept records are distinct, in descending tuple order, and beat every candidate left out |
| Retriever.RerankOrderIndependent | backend/retriever.py:45-50 | the result does not depend on the order in which the candidate set is iterated |
| Retriever.ExpandAndRerank | backend/retriever.py:25-50 | an index error propagates; otherwise the neighbour lists are those of `Retriever.Candidates`, the listing holds each candidate of `CandidateSet` exactly once, and the result is `Rerank` of that listing |
| Retriever.ScoreAll | backend/retriever.py:35-47 | the scoring loop gives the score of every listed candidate in listing order, or the first exception raised |
| Retriever.Max | backend/retriever.py:63 | `max(a, b)` is one of its arguments and at least both |
| Retriever.RawScoresOk | backend/retriever.py:60-63 | the aggregation loop raises only IndexError, and only for a position out of Python's range |
| Retriever.RawScoresSnoc | backend/retriever.py:60-63 | one loop iteration: an unusable position raises; the query doc is skipped; otherwise the doc's value becomes the max of its old value (0.0 if absent) and the similarity |
| Retriever.RawScoresErr | backend/retriever.py:60-63 | once an iteration raises, the whole loop raises that error |
| Retriever.RawKeysStep | backend/retriever.py:61-63 | one iteration keeps the keys exactly the other documents of the visited hits |
| Retriever.RawAboveStep | backend/retriever.py:61-63 | one iteration keeps every value ≥ 0.0 and ≥ the similarity of each visited hit of its document |
| Retriever.RawAttainedStep | backend/retriever.py:61-63 | one iteration keeps every value 0.0 or the similarity of one of its document's hits |
| Retriever.RawScoresMeans | backend/retriever.py:60-63 | the query doc never appears; each other doc reached is a key, with value max(0.0, its hits' similarities) |
| Retriever.DocScores | backend/retriever.py:59-63 | the loop builds `RawScores` |
| Retriever.AnyChunkOf | backend/retriever.py:54-55 | the emptiness test finds whether the document has a chunk |
| Retriever.BlendOf | backend/retriever.py:65-67 | a doc blends iff it has a raw score and `get_doc_info` succeeds; score = 0.8·raw + 0.2·pagerank, with the doc info attached |
| Retriever.BlendScores | backend/retriever.py:65-67 | the blending pass gives the blended record of each doc, in dict order, or the first KeyError |
| Retriever.ByScoreOrder | backend/retriever.py:67 | the sort key `-score` is a total preorder |
| Retriever.RecommendOk | backend/retriever.py:52-67 | `[]` when the doc has no chunks; otherwise success iff every position is usable and every doc reached is in the graph |
| Retriever.BlendedRecs | backend/retriever.py:65-67 | the blended list holds each reached doc's record exactly once |
| Retriever.RankedBlend | backend/retriever.py:67 | after the sort: one record per reached doc, distinct docs, descending score |
| Retriever.DistinctDocs | backend/retriever.py:67 | distinct blended records name distinct docs |
| Retriever.RankedCut | backend/retriever.py:67 | the `[:k]` cut keeps distinct docs in descending score, and every doc left out scores no higher than any kept one |
| Retriever.RecommendStable | backend/retriever.py:65-67 | the blended list follows dict key order, and the sort keeps that order among equal scores |
| Retriever.RecommendResult | backend/retriever.py:52-67 | length `[:k]` of the docs reached; distinct docs; never the query doc; each record is the doc's blend; descending score; every doc left out scores no higher |
| Retriever.RecommendSimilar | backend/retriever.py:52-67 | the procedure returns `Recommend(...)` |
| Wrappers.MapAll | backend/retriever.py:50 | a comprehension whose element can raise: success iff every element succeeds, with one result per input in order; otherwise the first element's exception |
| Sorting.SortDesc | ingest/split.py:34 | the sort returns a permutation of its input |
| Sorting.SortOrdered | ingest/split.py:34 | under a total preorder, the result is in descending order |
| Sorting.SortStable | ingest/split.py:34 | the sort is stable: each class of equal keys keeps its input order |
| Lists.Enumerate | backend/retriever.py:35 | a finite set can be listed without duplicates, each element once, which is what iterating over the set does |
| Sorting.SortIndependentOfInputOrder | backend/retriever.py:48 | under a total order, the sorted list depends only on the elements, not their input order |
| Lists.SliceEnd | ingest/split.py:34 | Python's `[:n]` end bound, for negative n as well |
| Dicts.Dict.Put | ingest/split.py:33 | `d[k] = v`: an existing key keeps its position, a new key goes last |
| Dicts.Dict.Items | ingest/split.py:34 | `d.items()` lists each key once, with its value, in key-insertion order |
| Strings.Strip | ingest/split.py:22 | `str.strip()` is no longer than its input and starts and ends with non-whitespace |
| Strings.StripPiece | ingest/split.py:22 | the stripped text is a middle piece, with only whitespace removed on either side |
| Strings.StripIdempotent | ingest/split.py:22 | stripping twice equals stripping once |
| Strings.StripEmptyIff | ingest/split.py:22 | the stripped text is empty iff the text is whitespace only |
| Strings.Words | ingest/split.py:27 | `str.split()`: non-empty words without whitespace |
| Strings.WordsOfWord | ingest/split.py:27 | a non-empty string without whitespace splits into itself alone |
| Strings.WordsAtSpace | ingest/split.py:27 | a whitespace character ends a word: the words of `a + [c] + b` are the words of `a` followed by those of `b` |
| Strings.WordsBeforeGap | ingest/split.py:27 | text that begins with whitespace starts a word list of its own when appended |
| Strings.WordsContent | ingest/split.py:27 | `str.split()` loses only whitespace: its words, concatenated, are the non-whitespace characters of the input in order |
| Strings.Lower | backend/retriever.py:41 | `str.lower()`: same length, no capital letter left, each capital replaced by its small letter, every other character unchanged |
| Rag.Part | backend/rag.py:9 | the citation part: its length is the passage's title, url and text lengths plus the 19 fixed characters |
| Rag.Parts | backend/rag.py:7-9 | one citation part per passage, in order |
| Rag.ComposeAnswerExtractive | backend/rag.py:4-10 | the loop and join give `Answer(passages)`; the question is not read |
| Rag.JoinAppend | backend/rag.py:10 | `sep.join` of two non-empty lists is the two joins with one separator between them |
| Rag.AnswerSmall | backend/rag.py:10 | no passages give the empty answer; one passage gives its part alone |
| Rag.AnswerSplits | backend/rag.py:7-10 | the answer is the parts in passage order, separated by a blank line |
| Rag.PartShape | backend/rag.py:9 | each part starts with `**Source:** [` and ends with the passage text |
| Rag.Ask | backend/rag.py:12-22 | the passages are what `Retriever.ExpandAndRerank` gives with top_n 5 (its exception propagates), tied to the same candidate set and listing; the answer is composed from them, with one citation and one provenance path per passage, in order; at most 5 citations |
| Api.Health | backend/api.py:23-25 | the health probe always reports ok |
| Api.RecEp | backend/api.py:31-33 | returns `recommend_similar(doc_id)` with k = 5 unchanged, at most 5 items |
| Api.AskEp | backend/api.py:27-29 | the reply is exactly that of `Rag.Ask` (same passages, candidate set and listing); a successful reply carries as many provenance paths as citations, and at most 5 of each |
| Api.DocsList | backend/api.py:35-41 | the loop and the comprehension build the listing that `DocsListResult` and `DocsListOrder` characterise |
| Api.ListingValid | backend/api.py:37-39 | the dict built by the loop is well formed: distinct keys, each with a value |
| Api.Items | backend/api.py:40 | one item per dict key in insertion order, carrying that key's title and url |
| Api.ListingMeans | backend/api.py:37-39 | the dict keys are the doc ids present, each once, in first-appearance order; each value comes from the doc's last record |
| Api.KeysStep | backend/api.py:38-39 | one iteration keeps the keys exactly the doc ids seen |
| Api.FirstExtends | backend/api.py:38-39 | a first appearance stays the first when records are appended |
| Api.FirstStep | backend/api.py:38-39 | one iteration keeps the keys in first-appearance order |
| Api.LastStep | backend/api.py:38-39 | one iteration keeps each value from its document's last record |
| Api.DocsListResult | backend/api.py:35-41 | one item per distinct doc id among the records; title and url from the last such record; no records give no items |
| Api.DocsListOrder | backend/api.py:38-40 | items come in order of each doc id's first appearance; later overwrites do not move them |

## Left out

- The regular expressions. `re.split(r"\n\s*\n", ...)` in `simple_chunk` is a function parameter; the model does not check it against the regex. The `re.sub` character filter in `extract_concepts` is modelled directly.
- Floating point. Similarities, PageRank scores and the blend weights are reals; float rounding and NaN are not modelled.
- The sentence encoder, the FAISS index build and search, and `np.dot`/`mean` are parameters. `ann_search` and `recommend_similar` take the search result as a list of hits, and similarities as functions of the stored row. The unused `sims` list of `ann_search` is folded into the hits.
- `nx.pagerank` on the undirected view is the parameter `rank`. No property of the numbers is claimed.
- pickle, `np.save`, the FAISS index files and the module-level loading of `CHUNKS`, `VECS`, `INDEX` and `GRAPH` are left out as I/O. The loaded values are inputs to each operation.
- `glob` ordering is left out: `load_docs` takes the list of (path, text) pairs in the order the filesystem gives.
- The Streamlit UI is not part of this model.
- FastAPI, CORS, and the pydantic request models are left out. `rec_ep` and `docs_list` return their lists without the `{"items": ...}` wrapper.
- `build_index`'s `concepts` set is never read and is left out.
- Python set iteration order is not modelled. The set of candidates, and the neighbour set in `neighbor_chunks_by_concepts`, are listed in an arbitrary order. `RerankOrderIndependent` shows that the rerank result does not depend on that order; the neighbour cut `[:max_neighbors]` does depend on it.
- Strings.Lower: models lower-casing of ASCII letters only, because the corpus and queries are taken as ASCII; Python's `str.lower` also maps other Unicode letters.
- Retriever.RecommendSimilar: the code blends in one loop and builds records in a second comprehension that calls `get_doc_info` again. The model fuses the two into one pass over the keys, which gives the same result because the graph does not change between them.
