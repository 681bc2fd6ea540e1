/** Answer assembly: the extractive answer built from the reranked passages, with one
    citation and one explanation path per passage. */
module Rag {
  import opened Wrappers
  import opened Lists
  import opened Strings
  import opened DirectedGraph
  import opened KnowledgeGraph
  import opened Ingest
  import opened Retriever

  /** `f"**Source:** [{doc_title}]({url})\n> {text}"` for one passage. */
  function Part(p: ChunkRecord): (s: string)
    ensures |s| == |p.docTitle| + |p.url| + |p.text| + 19
  {
    "**Source:** [" + p.docTitle + "](" + p.url + ")\n> " + p.text
  }

  function Parts(passages: seq<ChunkRecord>): (r: seq<string>)
    ensures |r| == |passages| && forall i :: 0 <= i < |passages| ==> r[i] == Part(passages[i])
  {
    seq(|passages|, i requires 0 <= i < |passages| => Part(passages[i]))
  }

  /** The blank-line separator between parts. */
  const Sep := "\n\n"

  /** The extractive answer for `passages`. */
  function Answer(passages: seq<ChunkRecord>): string {
    Join(Sep, Parts(passages))
  }

  /** `compose_answer_extractive(question, passages)`: the loop collecting one part per
      passage, then the join. The question is not read. */
  method ComposeAnswerExtractive(question: string, passages: seq<ChunkRecord>) returns (answer: string)
    ensures answer == Answer(passages)
  {
    var parts: seq<string> := [];
    for i := 0 to |passages|
      invariant parts == Parts(passages[..i])
    {
      assert Parts(passages[..i + 1]) == Parts(passages[..i]) + [Part(passages[i])];
      parts := parts + [Part(passages[i])];
    }
    assert passages[..|passages|] == passages;
    answer := Join(Sep, parts);
  }

  /** `sep.join(a + b)` is the join of `a`, the separator and the join of `b`. */
  lemma {:induction false} JoinAppend(sep: string, a: seq<string>, b: seq<string>)
    requires a != [] && b != []
    ensures Join(sep, a + b) == Join(sep, a) + sep + Join(sep, b)
    decreases |b|
  {
    var ab := a + b;
    assert ab[..|ab| - 1] == a + b[..|b| - 1];
    if |b| == 1 {
      assert ab[..|ab| - 1] == a;
    } else {
      JoinAppend(sep, a, b[..|b| - 1]);
    }
  }

  /** No passages give the empty answer; one passage gives its part alone. */
  lemma AnswerSmall(passages: seq<ChunkRecord>)
    ensures passages == [] ==> Answer(passages) == ""
    ensures |passages| == 1 ==> Answer(passages) == Part(passages[0])
  {
  }

  /** The answer lists the passages in order: the parts of a first group of passages, a blank
      line, then the parts of the rest. */
  lemma AnswerSplits(ps: seq<ChunkRecord>, qs: seq<ChunkRecord>)
    requires ps != [] && qs != []
    ensures Answer(ps + qs) == Answer(ps) + Sep + Answer(qs)
  {
    assert Parts(ps + qs) == Parts(ps) + Parts(qs);
    JoinAppend(Sep, Parts(ps), Parts(qs));
  }

  /** Every part starts with its source marker and holds the passage's text at its end. */
  lemma PartShape(p: ChunkRecord)
    ensures Part(p)[..13] == "**Source:** ["
    ensures Part(p)[|Part(p)| - |p.text|..] == p.text
  {
  }

  /** A citation `{"doc_title", "url"}`. */
  datatype Citation = Citation(docTitle: string, url: string)

  /** The reply of `ask`: `{"answer", "citations", "paths"}`. */
  datatype Reply = Reply(answer: string, citations: seq<Citation>, paths: seq<Path>)

  /** The passage count `ask` requests. */
  const TopN := 5

  /** `r` is the reply `ask(question)` builds once `expand_and_rerank(question, base_k=8,
      top_n=5)` has given `found`: the exception it raised, or the extractive answer over the
      passages with one citation and one provenance path per passage, in passage order. */
  ghost predicate Answered(question: string, chunks: seq<ChunkRecord>, hits: seq<Hit>, sim: nat -> real, g: Graph,
                           r: Result<Reply>, found: Result<seq<ChunkRecord>>, ns: seq<seq<string>>, l: seq<string>)
    requires Inv(g)
  {
    && Reranked(question, chunks, hits, sim, g, TopN, found, ns, l)
    && (found.Err? ==> r == Err(found.error))
    && (found.Ok? ==>
      var passages := found.value;
      && r.Ok?
      && r.value.answer == Answer(passages)
      && |r.value.citations| == |passages| && |r.value.paths| == |passages|
      && (forall i :: 0 <= i < |passages| ==> r.value.citations[i] == Citation(passages[i].docTitle, passages[i].url))
      && (forall i :: 0 <= i < |passages| ==> r.value.paths[i] == PathOf(g, passages[i].id)))
  }

  /** `ask(question)`, with `hits` the index search for the question and `sim` its similarity
      to each row. */
  method Ask(question: string, chunks: seq<ChunkRecord>, hits: seq<Hit>, sim: nat -> real, gs: GraphStore)
    returns (r: Result<Reply>, ghost found: Result<seq<ChunkRecord>>, ghost ns: seq<seq<string>>, ghost l: seq<string>)
    requires gs.Valid()
    ensures Answered(question, chunks, hits, sim, gs.G, r, found, ns, l)
    ensures r.Ok? ==> |r.value.citations| <= TopN
  {
    var passages;
    passages, ns, l := ExpandAndRerank(question, chunks, hits, sim, gs, TopN);
    found := passages;
    if passages.Err? {
      return Err(passages.error), found, ns, l;
    }
    RerankResult(chunks, gs.G, sim, QueryTerms(question), l, TopN);
    var answer := ComposeAnswerExtractive(question, passages.value);
    var ids := ChunkIdList(passages.value);
    var paths := gs.ExplainPaths(ids);
    var citations := seq(|passages.value|, i requires 0 <= i < |passages.value| => Citation(passages.value[i].docTitle, passages.value[i].url));
    r := Ok(Reply(answer, citations, paths));
  }
}
