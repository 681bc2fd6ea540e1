/** Text segmentation and concept extraction for ingestion: greedy packing of paragraphs
    into chunks under a character budget, and frequency-ranked concept tokens. */
module Split {
  import opened Wrappers
  import opened Lists
  import opened Dicts
  import opened Strings
  import opened Sorting

  // ---------------------------------------------------------------- simple_chunk

  /** `[p[i:i+m] for i in range(0, len(p), m)]`: consecutive pieces of at most `m` characters. */
  function Slices(p: string, m: nat): (r: seq<string>)
    requires m > 0
    ensures forall k :: 0 <= k < |r| ==> 0 < |r[k]| <= m
    ensures forall k :: 0 <= k < |r| - 1 ==> |r[k]| == m
    ensures Concat(r) == p
    decreases |p|
  {
    if p == [] then []
    else if |p| <= m then
      assert Concat([p]) == Concat([]) + p;
      [p]
    else
      var rest := Slices(p[m..], m);
      ConcatCons(p[..m], rest);
      assert p[..m] + p[m..] == p;
      [p[..m]] + rest
  }

  lemma ConcatSnoc(ss: seq<string>, s: string)
    ensures Concat(ss + [s]) == Concat(ss) + s
  {
    assert (ss + [s])[..|ss|] == ss;
  }

  lemma {:induction false} ConcatAppend(a: seq<string>, b: seq<string>)
    ensures Concat(a + b) == Concat(a) + Concat(b)
  {
    if b == [] {
      assert a + b == a;
    } else {
      var init, last := b[..|b| - 1], b[|b| - 1];
      assert a + b == (a + init) + [last];
      ConcatSnoc(a + init, last);
      ConcatAppend(a, init);
      ConcatSnoc(init, last);
      assert b == init + [last];
    }
  }

  /** The first slice of a non-empty paragraph and the slices of the rest. */
  lemma SlicesUnfold(q: string, m: nat)
    requires m > 0 && q != []
    ensures var e := if m < |q| then m else |q|; Slices(q, m) == [q[..e]] + Slices(q[e..], m)
  {
    if |q| <= m {
      assert q[..|q|] == q && q[|q|..] == [];
    }
  }

  /** The loop state: the chunks emitted so far and the pending buffer. */
  datatype Pack = Pack(chunks: seq<string>, buf: string)

  /** The pending buffer, as the chunk list it would add. */
  function Flushed(st: Pack): seq<string> {
    if st.buf != "" then st.chunks + [st.buf] else st.chunks
  }

  /** One iteration of the paragraph loop with budget `m`: append the paragraph to the buffer
      when the buffer, two separator characters and the paragraph fit; otherwise flush a non-empty
      buffer and start a new one with the paragraph, or, when the paragraph alone is too long,
      emit it in slices of `m` and leave the buffer empty. A budget of 0 then makes `range` raise
      ValueError; a negative budget makes the slice loop empty. */
  function PackStep(st: Pack, p: string, m: int): Result<Pack> {
    if |st.buf| + |p| + 2 <= m then Ok(Pack(st.chunks, Strip(st.buf + "\n\n" + p)))
    else if |p| <= m then Ok(Pack(Flushed(st), p))
    else if m == 0 then Err(ValueError)
    else if m < 0 then Ok(Pack(Flushed(st), ""))
    else Ok(Pack(Flushed(st) + Slices(p, m), ""))
  }

  /** The paragraph loop over `paras`, stopping at the first error. */
  function PackAll(paras: seq<string>, m: int): Result<Pack> {
    if paras == [] then Ok(Pack([], ""))
    else
      match PackAll(paras[..|paras| - 1], m)
      case Err(e) => Err(e)
      case Ok(st) => PackStep(st, paras[|paras| - 1], m)
  }

  /** `[c.strip() for c in chunks if c.strip()]`. */
  function Cleaned(cs: seq<string>): seq<string> {
    if cs == [] then []
    else
      var c := Strip(cs[|cs| - 1]);
      Cleaned(cs[..|cs| - 1]) + (if c != "" then [c] else [])
  }

  /** The cleaned chunks are non-empty and already stripped, and no longer than before. */
  lemma {:induction false} CleanedShape(cs: seq<string>, m: int)
    requires forall c :: c in cs ==> |c| <= m
    ensures forall c :: c in Cleaned(cs) ==> c != "" && Strip(c) == c && |c| <= m
  {
    if cs != [] {
      var init, c := cs[..|cs| - 1], cs[|cs| - 1];
      assert forall x :: x in init ==> x in cs;
      CleanedShape(init, m);
      StripIdempotent(c);
    }
  }

  /** `simple_chunk(text, m)` on the paragraphs `re.split(r"\n\s*\n", text.strip())` returns. */
  function Chunked(paras: seq<string>, m: int): Result<seq<string>> {
    match PackAll(paras, m)
    case Err(e) => Err(e)
    case Ok(st) => Ok(Cleaned(Flushed(st)))
  }

  /** `simple_chunk(text, m)`; `split` stands for `re.split(r"\n\s*\n", ·)`, whose result on
      the stripped text is the list of paragraphs. */
  function SimpleChunkOf(text: string, m: int, split: string -> seq<string>): Result<seq<string>> {
    Chunked(split(Strip(text)), m)
  }

  /** `simple_chunk`: the loop over the paragraphs. */
  method SimpleChunk(text: string, maxChars: int, split: string -> seq<string>) returns (r: Result<seq<string>>)
    ensures r == SimpleChunkOf(text, maxChars, split)
  {
    var paras := split(Strip(text));
    var chunks: seq<string> := [];
    var buf: string := "";
    var i := 0;
    while i < |paras|
      invariant 0 <= i <= |paras|
      invariant PackAll(paras[..i], maxChars) == Ok(Pack(chunks, buf))
    {
      assert paras[..i + 1][..i] == paras[..i];
      var next := PackParagraph(chunks, buf, paras[i], maxChars);
      if next.Err? {
        PackAllErr(paras, i + 1, maxChars);
        return Err(next.error);
      }
      chunks, buf := next.value.chunks, next.value.buf;
      i := i + 1;
    }
    assert paras[..i] == paras;
    if buf != "" {
      chunks := chunks + [buf];
    }
    r := Ok(Cleaned(chunks));
  }

  /** The body of the paragraph loop. */
  method PackParagraph(chunks: seq<string>, buf: string, p: string, maxChars: int) returns (r: Result<Pack>)
    ensures r == PackStep(Pack(chunks, buf), p, maxChars)
  {
    if |buf| + |p| + 2 <= maxChars {
      return Ok(Pack(chunks, Strip(buf + "\n\n" + p)));
    }
    var out := chunks;
    if buf != "" {
      out := out + [buf];
    }
    if |p| <= maxChars {
      return Ok(Pack(out, p));
    }
    if maxChars == 0 {
      return Err(ValueError);
    }
    if maxChars > 0 {
      out := HardSplit(out, p, maxChars);
    }
    return Ok(Pack(out, ""));
  }

  /** The slicing loop for a paragraph longer than the budget. */
  method HardSplit(chunks: seq<string>, p: string, maxChars: int) returns (out: seq<string>)
    requires maxChars > 0
    ensures out == chunks + Slices(p, maxChars)
  {
    out := chunks;
    var k := 0;
    while k < |p|
      invariant 0 <= k <= |p|
      invariant out + Slices(p[k..], maxChars) == chunks + Slices(p, maxChars)
      decreases |p| - k
    {
      var e := if k + maxChars < |p| then k + maxChars else |p|;
      assert p[k..][..e - k] == p[k..e] && p[k..][e - k..] == p[e..];
      SlicesUnfold(p[k..], maxChars);
      assert out + [p[k..e]] + Slices(p[e..], maxChars) == out + Slices(p[k..], maxChars);
      out := out + [p[k..e]];
      k := e;
    }
    assert p[k..] == [];
  }

  /** Once the loop has raised, the whole call raises the same error. */
  lemma {:induction false} PackAllErr(paras: seq<string>, i: nat, m: int)
    requires i <= |paras| && PackAll(paras[..i], m).Err?
    ensures PackAll(paras, m) == PackAll(paras[..i], m)
    decreases |paras| - i
  {
    if i < |paras| {
      assert paras[..i + 1][..i] == paras[..i];
      PackAllErr(paras, i + 1, m);
    } else {
      assert paras[..i] == paras;
    }
  }

  /** Every chunk is non-empty and already stripped. */
  lemma ChunksStripped(paras: seq<string>, m: int)
    requires Chunked(paras, m).Ok?
    ensures forall c :: c in Chunked(paras, m).value ==> c != "" && Strip(c) == c
  {
    var cs := Flushed(PackAll(paras, m).value);
    var longest := MaxLength(cs);
    CleanedShape(cs, longest);
  }

  /** A bound on the lengths of a list of strings. */
  function MaxLength(cs: seq<string>): (n: nat)
    ensures forall c :: c in cs ==> |c| <= n
  {
    if cs == [] then 0
    else
      var n := MaxLength(cs[..|cs| - 1]);
      assert forall c :: c in cs ==> c in cs[..|cs| - 1] || c == cs[|cs| - 1];
      if |cs[|cs| - 1]| > n then |cs[|cs| - 1]| else n
  }

  /** With a positive budget the loop state never holds a chunk or buffer longer than the budget. */
  lemma {:induction false} PackBounded(paras: seq<string>, m: int)
    requires m > 0
    ensures PackAll(paras, m).Ok?
    ensures |PackAll(paras, m).value.buf| <= m
    ensures forall c :: c in PackAll(paras, m).value.chunks ==> |c| <= m
  {
    if paras != [] {
      PackBounded(paras[..|paras| - 1], m);
    }
  }

  /** With a positive budget the call never raises and no chunk exceeds the budget. */
  lemma ChunksBounded(paras: seq<string>, m: int)
    requires m > 0
    ensures Chunked(paras, m).Ok?
    ensures forall c :: c in Chunked(paras, m).value ==> |c| <= m
  {
    PackBounded(paras, m);
    CleanedShape(Flushed(PackAll(paras, m).value), m);
  }

  /** The call raises exactly when the budget is 0 and some paragraph is non-empty:
      only the slice loop can raise, and with budget 0 every non-empty paragraph reaches it. */
  lemma {:induction false} ChunkedErrIff(paras: seq<string>, m: int)
    ensures Chunked(paras, m).Err? <==> m == 0 && exists k :: 0 <= k < |paras| && paras[k] != ""
    ensures Chunked(paras, m).Err? ==> Chunked(paras, m).error == ValueError
  {
    PackErrIff(paras, m);
  }

  lemma {:induction false} PackErrIff(paras: seq<string>, m: int)
    ensures PackAll(paras, m).Err? <==> m == 0 && exists k :: 0 <= k < |paras| && paras[k] != ""
    ensures PackAll(paras, m).Err? ==> PackAll(paras, m).error == ValueError
  {
    if paras != [] {
      var init := paras[..|paras| - 1];
      PackErrIff(init, m);
      assert forall k :: 0 <= k < |init| ==> init[k] == paras[k];
      if m == 0 && paras[|paras| - 1] == "" && exists k :: 0 <= k < |paras| && paras[k] != "" {
        var k :| 0 <= k < |paras| && paras[k] != "";
        assert init[k] != "";
      }
    }
  }

  // ---------------------------------------------------------------- content preservation

  /** The non-whitespace characters of a list of strings, in order. */
  function Content(cs: seq<string>): string {
    NonSpace(Concat(cs))
  }

  lemma ContentSnoc(cs: seq<string>, s: string)
    ensures Content(cs + [s]) == Content(cs) + NonSpace(s)
  {
    ConcatSnoc(cs, s);
    NonSpaceAppend(Concat(cs), s);
  }

  lemma ContentAppend(a: seq<string>, b: seq<string>)
    ensures Content(a + b) == Content(a) + Content(b)
  {
    ConcatAppend(a, b);
    NonSpaceAppend(Concat(a), Concat(b));
  }

  lemma ContentFlushed(st: Pack)
    ensures Content(Flushed(st)) == Content(st.chunks) + NonSpace(st.buf)
  {
    ContentSnoc(st.chunks, st.buf);
    if st.buf == "" {
      assert NonSpace(st.buf) == [];
    }
  }

  /** Joining the buffer and a paragraph with a blank line and stripping adds and drops only whitespace. */
  lemma JoinContent(buf: string, p: string)
    ensures NonSpace(Strip(buf + "\n\n" + p)) == NonSpace(buf) + NonSpace(p)
  {
    NonSpaceStrip(buf + "\n\n" + p);
    NonSpaceAppend(buf + "\n\n", p);
    NonSpaceAppend(buf, "\n\n");
    assert "\n\n"[1..] == "\n";
    assert "\n"[1..] == "";
    assert NonSpace("\n\n") == [];
  }

  /** One loop step keeps the non-whitespace text of the chunks and the buffer in step with the paragraphs. */
  lemma StepContent(st: Pack, p: string, m: int)
    requires m > 0
    ensures PackStep(st, p, m).Ok?
    ensures Content(Flushed(PackStep(st, p, m).value)) == Content(Flushed(st)) + NonSpace(p)
  {
    if |st.buf| + |p| + 2 <= m {
      JoinContent(st.buf, p);
      JoinedContent(st, p, Strip(st.buf + "\n\n" + p));
    } else if |p| <= m {
      ContentFlushed(st);
      ContentFlushed(Pack(Flushed(st), p));
    } else {
      SliceContent(Flushed(st), p, m);
    }
  }

  lemma JoinedContent(st: Pack, p: string, joined: string)
    requires NonSpace(joined) == NonSpace(st.buf) + NonSpace(p)
    ensures Content(Flushed(Pack(st.chunks, joined))) == Content(Flushed(st)) + NonSpace(p)
  {
    ContentFlushed(st);
    ContentFlushed(Pack(st.chunks, joined));
    AppendAssoc(Content(st.chunks), NonSpace(st.buf), NonSpace(p));
  }

  lemma AppendAssoc(a: string, b: string, c: string)
    ensures a + (b + c) == (a + b) + c
  {
  }

  lemma SliceContent(fl: seq<string>, p: string, m: int)
    requires m > 0
    ensures Content(Flushed(Pack(fl + Slices(p, m), ""))) == Content(fl) + NonSpace(p)
  {
    ContentAppend(fl, Slices(p, m));
  }

  /** The chunks emitted so far plus the buffer hold the non-whitespace text of the paragraphs read. */
  lemma {:induction false} PackContent(paras: seq<string>, m: int)
    requires m > 0
    ensures PackAll(paras, m).Ok?
    ensures Content(Flushed(PackAll(paras, m).value)) == Content(paras)
  {
    if paras == [] {
      assert Flushed(Pack([], "")) == [];
    } else {
      var init, p := paras[..|paras| - 1], paras[|paras| - 1];
      PackContent(init, m);
      var st := PackAll(init, m).value;
      StepContent(st, p, m);
      assert paras == init + [p];
      ContentSnoc(init, p);
    }
  }

  /** Stripping and dropping blank chunks loses no non-whitespace character. */
  lemma {:induction false} CleanedContent(cs: seq<string>)
    ensures Content(Cleaned(cs)) == Content(cs)
  {
    if cs != [] {
      var init, c := cs[..|cs| - 1], cs[|cs| - 1];
      CleanedContent(init);
      assert cs == init + [c];
      ContentSnoc(init, c);
      NonSpaceStrip(c);
      if Strip(c) != "" {
        assert Cleaned(cs) == Cleaned(init) + [Strip(c)];
        ContentSnoc(Cleaned(init), Strip(c));
      } else {
        assert Cleaned(cs) == Cleaned(init);
        assert NonSpace(Strip(c)) == [];
        assert Content(cs) == Content(init) + [];
      }
    }
  }

  /** With a positive budget, the chunks hold exactly the non-whitespace characters of the
      paragraphs, in order: packing and slicing only drop or add whitespace. */
  lemma ChunksPreserveText(paras: seq<string>, m: int)
    requires m > 0
    ensures Chunked(paras, m).Ok?
    ensures Content(Chunked(paras, m).value) == Content(paras)
  {
    PackContent(paras, m);
    CleanedContent(Flushed(PackAll(paras, m).value));
  }

  /** Each stripped non-empty chunk contributes at least one non-whitespace character. */
  lemma {:induction false} ContentCountsChunks(cs: seq<string>)
    requires forall c :: c in cs ==> c != "" && Strip(c) == c
    ensures |Content(cs)| >= |cs|
  {
    if cs != [] {
      var init, c := cs[..|cs| - 1], cs[|cs| - 1];
      assert forall x :: x in init ==> x in cs;
      assert c in cs;
      ContentCountsChunks(init);
      ContentSnoc(init, c);
      assert !IsSpace(c[0]);
      assert |NonSpace(c)| >= 1;
    }
  }

  lemma {:induction false} AllSpaceContent(paras: seq<string>)
    requires forall k :: 0 <= k < |paras| ==> AllSpace(paras[k])
    ensures Content(paras) == []
  {
    if paras != [] {
      var init, p := paras[..|paras| - 1], paras[|paras| - 1];
      AllSpaceContent(init);
      ContentSnoc(init, p);
      NonSpaceOfSpace(p);
    }
  }

  /** Empty text is the single paragraph `""`, which gives no chunks whatever the budget. */
  lemma EmptyTextNoChunks(m: int)
    ensures Chunked([""], m) == Ok([])
  {
    var blank := "" + "\n\n" + "";
    assert AllSpace(blank) by {
      assert blank == "\n\n";
    }
    StripEmptyIff(blank);
    assert [""][..0] == [];
    assert PackAll([""], m) == PackStep(Pack([], ""), "", m);
  }

  /** Empty or whitespace-only text gives no chunks, whatever the budget: it strips to the
      empty string, which `re.split` returns as the single paragraph `""`. */
  lemma BlankTextGivesNoChunks(text: string, m: int, split: string -> seq<string>)
    requires split("") == [""]
    requires AllSpace(text)
    ensures SimpleChunkOf(text, m, split) == Ok([])
  {
    StripEmptyIff(text);
    EmptyTextNoChunks(m);
  }

  /** With a positive budget, paragraphs that are all whitespace give no chunks. */
  lemma BlankTextNoChunks(paras: seq<string>, m: int)
    requires m > 0 && forall k :: 0 <= k < |paras| ==> AllSpace(paras[k])
    ensures Chunked(paras, m) == Ok([])
  {
    ChunksPreserveText(paras, m);
    AllSpaceContent(paras);
    ChunksStripped(paras, m);
    ContentCountsChunks(Chunked(paras, m).value);
  }

  // ---------------------------------------------------------------- extract_concepts

  /** The characters `re.sub(r"[^A-Za-z0-9_\-\s]", " ", ...)` keeps; `\s` on a `str` pattern
      matches exactly the characters `str.isspace` accepts. */
  predicate Kept(c: char) {
    ('A' <= c <= 'Z') || ('a' <= c <= 'z') || ('0' <= c <= '9') || c == '_' || c == '-' || IsSpace(c)
  }

  /** The characters a concept may contain. */
  predicate ConceptChar(c: char) {
    ('a' <= c <= 'z') || ('0' <= c <= '9') || c == '_' || c == '-'
  }

  /** The regular-expression substitution: every other character becomes a space. */
  function Scrub(s: string): (r: string)
    ensures |r| == |s|
    ensures forall i :: 0 <= i < |s| ==> r[i] == if Kept(s[i]) then s[i] else ' '
  {
    seq(|s|, i requires 0 <= i < |s| => if Kept(s[i]) then s[i] else ' ')
  }

  /** `[t.lower() for t in txt.split() if len(t) > 2]` for the kept words `ws`. */
  function LongLower(ws: seq<string>): (r: seq<string>)
    ensures |r| <= |ws|
    ensures forall k :: 0 <= k < |r| ==> |r[k]| > 2
  {
    if ws == [] then []
    else LongLower(ws[..|ws| - 1]) + (if |ws[|ws| - 1]| > 2 then [Lower(ws[|ws| - 1])] else [])
  }

  /** The positions in `ws` of the words longer than two, in order: the words `LongLower` keeps. */
  function LongPositions(ws: seq<string>): (ps: seq<nat>)
    ensures |ps| == |LongLower(ws)|
    ensures forall i :: 0 <= i < |ps| ==> ps[i] < |ws|
  {
    if ws == [] then []
    else LongPositions(ws[..|ws| - 1]) + (if |ws[|ws| - 1]| > 2 then [|ws| - 1] else [])
  }

  lemma {:induction false} LongPositionsPick(ws: seq<string>)
    ensures forall i :: 0 <= i < |LongPositions(ws)| ==>
      |ws[LongPositions(ws)[i]]| > 2 && LongLower(ws)[i] == Lower(ws[LongPositions(ws)[i]])
  {
    if ws != [] {
      var m := |ws| - 1;
      var init := ws[..m];
      LongPositionsPick(init);
      var ps, ps0 := LongPositions(ws), LongPositions(init);
      var r, r0 := LongLower(ws), LongLower(init);
      forall i | 0 <= i < |ps0| ensures |ws[ps[i]]| > 2 && r[i] == Lower(ws[ps[i]]) {
        assert ps[i] == ps0[i] && r[i] == r0[i];
        assert init[ps0[i]] == ws[ps0[i]];
      }
    }
  }

  lemma {:induction false} LongPositionsRise(ws: seq<string>)
    ensures forall i, j :: 0 <= i < j < |LongPositions(ws)| ==> LongPositions(ws)[i] < LongPositions(ws)[j]
  {
    if ws != [] {
      LongPositionsRise(ws[..|ws| - 1]);
    }
  }

  lemma {:induction false} LongPositionsCover(ws: seq<string>)
    ensures forall k :: 0 <= k < |ws| && |ws[k]| > 2 ==> k in LongPositions(ws)
  {
    if ws != [] {
      var m := |ws| - 1;
      var init := ws[..m];
      LongPositionsCover(init);
      forall k | 0 <= k < m && |ws[k]| > 2 ensures k in LongPositions(ws) {
        assert init[k] == ws[k];
      }
    }
  }

  /** `LongLower` is an order-keeping filter-map: its `i`-th token is the lowercased word at
      position `ps[i]` of `ws`, the positions rise, and they are exactly the words longer than two. */
  lemma LongLowerPositions(ws: seq<string>) returns (ps: seq<nat>)
    ensures |ps| == |LongLower(ws)|
    ensures forall i :: 0 <= i < |ps| ==>
      ps[i] < |ws| && |ws[ps[i]]| > 2 && LongLower(ws)[i] == Lower(ws[ps[i]])
    ensures forall i, j :: 0 <= i < j < |ps| ==> ps[i] < ps[j]
    ensures forall k :: 0 <= k < |ws| && |ws[k]| > 2 ==> k in ps
  {
    ps := LongPositions(ws);
    LongPositionsPick(ws);
    LongPositionsRise(ws);
    LongPositionsCover(ws);
  }

  /** A token of `ws` is the lowercase form of one of its words longer than two, and each such
      word gives one. */
  lemma LongLowerMembers(ws: seq<string>)
    ensures forall t :: t in LongLower(ws) <==> exists w :: w in ws && |w| > 2 && t == Lower(w)
  {
    var ps := LongLowerPositions(ws);
    var r := LongLower(ws);
    forall t | t in r ensures exists w :: w in ws && |w| > 2 && t == Lower(w) {
      var i :| 0 <= i < |r| && r[i] == t;
      assert ws[ps[i]] in ws;
    }
    forall t | exists w :: w in ws && |w| > 2 && t == Lower(w) ensures t in r {
      var w :| w in ws && |w| > 2 && t == Lower(w);
      var k :| 0 <= k < |ws| && ws[k] == w;
      var i :| 0 <= i < |ps| && ps[i] == k;
      assert r[i] == t;
    }
  }

  /** The lowercase tokens of a chunk. */
  function Tokens(ch: string): seq<string> {
    LongLower(Words(Scrub(ch)))
  }

  /** Every token is longer than two characters and uses only `[a-z0-9_-]`. */
  lemma TokensShape(ch: string)
    ensures forall t :: t in Tokens(ch) ==> |t| > 2 && forall i :: 0 <= i < |t| ==> ConceptChar(t[i])
  {
    var ws := Words(Scrub(ch));
    forall k, i | 0 <= k < |ws| && 0 <= i < |ws[k]| ensures ConceptChar(LowerChar(ws[k][i])) {
      WordsDrawFrom(Scrub(ch), k, i);
      var c := ws[k][i];
      assert !IsSpace(c);
      var j :| 0 <= j < |Scrub(ch)| && Scrub(ch)[j] == c;
    }
    LongLowerShape(ws);
  }

  lemma {:induction false} LongLowerShape(ws: seq<string>)
    requires forall k, i :: 0 <= k < |ws| && 0 <= i < |ws[k]| ==> ConceptChar(LowerChar(ws[k][i]))
    ensures forall t :: t in LongLower(ws) ==> forall i :: 0 <= i < |t| ==> ConceptChar(t[i])
  {
    if ws != [] {
      LongLowerShape(ws[..|ws| - 1]);
    }
  }

  /** The stop words `extract_concepts` skips. */
  const StopWords: set<string> := {
    "the", "and", "for", "with", "that", "this", "from", "into", "your", "you", "are", "can",
    "use", "used", "using", "have", "has", "was", "were", "but", "not", "out", "how", "why"
  }

  /** The number of occurrences of `w` in `ts`. */
  function Count(ts: seq<string>, w: string): nat {
    if ts == [] then 0 else Count(ts[..|ts| - 1], w) + (if ts[|ts| - 1] == w then 1 else 0)
  }

  lemma {:induction false} CountPositive(ts: seq<string>, w: string)
    ensures Count(ts, w) > 0 <==> w in ts
  {
    if ts != [] {
      var init := ts[..|ts| - 1];
      CountPositive(init, w);
      assert ts == init + [ts[|ts| - 1]];
    }
  }

  lemma LastSplit(toks: seq<string>)
    requires toks != []
    ensures forall w :: w in toks <==> w in toks[..|toks| - 1] || w == toks[|toks| - 1]
  {
    assert toks == toks[..|toks| - 1] + [toks[|toks| - 1]];
  }

  /** The loop body: a stop word leaves the table alone, any other token adds one to its count. */
  function Tally(d: Dict<string, nat>, t: string, stop: set<string>): Dict<string, nat> {
    if t in stop then d else d.Put(t, d.Get(t, 0) + 1)
  }

  /** The `freq` dictionary after the loop over `toks`, skipping the words in `stop`:
      keys in first-occurrence order, each with its number of occurrences. */
  function Freq(toks: seq<string>, stop: set<string>): (d: Dict<string, nat>)
    ensures d.Valid()
    ensures forall w :: w in d.values <==> w in toks && w !in stop
    ensures forall w :: w in d.values ==> d.values[w] == Count(toks, w)
  {
    if toks == [] then EmptyDict()
    else
      var init, t := toks[..|toks| - 1], toks[|toks| - 1];
      LastSplit(toks);
      CountPositive(init, t);
      Tally(Freq(init, stop), t, stop)
  }

  /** One step of the counting loop: the table after a last token. */
  lemma FreqLast(s: seq<string>, stop: set<string>)
    requires s != []
    ensures Freq(s, stop) == Tally(Freq(s[..|s| - 1], stop), s[|s| - 1], stop)
  {
  }

  /** `w` occurs first in `toks` at position `p`. */
  predicate FirstAt(toks: seq<string>, w: string, p: nat) {
    p < |toks| && toks[p] == w && forall q :: 0 <= q < p ==> toks[q] != w
  }

  /** A first occurrence in a prefix is a first occurrence in the whole sequence. */
  lemma FirstAtPrefix(pre: seq<string>, toks: seq<string>, w: string, p: nat)
    requires pre <= toks && FirstAt(pre, w, p)
    ensures FirstAt(toks, w, p)
  {
    assert forall q :: 0 <= q <= p ==> toks[q] == pre[q];
  }

  /** `ps[i]` is where `ks[i]` first occurs in `toks`, and these positions increase. */
  predicate FirstOrder(toks: seq<string>, ks: seq<string>, ps: seq<nat>) {
    && |ps| == |ks|
    && (forall i :: 0 <= i < |ps| ==> FirstAt(toks, ks[i], ps[i]))
    && (forall i, j :: 0 <= i < j < |ps| ==> ps[i] < ps[j])
  }

  /** First occurrences in a prefix stay first occurrences after one more token. */
  lemma FirstOrderGrow(toks: seq<string>, ks: seq<string>, ps: seq<nat>)
    requires toks != [] && FirstOrder(toks[..|toks| - 1], ks, ps)
    ensures FirstOrder(toks, ks, ps)
  {
    var init := toks[..|toks| - 1];
    forall i | 0 <= i < |ps| ensures FirstAt(toks, ks[i], ps[i]) {
      FirstAtPrefix(init, toks, ks[i], ps[i]);
    }
  }

  /** A token new to the prefix occurs first at the last position, after every earlier key. */
  lemma FirstOrderNew(toks: seq<string>, ks: seq<string>, ps: seq<nat>)
    requires toks != [] && toks[|toks| - 1] !in toks[..|toks| - 1]
    requires FirstOrder(toks[..|toks| - 1], ks, ps)
    ensures FirstOrder(toks, ks + [toks[|toks| - 1]], ps + [|toks| - 1])
  {
    var init, t := toks[..|toks| - 1], toks[|toks| - 1];
    FirstOrderGrow(toks, ks, ps);
    forall q | 0 <= q < |init| ensures toks[q] != t {
      assert toks[q] == init[q];
    }
    assert FirstAt(toks, t, |toks| - 1);
  }

  /** The counting table lists its words in the order of their first occurrence among the
      tokens: `ps[i]` is where the `i`-th key occurs first, and these positions increase. */
  lemma {:induction false} FreqFirstOrder(toks: seq<string>, stop: set<string>) returns (ps: seq<nat>)
    ensures |ps| == |Freq(toks, stop).keys|
    ensures forall i :: 0 <= i < |ps| ==> FirstAt(toks, Freq(toks, stop).keys[i], ps[i])
    ensures forall i, j :: 0 <= i < j < |ps| ==> ps[i] < ps[j]
  {
    ps := FreqPositions(toks, stop);
  }

  lemma {:induction false} FreqPositions(toks: seq<string>, stop: set<string>) returns (ps: seq<nat>)
    ensures FirstOrder(toks, Freq(toks, stop).keys, ps)
  {
    if toks == [] {
      ps := [];
    } else {
      var init, t := toks[..|toks| - 1], toks[|toks| - 1];
      var before := FreqPositions(init, stop);
      var d := Freq(init, stop);
      FreqLast(toks, stop);
      if t in stop || t in d.values {
        FirstOrderGrow(toks, d.keys, before);
        ps := before;
      } else {
        assert t !in init;
        FirstOrderNew(toks, d.keys, before);
        ps := before + [|toks| - 1];
      }
    }
  }

  /** The sort key `-count`: `a` may precede `b` when its count is at least as large. */
  predicate ByCount(a: (string, nat), b: (string, nat)) {
    a.1 >= b.1
  }

  lemma ByCountPreorder()
    ensures TotalPreorder(ByCount)
  {
  }

  function Firsts(items: seq<(string, nat)>): (r: seq<string>)
    ensures |r| == |items|
    ensures forall k :: 0 <= k < |items| ==> r[k] == items[k].0
  {
    seq(|items|, k requires 0 <= k < |items| => items[k].0)
  }

  /** The frequency table sorted by descending count, stably. */
  function RankingAvoiding(ch: string, stop: set<string>): seq<(string, nat)> {
    SortDesc(Freq(Tokens(ch), stop).Items(), ByCount)
  }

  function Ranking(ch: string): seq<(string, nat)> {
    RankingAvoiding(ch, StopWords)
  }

  /** The first `top_k` words of the ranking, as Python's `[:top_k]` cuts it. */
  function Top(ranked: seq<(string, nat)>, topK: int): seq<string> {
    Firsts(ranked[..SliceEnd(|ranked|, topK)])
  }

  /** `extract_concepts(ch, top_k)`. */
  function Concepts(ch: string, topK: int): seq<string> {
    Top(Ranking(ch), topK)
  }

  /** `extract_concepts(ch, top_k)`: the counting loop, then the sort and the cut. */
  method ExtractConcepts(ch: string, topK: int) returns (r: seq<string>)
    ensures r == Concepts(ch, topK)
  {
    var freq := CountTokens(Tokens(ch), StopWords);
    var ranked := SortDesc(freq.Items(), ByCount);
    r := Firsts(ranked[..SliceEnd(|ranked|, topK)]);
  }

  /** The loop filling `freq`. */
  method CountTokens(toks: seq<string>, stop: set<string>) returns (freq: Dict<string, nat>)
    ensures freq == Freq(toks, stop)
  {
    freq := EmptyDict();
    var i := 0;
    while i < |toks|
      invariant 0 <= i <= |toks|
      invariant freq == Freq(toks[..i], stop)
    {
      var t := toks[i];
      ghost var s := toks[..i + 1];
      assert s[..|s| - 1] == toks[..i] && s[|s| - 1] == t;
      FreqLast(s, stop);
      if t !in stop {
        freq := freq.Put(t, freq.Get(t, 0) + 1);
      }
      i := i + 1;
    }
    assert toks[..i] == toks;
  }

  lemma ItemsDistinct(d: Dict<string, nat>)
    requires d.Valid()
    ensures Distinct(d.Items())
  {
    var items := d.Items();
    forall i, j | 0 <= i < j < |items| ensures items[i] != items[j] {
      assert items[i].0 == d.keys[i] && items[j].0 == d.keys[j];
    }
  }

  /** Any rearrangement of the items of a dictionary pairs each key with its value. */
  lemma RearrangedEntries(d: Dict<string, nat>, r: seq<(string, nat)>)
    requires d.Valid() && multiset(r) == multiset(d.Items())
    ensures forall k :: 0 <= k < |r| ==> r[k].0 in d.values && r[k].1 == d.values[r[k].0]
  {
    var items := d.Items();
    forall k | 0 <= k < |r| ensures r[k].0 in d.values && r[k].1 == d.values[r[k].0] {
      assert r[k] in multiset(items);
      var j :| 0 <= j < |items| && items[j] == r[k];
    }
  }

  /** Any rearrangement of the items of a dictionary lists each key once. */
  lemma RearrangedKeys(d: Dict<string, nat>, r: seq<(string, nat)>)
    requires d.Valid() && multiset(r) == multiset(d.Items())
    ensures Distinct(Firsts(r))
    ensures forall w :: w in Firsts(r) <==> w in d.values
  {
    var items := d.Items();
    ItemsDistinct(d);
    DistinctPermutation(items, r);
    RearrangedEntries(d, r);
    forall i, j | 0 <= i < j < |r| ensures Firsts(r)[i] != Firsts(r)[j] {
      assert r[i] != r[j];
    }
    forall w | w in d.values ensures w in Firsts(r) {
      var j :| 0 <= j < |d.keys| && d.keys[j] == w;
      assert items[j] in multiset(r);
      var k :| 0 <= k < |r| && r[k] == items[j];
      assert Firsts(r)[k] == w;
    }
  }

  /** The ranking lists each token that is not a stop word exactly once, with its number of occurrences. */
  lemma RankingEntries(ch: string, stop: set<string>)
    ensures Distinct(Firsts(RankingAvoiding(ch, stop)))
    ensures forall w :: w in Firsts(RankingAvoiding(ch, stop)) <==> w in Tokens(ch) && w !in stop
    ensures forall k :: 0 <= k < |RankingAvoiding(ch, stop)| ==>
      RankingAvoiding(ch, stop)[k].1 == Count(Tokens(ch), RankingAvoiding(ch, stop)[k].0)
  {
    var d := Freq(Tokens(ch), stop);
    RearrangedKeys(d, RankingAvoiding(ch, stop));
    RearrangedEntries(d, RankingAvoiding(ch, stop));
  }

  /** The cut keeps `top_k` words (all of them when there are fewer), without duplicates,
      drawn from the ranking. */
  lemma TopSelection(ranked: seq<(string, nat)>, topK: int)
    requires Distinct(Firsts(ranked))
    ensures topK >= 0 ==> |Top(ranked, topK)| == if topK < |ranked| then topK else |ranked|
    ensures Distinct(Top(ranked, topK))
    ensures forall c :: c in Top(ranked, topK) ==> c in Firsts(ranked)
  {
    var e := SliceEnd(|ranked|, topK);
    assert Top(ranked, topK) == Firsts(ranked)[..e];
    DistinctPrefix(Firsts(ranked), e);
  }

  /** At most `top_k` concepts (all of them when `top_k` is at least their number), no duplicates;
      each is a token of the chunk that is not a stop word. */
  lemma ConceptsSelection(ch: string, topK: int)
    ensures topK >= 0 ==> |Concepts(ch, topK)| == if topK < |Ranking(ch)| then topK else |Ranking(ch)|
    ensures Distinct(Concepts(ch, topK))
    ensures forall c :: c in Concepts(ch, topK) ==> c in Tokens(ch) && c !in StopWords
  {
    RankingEntries(ch, StopWords);
    TopSelection(Ranking(ch), topK);
  }

  /** Every concept is lowercase, longer than two characters, and drawn from `[a-z0-9_-]`. */
  lemma ConceptsShape(ch: string, topK: int)
    ensures forall c :: c in Concepts(ch, topK) ==> |c| > 2 && forall i :: 0 <= i < |c| ==> ConceptChar(c[i])
  {
    ConceptsSelection(ch, topK);
    TokensShape(ch);
  }

  /** Concepts come by descending count; concepts with equal counts keep the order in which their
      tokens first occur (the order of the frequency table), because the sort is stable. */
  lemma ConceptsOrder(ch: string, y: (string, nat))
    ensures Ordered(Ranking(ch), ByCount)
    ensures Tied(Ranking(ch), ByCount, y) == Tied(Freq(Tokens(ch), StopWords).Items(), ByCount, y)
  {
    ByCountPreorder();
    SortOrdered(Freq(Tokens(ch), StopWords).Items(), ByCount);
    SortStable(Freq(Tokens(ch), StopWords).Items(), ByCount, y);
  }
}
