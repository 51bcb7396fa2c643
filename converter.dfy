/** The new extractor (`src/spacy_to_naf/converter.py`): five functions that
    turn the token, entity and noun-chunk streams into NAF records whose ids
    cross-reference each other, and the `Converter` that adds the requested
    layers to a NAF document. */
module Converter {
  import opened Decimal
  import opened Pipeline
  import opened NafIds
  import opened PosMap

  datatype Wf = Wf(text: string, id: string, offset: string, length: string, sent: string)
  datatype Term = Term(id: string, span: seq<string>, lemmaForm: string, pos: string,
                       posType: string, morphofeat: string)
  datatype Dep = Dep(fromTerm: string, toTerm: string, rfunc: string)
  datatype Entity = Entity(id: string, entityType: string, targets: seq<string>)
  datatype Chunk = Chunk(id: string, head: string, phrase: string, span: seq<string>)

  // ---------------------------------------------------------------------
  // Reference definitions of the layers.

  function WfOf(p: Pos): Wf {
    Wf(p.tok.text, WfId(p.tok.i), Dec(p.tok.idx), Dec(|p.tok.text|), SentId(p.sent))
  }

  function TermOf(t: Token, mapUdpos: bool): Term {
    var (pos, posType) := MapPos(mapUdpos, t.pos);
    Term(TermId(t.i), [WfId(t.i)], t.lemmaForm, pos, posType, t.tag)
  }

  function DepOf(t: Token): Dep {
    Dep(TermId(t.head), TermId(t.i), t.dep)
  }

  predicate IsRoot(t: Token) {
    t.i == t.head
  }

  /** One word per token of the stream, in sentence order. */
  function TextElements(sents: seq<seq<Token>>): seq<Wf> {
    var st := Stream(sents);
    seq(|st|, k requires 0 <= k < |st| => WfOf(st[k]))
  }

  /** One term per token of the stream, in sentence order. */
  function TermElements(sents: seq<seq<Token>>, mapUdpos: bool): seq<Term> {
    var st := Stream(sents);
    seq(|st|, k requires 0 <= k < |st| => TermOf(st[k].tok, mapUdpos))
  }

  /** One dependency per non-root token, in document order. */
  function DepElements(toks: seq<Token>): seq<Dep>
    decreases |toks|
  {
    if toks == [] then []
    else
      var init := DepElements(toks[..|toks| - 1]);
      var t := toks[|toks| - 1];
      if IsRoot(t) then init else init + [DepOf(t)]
  }

  /** Number of tokens that are not their own head. */
  function NonRootCount(toks: seq<Token>): nat
    decreases |toks|
  {
    if toks == [] then 0
    else NonRootCount(toks[..|toks| - 1]) + (if IsRoot(toks[|toks| - 1]) then 0 else 1)
  }

  /** The term ids `t{start+1}` .. `t{end}`, as `[term_id(x) for x in range(start, end)]`. */
  function TargetIds(start: nat, end: nat): (r: seq<string>)
    ensures |r| == if start <= end then end - start else 0
    ensures forall j :: 0 <= j < |r| ==> r[j] == TermId(start + j)
    decreases end - start
  {
    if start < end then
      var rest := TargetIds(start + 1, end);
      assert forall j :: 0 < j <= |rest| ==> ([TermId(start)] + rest)[j] == rest[j - 1];
      [TermId(start)] + rest
    else
      []
  }

  // ---------------------------------------------------------------------
  // The extractors.

  method ExtractText(doc: Doc) returns (wfs: seq<Wf>)
    ensures wfs == TextElements(doc.sents)
  {
    var sents := doc.sents;
    StreamLength(sents);
    wfs := [];
    var sentI := 0;
    while sentI < |sents|
      invariant sentI <= |sents|
      invariant |wfs| == Offset(sents, sentI) <= |Stream(sents)|
      invariant forall k :: 0 <= k < |wfs| ==> wfs[k] == WfOf(Stream(sents)[k])
    {
      var sentence := sents[sentI];
      var j := 0;
      while j < |sentence|
        invariant j <= |sentence|
        invariant |wfs| == Offset(sents, sentI) + j <= |Stream(sents)|
        invariant forall k :: 0 <= k < |wfs| ==> wfs[k] == WfOf(Stream(sents)[k])
      {
        var token := sentence[j];
        StreamAt(sents, sentI, j);
        var wf := Wf(token.text, WfId(token.i), Dec(token.idx), Dec(|token.text|), SentId(sentI));
        wfs := wfs + [wf];
        j := j + 1;
      }
      OffsetMonotone(sents, sentI + 1, |sents|);
      sentI := sentI + 1;
    }
  }

  method ExtractTerms(doc: Doc, mapUd2nafpos: bool) returns (terms: seq<Term>)
    ensures terms == TermElements(doc.sents, mapUd2nafpos)
  {
    var sents := doc.sents;
    StreamLength(sents);
    terms := [];
    var sentI := 0;
    while sentI < |sents|
      invariant sentI <= |sents|
      invariant |terms| == Offset(sents, sentI) <= |Stream(sents)|
      invariant forall k :: 0 <= k < |terms| ==> terms[k] == TermOf(Stream(sents)[k].tok, mapUd2nafpos)
    {
      var sentence := sents[sentI];
      var j := 0;
      while j < |sentence|
        invariant j <= |sentence|
        invariant |terms| == Offset(sents, sentI) + j <= |Stream(sents)|
        invariant forall k :: 0 <= k < |terms| ==> terms[k] == TermOf(Stream(sents)[k].tok, mapUd2nafpos)
      {
        var token := sentence[j];
        StreamAt(sents, sentI, j);
        var (pos, posType) := MapPos(mapUd2nafpos, token.pos);
        var term := Term(TermId(token.i), [WfId(token.i)], token.lemmaForm, pos, posType, token.tag);
        terms := terms + [term];
        j := j + 1;
      }
      OffsetMonotone(sents, sentI + 1, |sents|);
      sentI := sentI + 1;
    }
  }

  method ExtractDeps(doc: Doc) returns (deps: seq<Dep>)
    ensures deps == DepElements(Tokens(doc.sents))
  {
    var toks := Tokens(doc.sents);
    deps := [];
    var n := 0;
    while n < |toks|
      invariant n <= |toks|
      invariant deps == DepElements(toks[..n])
    {
      var token := toks[n];
      assert toks[..n + 1][..n] == toks[..n];
      if token.i != token.head {
        deps := deps + [Dep(TermId(token.head), TermId(token.i), token.dep)];
      }
      n := n + 1;
    }
    assert toks[..n] == toks;
  }

  /** One entity per span, in span order, with the span's label and one target per token of the span. */
  function ExtractEntities(ents: seq<EntSpan>): (r: seq<Entity>)
    ensures |r| == |ents|
    ensures forall k :: 0 <= k < |r| ==>
              && r[k].entityType == ents[k].entityType
              && |r[k].targets| == if ents[k].start <= ents[k].end then ents[k].end - ents[k].start else 0
  {
    seq(|ents|, k requires 0 <= k < |ents| =>
      Entity(EntityId(k), ents[k].entityType, TargetIds(ents[k].start, ents[k].end)))
  }

  /** One chunk per noun-chunk span, in order, headed by its root's term, one span entry per token. */
  function ExtractChunks(chunks: seq<ChunkSpan>): (r: seq<Chunk>)
    ensures |r| == |chunks|
    ensures forall k :: 0 <= k < |r| ==>
              && r[k].head == TermId(chunks[k].root)
              && |r[k].span| == if chunks[k].start <= chunks[k].end then chunks[k].end - chunks[k].start else 0
  {
    seq(|chunks|, k requires 0 <= k < |chunks| =>
      Chunk(ChunkId(k), TermId(chunks[k].root), chunks[k].phrase, TargetIds(chunks[k].start, chunks[k].end)))
  }

  // ---------------------------------------------------------------------
  // What the layers promise.

  predicate Distinct(ids: seq<string>) {
    forall a, b :: 0 <= a < b < |ids| ==> ids[a] != ids[b]
  }

  function WfIds(wfs: seq<Wf>): seq<string> {
    seq(|wfs|, k requires 0 <= k < |wfs| => wfs[k].id)
  }

  function TermIds(terms: seq<Term>): seq<string> {
    seq(|terms|, k requires 0 <= k < |terms| => terms[k].id)
  }

  /** Word `j` of sentence `s` is token `sents[s][j]`: its id is `w{i+1}`, its
      offset and length read back as the token's offset and text length, and
      its sentence reads back as `s + 1`. */
  lemma TextElementAt(sents: seq<seq<Token>>, s: nat, j: nat)
    requires s < |sents| && j < |sents[s]|
    ensures Offset(sents, s) + j < |TextElements(sents)| == |Tokens(sents)|
    ensures var w := TextElements(sents)[Offset(sents, s) + j];
            var t := sents[s][j];
            && w.text == t.text && w.id == WfId(t.i)
            && AllDigits(w.offset) && Parse(w.offset) == t.idx
            && AllDigits(w.length) && Parse(w.length) == |t.text|
            && AllDigits(w.sent) && Parse(w.sent) == s + 1
  {
    StreamAt(sents, s, j);
    StreamLength(sents);
    var t := sents[s][j];
    ParseDec(t.idx);
    ParseDec(|t.text|);
    SentIdDecodes(s);
  }

  /** Word `k` and term `k` of a well-indexed document: `w{k+1}` and
      `t{k+1}`, the term spanning exactly that word. */
  lemma ElementsAt(sents: seq<seq<Token>>, mapUdpos: bool, k: nat)
    requires TokensIndexed(Tokens(sents)) && k < |Tokens(sents)|
    ensures |TextElements(sents)| == |TermElements(sents, mapUdpos)| == |Tokens(sents)|
    ensures TextElements(sents)[k].id == WfId(k)
    ensures TermElements(sents, mapUdpos)[k].id == TermId(k)
    ensures TermElements(sents, mapUdpos)[k].span == [TextElements(sents)[k].id]
  {
    assert Tokens(sents)[k] == Stream(sents)[k].tok;
  }

  /** Text and term layers run in parallel: equally long, term `k` spans
      exactly word `k`, and in a well-indexed document word `k` is `w{k+1}`,
      term `k` is `t{k+1}` and all ids are distinct. */
  lemma TextAndTermsAligned(sents: seq<seq<Token>>, mapUdpos: bool)
    requires TokensIndexed(Tokens(sents))
    ensures |TextElements(sents)| == |TermElements(sents, mapUdpos)| == |Tokens(sents)|
    ensures forall k :: 0 <= k < |Tokens(sents)| ==>
              && TermElements(sents, mapUdpos)[k].span == [TextElements(sents)[k].id]
              && TextElements(sents)[k].id == WfId(k)
              && TermElements(sents, mapUdpos)[k].id == TermId(k)
    ensures Distinct(WfIds(TextElements(sents))) && Distinct(TermIds(TermElements(sents, mapUdpos)))
  {
    var wfs := TextElements(sents);
    var terms := TermElements(sents, mapUdpos);
    forall k | 0 <= k < |Tokens(sents)|
      ensures && terms[k].span == [wfs[k].id] && wfs[k].id == WfId(k) && terms[k].id == TermId(k)
    {
      ElementsAt(sents, mapUdpos, k);
    }
    LayerIdsDistinct(sents, mapUdpos);
  }

  /** No word id and no term id occurs twice in a well-indexed document. */
  lemma LayerIdsDistinct(sents: seq<seq<Token>>, mapUdpos: bool)
    requires TokensIndexed(Tokens(sents))
    ensures Distinct(WfIds(TextElements(sents))) && Distinct(TermIds(TermElements(sents, mapUdpos)))
  {
    var wids, tids := WfIds(TextElements(sents)), TermIds(TermElements(sents, mapUdpos));
    forall a, b | 0 <= a < b < |wids|
      ensures wids[a] != wids[b]
    {
      ElementsAt(sents, mapUdpos, a);
      ElementsAt(sents, mapUdpos, b);
      ElementIdInjective(WF_PREFIX, WF_PREFIX, a, b);
    }
    forall a, b | 0 <= a < b < |tids|
      ensures tids[a] != tids[b]
    {
      ElementsAt(sents, mapUdpos, a);
      ElementsAt(sents, mapUdpos, b);
      ElementIdInjective(TERM_PREFIX, TERM_PREFIX, a, b);
    }
  }

  /** As the converter's own test checks: as many words as terms as distinct word ids. */
  lemma WordIdsCount(sents: seq<seq<Token>>, mapUdpos: bool)
    requires TokensIndexed(Tokens(sents))
    ensures |TextElements(sents)| == |TermElements(sents, mapUdpos)|
              == |set x | x in WfIds(TextElements(sents))|
  {
    TextAndTermsAligned(sents, mapUdpos);
    DistinctCard(WfIds(TextElements(sents)));
  }

  lemma {:induction false} DistinctCard(ids: seq<string>)
    requires Distinct(ids)
    ensures |set x | x in ids| == |ids|
    decreases |ids|
  {
    if ids != [] {
      var init := ids[..|ids| - 1];
      assert Distinct(init);
      DistinctCard(init);
      assert (set x | x in ids) == (set x | x in init) + {ids[|ids| - 1]};
      assert ids[|ids| - 1] !in init;
    }
  }

  lemma {:induction false} DepElementsLength(toks: seq<Token>)
    ensures |DepElements(toks)| == NonRootCount(toks)
    decreases |toks|
  {
    if toks != [] {
      DepElementsLength(toks[..|toks| - 1]);
    }
  }

  lemma {:induction false} NonRootCountPrefix(toks: seq<Token>, a: nat, b: nat)
    requires a <= b <= |toks|
    ensures NonRootCount(toks[..a]) <= NonRootCount(toks[..b])
    ensures a < b && !IsRoot(toks[a]) ==> NonRootCount(toks[..a]) < NonRootCount(toks[..b])
    decreases b - a
  {
    if a < b {
      NonRootCountPrefix(toks, a, b - 1);
      assert toks[..b][..b - 1] == toks[..b - 1];
      if a == b - 1 {
        assert toks[..b][b - 1] == toks[a];
      }
    }
  }

  /** The dependency of every non-root token `k` is emitted, at the slot
      given by the number of non-root tokens before it: so every non-root
      token gets exactly one edge, roots none, and document order is kept. */
  lemma {:induction false} DepElementsAt(toks: seq<Token>, k: nat)
    requires k < |toks| && !IsRoot(toks[k])
    ensures NonRootCount(toks[..k]) < |DepElements(toks)|
    ensures DepElements(toks)[NonRootCount(toks[..k])] == DepOf(toks[k])
    decreases |toks|
  {
    var n := |toks|;
    var init := toks[..n - 1];
    DepElementsLength(toks);
    DepElementsLength(init);
    if k == n - 1 {
      assert toks[..k] == init;
    } else {
      assert init[..k] == toks[..k];
      DepElementsAt(init, k);
    }
  }

  /** Dependencies keep document order: of two non-root tokens, the earlier
      one's dependency comes first. */
  lemma DepElementsInOrder(toks: seq<Token>, a: nat, b: nat)
    requires a < b < |toks| && !IsRoot(toks[a]) && !IsRoot(toks[b])
    ensures NonRootCount(toks[..a]) < NonRootCount(toks[..b]) < |DepElements(toks)|
    ensures DepElements(toks)[NonRootCount(toks[..a])] == DepOf(toks[a])
    ensures DepElements(toks)[NonRootCount(toks[..b])] == DepOf(toks[b])
  {
    NonRootCountPrefix(toks, a, b);
    DepElementsAt(toks, a);
    DepElementsAt(toks, b);
  }

  /** Every emitted dependency comes from a non-root token. */
  lemma {:induction false} DepElementsSound(toks: seq<Token>, m: nat)
    requires m < |DepElements(toks)|
    ensures exists k :: 0 <= k < |toks| && !IsRoot(toks[k]) && DepElements(toks)[m] == DepOf(toks[k])
    decreases |toks|
  {
    var n := |toks|;
    var init := toks[..n - 1];
    if m < |DepElements(init)| {
      DepElementsSound(init, m);
      var k :| 0 <= k < |init| && !IsRoot(init[k]) && DepElements(init)[m] == DepOf(init[k]);
      assert toks[k] == init[k];
    } else {
      assert !IsRoot(toks[n - 1]);
    }
  }

  /** In a well-formed document each dependency links two different terms
      of the term layer: from the head's term to the dependent's term. */
  lemma DepsReferToTerms(doc: Doc, mapUdpos: bool, m: nat)
    requires DocWellFormed(doc)
    requires m < |DepElements(Tokens(doc.sents))|
    ensures exists k :: 0 <= k < |Tokens(doc.sents)|
              && var d := DepElements(Tokens(doc.sents))[m];
              && var terms := TermElements(doc.sents, mapUdpos);
              && d.toTerm == terms[k].id
              && d.fromTerm == terms[Tokens(doc.sents)[k].head].id
              && d.fromTerm != d.toTerm
  {
    var toks := Tokens(doc.sents);
    DepElementsSound(toks, m);
    var k :| 0 <= k < |toks| && !IsRoot(toks[k]) && DepElements(toks)[m] == DepOf(toks[k]);
    var h := toks[k].head;
    ElementsAt(doc.sents, mapUdpos, k);
    ElementsAt(doc.sents, mapUdpos, h);
    IdsDistinct(h, k);
  }

  /** Entity `k` is `e{k+1}`, keeps its label, and targets the terms of
      tokens `start .. end-1` in order; in a well-indexed document those are
      exactly the ids of the term layer's elements `start .. end-1`. */
  lemma EntityTargets(doc: Doc, mapUdpos: bool, k: nat)
    requires TokensIndexed(Tokens(doc.sents))
    requires k < |doc.ents| && doc.ents[k].start <= doc.ents[k].end <= |Tokens(doc.sents)|
    ensures var e := ExtractEntities(doc.ents)[k];
            var span := doc.ents[k];
            && e.id == EntityId(k) && e.entityType == span.entityType
            && |e.targets| == span.end - span.start
            && forall j :: 0 <= j < |e.targets| ==>
                 e.targets[j] == TermElements(doc.sents, mapUdpos)[span.start + j].id
  {
    TextAndTermsAligned(doc.sents, mapUdpos);
  }

  /** Entity ids are pairwise distinct, and so are the targets of one entity. */
  lemma EntityIdsDistinct(ents: seq<EntSpan>)
    ensures forall a, b :: 0 <= a < b < |ents| ==> ExtractEntities(ents)[a].id != ExtractEntities(ents)[b].id
    ensures forall k :: 0 <= k < |ents| ==> Distinct(ExtractEntities(ents)[k].targets)
  {
    forall a, b | 0 <= a < b < |ents| ensures EntityId(a) != EntityId(b) {
      ElementIdInjective(ENTITY_PREFIX, ENTITY_PREFIX, a, b);
    }
    forall k | 0 <= k < |ents| ensures Distinct(ExtractEntities(ents)[k].targets) {
      TargetIdsDistinct(ents[k].start, ents[k].end);
    }
  }

  /** A run of term ids names each term once. */
  lemma TargetIdsDistinct(start: nat, end: nat)
    ensures Distinct(TargetIds(start, end))
  {
    var ts := TargetIds(start, end);
    forall a, b | 0 <= a < b < |ts| ensures ts[a] != ts[b] {
      ElementIdInjective(TERM_PREFIX, TERM_PREFIX, start + a, start + b);
    }
  }

  /** Chunk `k` is `ch{k+1}`, headed by its root's term, labelled with its
      phrase type, and spans the terms of tokens `start .. end-1` in order;
      chunk ids are pairwise distinct. */
  lemma ChunkShape(doc: Doc, mapUdpos: bool, k: nat)
    requires TokensIndexed(Tokens(doc.sents))
    requires k < |doc.chunks|
    requires doc.chunks[k].start <= doc.chunks[k].end <= |Tokens(doc.sents)| && doc.chunks[k].root < |Tokens(doc.sents)|
    ensures var c := ExtractChunks(doc.chunks)[k];
            var span := doc.chunks[k];
            var terms := TermElements(doc.sents, mapUdpos);
            && c.id == ChunkId(k) && c.phrase == span.phrase
            && c.head == terms[span.root].id
            && |c.span| == span.end - span.start
            && forall j :: 0 <= j < |c.span| ==> c.span[j] == terms[span.start + j].id
    ensures forall a :: 0 <= a < |doc.chunks| && a != k ==> ExtractChunks(doc.chunks)[a].id != ExtractChunks(doc.chunks)[k].id
  {
    var span := doc.chunks[k];
    var terms := TermElements(doc.sents, mapUdpos);
    var c := ExtractChunks(doc.chunks)[k];
    assert c.span == TargetIds(span.start, span.end);
    ElementsAt(doc.sents, mapUdpos, span.root);
    forall j | 0 <= j < |c.span| ensures c.span[j] == terms[span.start + j].id {
      ElementsAt(doc.sents, mapUdpos, span.start + j);
    }
    forall a | 0 <= a < |doc.chunks| && a != k ensures ChunkId(a) != ChunkId(k) {
      ElementIdInjective(CHUNK_PREFIX, CHUNK_PREFIX, a, k);
    }
  }

  // ---------------------------------------------------------------------
  // The NAF document and the converter.

  datatype Layer =
    | TextLayer(wfs: seq<Wf>)
    | TermsLayer(terms: seq<Term>)
    | DepsLayer(deps: seq<Dep>)
    | EntitiesLayer(entities: seq<Entity>)
    | ChunksLayer(chunks: seq<Chunk>)
  {
    function Name(): string {
      match this
      case TextLayer(_) => "text"
      case TermsLayer(_) => "terms"
      case DepsLayer(_) => "deps"
      case EntitiesLayer(_) => "entities"
      case ChunksLayer(_) => "chunks"
    }

    /** Position of the layer kind in the order `convert` adds them. */
    function Rank(): nat {
      match this
      case TextLayer(_) => 0
      case TermsLayer(_) => 1
      case DepsLayer(_) => 2
      case EntitiesLayer(_) => 3
      case ChunksLayer(_) => 4
    }
  }

  lemma AppendAssoc<T>(a: seq<T>, b: seq<T>, c: seq<T>)
    ensures a + b + c == a + (b + c)
  {
  }

  function Names(layers: seq<Layer>): seq<string> {
    seq(|layers|, k requires 0 <= k < |layers| => layers[k].Name())
  }

  lemma NamesConcat(a: seq<Layer>, b: seq<Layer>)
    ensures Names(a + b) == Names(a) + Names(b)
  {
  }

  /** A NAF document as far as the converter touches it: the layers added
      so far, and the layers a linguistic-processor record was added for. */
  class NafDocument {
    var layers: seq<Layer>
    var processors: seq<string>

    constructor ()
      ensures layers == [] && processors == []
    {
      layers := [];
      processors := [];
    }
  }

  class Converter {
    const addTerms: bool
    const addDeps: bool
    const addEntities: bool
    const addChunks: bool
    const mapUdpos: bool

    constructor (addTerms: bool, addDeps: bool, addEntities: bool, addChunks: bool, mapUdpos: bool)
      ensures this.addTerms == addTerms && this.addDeps == addDeps && this.addEntities == addEntities
      ensures this.addChunks == addChunks && this.mapUdpos == mapUdpos
    {
      this.addTerms := addTerms;
      this.addDeps := addDeps;
      this.addEntities := addEntities;
      this.addChunks := addChunks;
      this.mapUdpos := mapUdpos;
    }

    /** The layers `convert` adds, in order. `nounChunksTruthy` stands for the
        truth value of the library's `doc.noun_chunks`. */
    function Plan(doc: Doc, nounChunksTruthy: bool): seq<Layer> {
      [TextLayer(TextElements(doc.sents))]
      + When(addTerms, TermsLayer(TermElements(doc.sents, mapUdpos)))
      + When(addDeps, DepsLayer(DepElements(Tokens(doc.sents))))
      + When(addEntities && |doc.ents| > 0, EntitiesLayer(ExtractEntities(doc.ents)))
      + When(addChunks && nounChunksTruthy, ChunksLayer(ExtractChunks(doc.chunks)))
    }

    /** The names of the planned layers, in order. */
    lemma PlanNames(doc: Doc, nounChunksTruthy: bool)
      ensures Names(Plan(doc, nounChunksTruthy))
                == ["text"]
                   + (if addTerms then ["terms"] else [])
                   + (if addDeps then ["deps"] else [])
                   + (if addEntities && |doc.ents| > 0 then ["entities"] else [])
                   + (if addChunks && nounChunksTruthy then ["chunks"] else [])
    {
      var x := [TextLayer(TextElements(doc.sents))];
      var t := When(addTerms, TermsLayer(TermElements(doc.sents, mapUdpos)));
      var d := When(addDeps, DepsLayer(DepElements(Tokens(doc.sents))));
      var e := When(addEntities && |doc.ents| > 0, EntitiesLayer(ExtractEntities(doc.ents)));
      var c := When(addChunks && nounChunksTruthy, ChunksLayer(ExtractChunks(doc.chunks)));
      assert Names(x) == ["text"];
      NamesWhen(addTerms, TermsLayer(TermElements(doc.sents, mapUdpos)));
      NamesWhen(addDeps, DepsLayer(DepElements(Tokens(doc.sents))));
      NamesWhen(addEntities && |doc.ents| > 0, EntitiesLayer(ExtractEntities(doc.ents)));
      NamesWhen(addChunks && nounChunksTruthy, ChunksLayer(ExtractChunks(doc.chunks)));
      NamesConcat(x, t);
      NamesConcat(x + t, d);
      NamesConcat(x + t + d, e);
      NamesConcat(x + t + d + e, c);
    }

    /** The text layer is always added first; every other layer is added
        exactly when its flag is set (the entity layer only for a document
        with entities). */
    lemma PlanShape(doc: Doc, nounChunksTruthy: bool)
      ensures |Plan(doc, nounChunksTruthy)| >= 1
      ensures Plan(doc, nounChunksTruthy)[0] == TextLayer(TextElements(doc.sents))
      ensures "terms" in Names(Plan(doc, nounChunksTruthy)) <==> addTerms
      ensures "deps" in Names(Plan(doc, nounChunksTruthy)) <==> addDeps
      ensures "entities" in Names(Plan(doc, nounChunksTruthy)) <==> addEntities && |doc.ents| > 0
      ensures "chunks" in Names(Plan(doc, nounChunksTruthy)) <==> addChunks && nounChunksTruthy
    {
      PlanNames(doc, nounChunksTruthy);
      var t: seq<string> := if addTerms then ["terms"] else [];
      var d: seq<string> := if addDeps then ["deps"] else [];
      var e: seq<string> := if addEntities && |doc.ents| > 0 then ["entities"] else [];
      var c: seq<string> := if addChunks && nounChunksTruthy then ["chunks"] else [];
      var n := ["text"] + t + d + e + c;
      assert Names(Plan(doc, nounChunksTruthy)) == n;
      forall w | w in n ensures w == "text" || w in t || w in d || w in e || w in c {
      }
      assert "terms" != "text" && "terms" != "deps" && "terms" != "entities" && "terms" != "chunks";
      assert "deps" != "text" && "deps" != "entities" && "deps" != "chunks";
      assert "entities" != "text" && "entities" != "chunks" && "chunks" != "text";
    }

    /** The layers come in the fixed order text, terms, deps, entities,
        chunks, so no kind is added twice. */
    lemma PlanOrdered(doc: Doc, nounChunksTruthy: bool)
      ensures var p := Plan(doc, nounChunksTruthy);
              forall a, b :: 0 <= a < b < |p| ==> p[a].Rank() < p[b].Rank()
    {
      RanksOrdered([TextLayer(TextElements(doc.sents))],
                   When(addTerms, TermsLayer(TermElements(doc.sents, mapUdpos))),
                   When(addDeps, DepsLayer(DepElements(Tokens(doc.sents)))),
                   When(addEntities && |doc.ents| > 0, EntitiesLayer(ExtractEntities(doc.ents))),
                   When(addChunks && nounChunksTruthy, ChunksLayer(ExtractChunks(doc.chunks))));
    }

    /** Five groups of at most one layer each, of ranks 0 to 4, concatenate
        into a strictly rank-ordered sequence. */
    static lemma RanksOrdered(x: seq<Layer>, t: seq<Layer>, d: seq<Layer>, e: seq<Layer>, c: seq<Layer>)
      requires |x| == 1 && |t| <= 1 && |d| <= 1 && |e| <= 1 && |c| <= 1
      requires x[0].Rank() == 0
      requires |t| == 1 ==> t[0].Rank() == 1
      requires |d| == 1 ==> d[0].Rank() == 2
      requires |e| == 1 ==> e[0].Rank() == 3
      requires |c| == 1 ==> c[0].Rank() == 4
      ensures var p := x + t + d + e + c;
              forall a, b :: 0 <= a < b < |p| ==> p[a].Rank() < p[b].Rank()
    {
      var p := x + t + d + e + c;
      forall a | 0 <= a < |p| ensures p[a].Rank() == StepRank(|t|, |d|, |e|, a) {
        if a == 0 {
        } else if a <= |t| {
          assert p[a] == t[a - 1];
        } else if a <= |t| + |d| {
          assert p[a] == d[a - 1 - |t|];
        } else if a <= |t| + |d| + |e| {
          assert p[a] == e[a - 1 - |t| - |d|];
        } else {
          assert p[a] == c[a - 1 - |t| - |d| - |e|];
        }
      }
    }

    /** `[layer]` when `cond` holds, nothing otherwise. */
    static function When(cond: bool, layer: Layer): (r: seq<Layer>)
      ensures |r| <= 1 && (r == [] <==> !cond) && (cond ==> r[0] == layer)
    {
      if cond then [layer] else []
    }

    static lemma NamesWhen(cond: bool, layer: Layer)
      ensures Names(When(cond, layer)) == if cond then [layer.Name()] else []
    {
      if cond {
        assert Names([layer])[0] == layer.Name();
      }
    }

    /** The rank of the layer at position `a` of a plan with the given
        numbers (0 or 1) of terms, deps and entities layers. */
    static function StepRank(nt: nat, nd: nat, ne: nat, a: nat): nat {
      if a == 0 then 0
      else if a <= nt then 1
      else if a <= nt + nd then 2
      else if a <= nt + nd + ne then 3
      else 4
    }

    method AddLayer(naf: NafDocument, layer: Layer)
      modifies naf
      ensures naf.layers == old(naf.layers) + [layer]
      ensures naf.processors == old(naf.processors) + [layer.Name()]
    {
      naf.layers := naf.layers + [layer];
      naf.processors := naf.processors + [layer.Name()];
    }

    method AddTextLayer(doc: Doc, naf: NafDocument)
      modifies naf
      ensures naf.layers == old(naf.layers) + [TextLayer(TextElements(doc.sents))]
      ensures naf.processors == old(naf.processors) + ["text"]
    {
      var wfs := ExtractText(doc);
      AddLayer(naf, TextLayer(wfs));
    }

    method AddTermsLayer(doc: Doc, naf: NafDocument)
      modifies naf
      ensures naf.layers == old(naf.layers) + [TermsLayer(TermElements(doc.sents, mapUdpos))]
      ensures naf.processors == old(naf.processors) + ["terms"]
    {
      var terms := ExtractTerms(doc, mapUdpos);
      AddLayer(naf, TermsLayer(terms));
    }

    method AddDepsLayer(doc: Doc, naf: NafDocument)
      modifies naf
      ensures naf.layers == old(naf.layers) + [DepsLayer(DepElements(Tokens(doc.sents)))]
      ensures naf.processors == old(naf.processors) + ["deps"]
    {
      var deps := ExtractDeps(doc);
      AddLayer(naf, DepsLayer(deps));
    }

    /** Adds the entity layer only when the document has entities. */
    method AddEntitiesLayer(doc: Doc, naf: NafDocument)
      modifies naf
      ensures |doc.ents| > 0 ==> naf.layers == old(naf.layers) + [EntitiesLayer(ExtractEntities(doc.ents))]
      ensures |doc.ents| > 0 ==> naf.processors == old(naf.processors) + ["entities"]
      ensures |doc.ents| == 0 ==> naf.layers == old(naf.layers) && naf.processors == old(naf.processors)
    {
      if |doc.ents| > 0 {
        AddLayer(naf, EntitiesLayer(ExtractEntities(doc.ents)));
      }
    }

    method AddChunksLayer(doc: Doc, naf: NafDocument, nounChunksTruthy: bool)
      modifies naf
      ensures nounChunksTruthy ==> naf.layers == old(naf.layers) + [ChunksLayer(ExtractChunks(doc.chunks))]
      ensures nounChunksTruthy ==> naf.processors == old(naf.processors) + ["chunks"]
      ensures !nounChunksTruthy ==> naf.layers == old(naf.layers) && naf.processors == old(naf.processors)
    {
      if nounChunksTruthy {
        AddLayer(naf, ChunksLayer(ExtractChunks(doc.chunks)));
      }
    }

    /** Adds the planned layers to `naf`, each with its processor record. */
    method Convert(doc: Doc, naf: NafDocument, nounChunksTruthy: bool)
      modifies naf
      ensures naf.layers == old(naf.layers) + Plan(doc, nounChunksTruthy)
      ensures naf.processors == old(naf.processors) + Names(Plan(doc, nounChunksTruthy))
    {
      ghost var l0, n0 := naf.layers, naf.processors;
      ghost var t := When(addTerms, TermsLayer(TermElements(doc.sents, mapUdpos)));
      ghost var d := When(addDeps, DepsLayer(DepElements(Tokens(doc.sents))));
      ghost var e := When(addEntities && |doc.ents| > 0, EntitiesLayer(ExtractEntities(doc.ents)));
      ghost var c := When(addChunks && nounChunksTruthy, ChunksLayer(ExtractChunks(doc.chunks)));
      ghost var nt: seq<string> := if addTerms then ["terms"] else [];
      ghost var nd: seq<string> := if addDeps then ["deps"] else [];
      ghost var ne: seq<string> := if addEntities && |doc.ents| > 0 then ["entities"] else [];
      ghost var nc: seq<string> := if addChunks && nounChunksTruthy then ["chunks"] else [];
      ghost var p := [TextLayer(TextElements(doc.sents))];
      ghost var q := ["text"];
      AddTextLayer(doc, naf);
      assert naf.layers == l0 + p && naf.processors == n0 + q;
      if addTerms {
        AddTermsLayer(doc, naf);
      }
      AppendAssoc(l0, p, t);
      AppendAssoc(n0, q, nt);
      p, q := p + t, q + nt;
      assert naf.layers == l0 + p && naf.processors == n0 + q;
      if addDeps {
        AddDepsLayer(doc, naf);
      }
      AppendAssoc(l0, p, d);
      AppendAssoc(n0, q, nd);
      p, q := p + d, q + nd;
      assert naf.layers == l0 + p && naf.processors == n0 + q;
      if addEntities {
        AddEntitiesLayer(doc, naf);
      }
      AppendAssoc(l0, p, e);
      AppendAssoc(n0, q, ne);
      p, q := p + e, q + ne;
      assert naf.layers == l0 + p && naf.processors == n0 + q;
      if addChunks {
        AddChunksLayer(doc, naf, nounChunksTruthy);
      }
      AppendAssoc(l0, p, c);
      AppendAssoc(n0, q, nc);
      p, q := p + c, q + nc;
      assert naf.layers == l0 + p && naf.processors == n0 + q;
      PlanNames(doc, nounChunksTruthy);
    }
  }
}
