/** The legacy single-pass builder (`spacy_to_naf.py`): one forward scan over
    the sentences that numbers words and terms with a global 0-based counter,
    recognises entities with a two-state machine driven by a cursor over the
    entity spans, and collects, per sentence, the de-duplicated dependency
    edges met while walking from every token up to its root. */
module Legacy {
  import opened Decimal
  import opened Pipeline

  // ---------------------------------------------------------------------
  // Records appended to the four output layers.

  /** An entity as the `entities` generator yields it: `end` is inclusive. */
  datatype Entity = Entity(start: nat, end: int, entityType: string)

  datatype WfElement = WfElement(sent: string, wid: string, length: string, wordform: string, offset: string)

  datatype TermElement = TermElement(tid: string, lemmaForm: string, pos: string, morphofeat: string,
                                     targets: seq<string>, text: seq<string>)

  datatype EntityElement = EntityElement(eid: string, entityType: string, targets: seq<string>, text: seq<string>)

  datatype DependencyRelation = DependencyRelation(fromTerm: string, toTerm: string, rfunc: string,
                                                   fromOrth: string, toOrth: string)

  /** How `naf_from_doc` ends: with a tree, or with the exception raised by
      `next` on an empty entity generator, or with the one raised by reading
      `token_number` after an empty first sentence. */
  datatype Outcome = Built | StopIteration | UnboundLocalError

  // ---------------------------------------------------------------------
  // normalize_token_orth

  /** A newline token is written as "NEWLINE"; every other string is kept. */
  function NormalizeTokenOrth(orth: string): (r: string)
    ensures r == orth <==> orth != "\n"
    ensures r != "\n"
  {
    if orth == "\n" then "NEWLINE" else orth
  }

  lemma NormalizeIdempotent(orth: string)
    ensures NormalizeTokenOrth(NormalizeTokenOrth(orth)) == NormalizeTokenOrth(orth)
  {
  }

  /** Normalisation loses information only by merging "\n" with "NEWLINE". */
  lemma NormalizeCollisions(a: string, b: string)
    ensures NormalizeTokenOrth(a) == NormalizeTokenOrth(b) <==>
              a == b || (a == "\n" && b == "NEWLINE") || (a == "NEWLINE" && b == "\n")
  {
  }

  // ---------------------------------------------------------------------
  // The `entities` generator

  /** What the generator yields, in document order: the span's start, its
      last token (`end - 1`), and its label. */
  function Entities(ents: seq<EntSpan>): (r: seq<Entity>)
    ensures |r| == |ents|
  {
    seq(|ents|, c requires 0 <= c < |ents| => Entity(ents[c].start, ents[c].end - 1, ents[c].entityType))
  }

  /** The inclusive end covers exactly the tokens of the exclusive span. */
  lemma EntitiesCover(ents: seq<EntSpan>, c: nat, x: int)
    requires c < |ents|
    ensures Entities(ents)[c].start == ents[c].start && Entities(ents)[c].entityType == ents[c].entityType
    ensures Entities(ents)[c].start <= x <= Entities(ents)[c].end <==> ents[c].start <= x < ents[c].end
  {
  }

  // ---------------------------------------------------------------------
  // dependencies_to_add

  /** The edge from token `k`'s head to `k`, named by the tokens' `i`. */
  function DirectEdge(toks: seq<Token>, k: nat): (r: DependencyRelation)
    requires HeadsInRange(toks) && k < |toks|
    ensures r.fromTerm == r.toTerm <==> toks[toks[k].head].i == toks[k].i
  {
    var h := toks[k].head;
    PrefixedDecInjective("t", "t", toks[h].i, toks[k].i);
    DependencyRelation("t" + Dec(toks[h].i), "t" + Dec(toks[k].i), toks[k].dep,
                       NormalizeTokenOrth(toks[h].text), NormalizeTokenOrth(toks[k].text))
  }

  /** The edges met walking from token `k` up to its root, one per hop. */
  function Chain(toks: seq<Token>, k: nat): (r: seq<DependencyRelation>)
    requires HeadChainsRooted(toks) && k < |toks|
    ensures |r| == Depth(toks, k)
    decreases Depth(toks, k)
  {
    DepthStep(toks, k);
    if toks[k].head == k then [] else [DirectEdge(toks, k)] + Chain(toks, toks[k].head)
  }

  /** A root yields no edge; otherwise the first edge is the token's own, and
      each later edge starts from the head the previous one came from. */
  lemma ChainShape(toks: seq<Token>, k: nat)
    requires HeadChainsRooted(toks) && k < |toks|
    ensures Chain(toks, k) == [] <==> toks[k].head == k
    ensures toks[k].head != k ==> Chain(toks, k)[0] == DirectEdge(toks, k)
    ensures forall j :: 0 <= j < |Chain(toks, k)| - 1 ==> Chain(toks, k)[j + 1].toTerm == Chain(toks, k)[j].fromTerm
  {
    DepthStep(toks, k);
    if toks[k].head != k {
      ChainLinked(toks, k);
    }
  }

  lemma {:induction false} ChainLinked(toks: seq<Token>, k: nat)
    requires HeadChainsRooted(toks) && k < |toks|
    ensures forall j :: 0 <= j < |Chain(toks, k)| - 1 ==> Chain(toks, k)[j + 1].toTerm == Chain(toks, k)[j].fromTerm
    decreases Depth(toks, k)
  {
    DepthStep(toks, k);
    var h := toks[k].head;
    if h != k {
      ChainLinked(toks, h);
      DepthStep(toks, h);
      var r := Chain(toks, k);
      assert r == [DirectEdge(toks, k)] + Chain(toks, h);
      if toks[h].head != h {
        assert r[1] == DirectEdge(toks, h);
      }
      forall j | 0 < j < |r| - 1 ensures r[j + 1].toTerm == r[j].fromTerm {
        assert r[j] == Chain(toks, h)[j - 1] && r[j + 1] == Chain(toks, h)[j];
      }
    }
  }

  /** `dependencies_to_add(token)`: walks up the head chain, appending one edge per hop. */
  method DependenciesToAdd(toks: seq<Token>, k: nat) returns (deps: seq<DependencyRelation>)
    requires HeadChainsRooted(toks) && k < |toks|
    ensures deps == Chain(toks, k)
  {
    deps := [];
    var token: nat := k;
    while toks[token].head != token
      invariant token < |toks|
      invariant deps + Chain(toks, token) == Chain(toks, k)
      decreases Depth(toks, token)
    {
      DepthStep(toks, token);
      deps := deps + [DirectEdge(toks, token)];
      token := toks[token].head;
    }
  }

  // ---------------------------------------------------------------------
  // The per-sentence buffer: `if not dep_data in buffer: buffer.append(dep_data)`

  predicate NoDuplicates<T(==)>(s: seq<T>) {
    forall a, b :: 0 <= a < b < |s| ==> s[a] != s[b]
  }

  function AppendNew<T(==)>(buf: seq<T>, d: T): seq<T> {
    if d in buf then buf else buf + [d]
  }

  /** Offers the elements of `ds` to the buffer, in order. */
  function AddAllNew<T(==)>(buf: seq<T>, ds: seq<T>): seq<T>
    decreases |ds|
  {
    if ds == [] then buf else AppendNew(AddAllNew(buf, ds[..|ds| - 1]), ds[|ds| - 1])
  }

  /** Offering elements keeps the buffer free of duplicates, keeps what was
      there in its place, and adds exactly the offered elements that were
      missing. */
  lemma {:induction false} AddAllNewFacts<T>(buf: seq<T>, ds: seq<T>)
    ensures NoDuplicates(buf) ==> NoDuplicates(AddAllNew(buf, ds))
    ensures |buf| <= |AddAllNew(buf, ds)| && AddAllNew(buf, ds)[..|buf|] == buf
    ensures forall d :: d in AddAllNew(buf, ds) <==> d in buf || d in ds
    decreases |ds|
  {
    if ds != [] {
      var init := ds[..|ds| - 1];
      var last := ds[|ds| - 1];
      AddAllNewFacts(buf, init);
      var mid := AddAllNew(buf, init);
      assert ds == init + [last];
      if last !in mid {
        assert (mid + [last])[..|buf|] == mid[..|buf|];
      }
    }
  }

  /** The buffer after offering each list of `cs` in turn, starting empty. */
  function OfferAll<T(==)>(cs: seq<seq<T>>): seq<T>
    decreases |cs|
  {
    if cs == [] then [] else AddAllNew(OfferAll(cs[..|cs| - 1]), cs[|cs| - 1])
  }

  /** The buffer holds no duplicates, and holds exactly what was offered. */
  lemma {:induction false} OfferAllFacts<T>(cs: seq<seq<T>>, d: T)
    ensures NoDuplicates(OfferAll(cs))
    ensures d in OfferAll(cs) <==> exists i :: 0 <= i < |cs| && d in cs[i]
    decreases |cs|
  {
    if cs != [] {
      var init := cs[..|cs| - 1];
      OfferAllFacts(init, d);
      AddAllNewFacts(OfferAll(init), cs[|cs| - 1]);
      if exists i :: 0 <= i < |cs| && d in cs[i] {
        var i :| 0 <= i < |cs| && d in cs[i];
        if i < |cs| - 1 {
          assert d in init[i];
        }
      }
      if exists i :: 0 <= i < |init| && d in init[i] {
        var i :| 0 <= i < |init| && d in init[i];
        assert d in cs[i];
      }
    }
  }

  /** The head chains of the first `j` tokens of the sentence starting at `base`. */
  function SentenceChains(toks: seq<Token>, base: nat, j: nat): (r: seq<seq<DependencyRelation>>)
    requires HeadChainsRooted(toks) && base + j <= |toks|
    ensures |r| == j && forall i :: 0 <= i < j ==> r[i] == Chain(toks, base + i)
  {
    seq(j, i requires 0 <= i < j => Chain(toks, base + i))
  }

  /** The buffer of a sentence whose first token is `base`, after its first `j` tokens. */
  function BufferUpTo(toks: seq<Token>, base: nat, j: nat): seq<DependencyRelation>
    requires HeadChainsRooted(toks) && base + j <= |toks|
  {
    OfferAll(SentenceChains(toks, base, j))
  }

  /** Scanning one more token offers its head chain to the buffer. */
  lemma BufferStep(toks: seq<Token>, base: nat, j: nat)
    requires HeadChainsRooted(toks) && base + j < |toks|
    ensures BufferUpTo(toks, base, j + 1) == AddAllNew(BufferUpTo(toks, base, j), Chain(toks, base + j))
  {
    var cs := SentenceChains(toks, base, j + 1);
    assert cs[..j] == SentenceChains(toks, base, j);
    assert OfferAll(cs) == AddAllNew(OfferAll(cs[..j]), cs[j]);
  }

  /** `d` lies on the head chain of one of the tokens `base .. base+j-1`. */
  ghost predicate OnSentenceChain(toks: seq<Token>, base: nat, j: nat, d: DependencyRelation)
    requires HeadChainsRooted(toks) && base + j <= |toks|
  {
    exists k :: base <= k < base + j && d in Chain(toks, k)
  }

  /** A sentence buffer never holds an edge twice, and holds exactly the
      edges on the head chains of its tokens. */
  lemma BufferFacts(toks: seq<Token>, base: nat, j: nat)
    requires HeadChainsRooted(toks) && base + j <= |toks|
    ensures NoDuplicates(BufferUpTo(toks, base, j))
    ensures forall d :: d in BufferUpTo(toks, base, j) <==> OnSentenceChain(toks, base, j, d)
  {
    var cs := SentenceChains(toks, base, j);
    forall d ensures NoDuplicates(BufferUpTo(toks, base, j))
      ensures d in BufferUpTo(toks, base, j) <==> OnSentenceChain(toks, base, j, d)
    {
      OfferAllFacts(cs, d);
      if OnSentenceChain(toks, base, j, d) {
        var k :| base <= k < base + j && d in Chain(toks, k);
        assert d in cs[k - base];
      }
      if exists i :: 0 <= i < |cs| && d in cs[i] {
        var i :| 0 <= i < |cs| && d in cs[i];
        assert d in Chain(toks, base + i);
      }
    }
    OfferAllFacts(cs, DependencyRelation("", "", "", "", ""));
  }

  /** Every non-root token's own edge is in its sentence's buffer. */
  lemma BufferHasDirectEdges(toks: seq<Token>, base: nat, j: nat, k: nat)
    requires HeadChainsRooted(toks) && base + j <= |toks|
    requires base <= k < base + j && toks[k].head != k
    ensures DirectEdge(toks, k) in BufferUpTo(toks, base, j)
  {
    ChainShape(toks, k);
    BufferFacts(toks, base, j);
  }

  // ---------------------------------------------------------------------
  // The layers the scan produces, in closed form.

  /** The wf record of the `k`-th token of the document. */
  function WordOf(p: Pos, k: nat): WfElement {
    WfElement(Dec(p.sent + 1), "w" + Dec(k), Dec(|p.tok.text|), NormalizeTokenOrth(p.tok.text), Dec(p.tok.idx))
  }

  /** The term record of the `k`-th token of the document. */
  function TermOf(t: Token, k: nat): TermElement {
    TermElement("t" + Dec(k), t.lemmaForm, t.pos, t.tag, ["w" + Dec(k)], [NormalizeTokenOrth(t.text)])
  }

  function LegacyWords(sents: seq<seq<Token>>): seq<WfElement> {
    var st := Stream(sents);
    seq(|st|, k requires 0 <= k < |st| => WordOf(st[k], k))
  }

  function LegacyTerms(sents: seq<seq<Token>>): seq<TermElement> {
    var st := Stream(sents);
    seq(|st|, k requires 0 <= k < |st| => TermOf(st[k].tok, k))
  }

  /** The ids `t{a}` .. `t{b-1}`. */
  function TermRange(a: nat, b: nat): (r: seq<string>)
    ensures |r| == if a < b then b - a else 0
    decreases b
  {
    if b <= a then [] else TermRange(a, b - 1) + ["t" + Dec(b - 1)]
  }

  /** The normalised texts of tokens `a` .. `b-1`. */
  function OrthRange(toks: seq<Token>, a: nat, b: nat): (r: seq<string>)
    requires b <= |toks|
    ensures |r| == if a < b then b - a else 0
    decreases b
  {
    if b <= a then [] else OrthRange(toks, a, b - 1) + [NormalizeTokenOrth(toks[b - 1].text)]
  }

  function EntityElementOf(ents: seq<EntSpan>, toks: seq<Token>, c: nat): EntityElement
    requires c < |ents| && ents[c].end <= |toks|
  {
    EntityElement("e" + Dec(c), ents[c].entityType, TermRange(ents[c].start, ents[c].end),
                  OrthRange(toks, ents[c].start, ents[c].end))
  }

  function LegacyEntities(ents: seq<EntSpan>, toks: seq<Token>): seq<EntityElement>
    requires EntitySpansWellFormed(ents, |toks|)
  {
    seq(|ents|, c requires 0 <= c < |ents| => EntityElementOf(ents, toks, c))
  }

  /** The buffer of sentence `s` once all its tokens are scanned. */
  function SentenceBuffer(sents: seq<seq<Token>>, s: nat): seq<DependencyRelation>
    requires HeadChainsRooted(Tokens(sents)) && s < |sents|
  {
    SentenceFits(sents, s);
    BufferUpTo(Tokens(sents), Offset(sents, s), |sents[s]|)
  }

  /** The dependency layer after the first `s` sentences: their buffers, flushed in order. */
  function DepsUpTo(sents: seq<seq<Token>>, s: nat): seq<DependencyRelation>
    requires HeadChainsRooted(Tokens(sents)) && s <= |sents|
  {
    if s == 0 then [] else DepsUpTo(sents, s - 1) + SentenceBuffer(sents, s - 1)
  }

  /** Finishing sentence `s` appends its buffer to the dependency layer. */
  lemma DepsStep(sents: seq<seq<Token>>, s: nat)
    requires HeadChainsRooted(Tokens(sents)) && s < |sents|
    ensures Offset(sents, s) + |sents[s]| <= |Tokens(sents)|
    ensures DepsUpTo(sents, s + 1) == DepsUpTo(sents, s) + BufferUpTo(Tokens(sents), Offset(sents, s), |sents[s]|)
  {
    SentenceFits(sents, s);
  }

  lemma SentenceFits(sents: seq<seq<Token>>, s: nat)
    requires s < |sents|
    ensures Offset(sents, s) + |sents[s]| == Offset(sents, s + 1) <= |Tokens(sents)|
  {
    StreamLength(sents);
    OffsetMonotone(sents, s + 1, |sents|);
  }

  // ---------------------------------------------------------------------
  // Properties of the closed forms.

  /** Word `k` is `w{k}` and term `k` is `t{k}` (0-based), the term targets
      exactly that word, and the sentence number is 1-based. */
  lemma WordAndTermAt(sents: seq<seq<Token>>, s: nat, j: nat)
    requires s < |sents| && j < |sents[s]|
    ensures var k := Offset(sents, s) + j;
            && k < |LegacyWords(sents)| == |LegacyTerms(sents)| == |Tokens(sents)|
            && LegacyWords(sents)[k].wid == "w" + Dec(k)
            && LegacyTerms(sents)[k].tid == "t" + Dec(k)
            && LegacyTerms(sents)[k].targets == [LegacyWords(sents)[k].wid]
            && Parse(LegacyWords(sents)[k].sent) == s + 1
            && LegacyWords(sents)[k].wordform == NormalizeTokenOrth(sents[s][j].text)
            && Parse(LegacyWords(sents)[k].offset) == sents[s][j].idx
  {
    StreamAt(sents, s, j);
    ParseDec(s + 1);
    ParseDec(sents[s][j].idx);
  }

  /** Word ids are pairwise distinct, term ids are pairwise distinct, and no
      word id is a term id. */
  lemma LegacyIdsDistinct(sents: seq<seq<Token>>, a: nat, b: nat)
    requires a < |LegacyWords(sents)| && b < |LegacyWords(sents)|
    ensures |LegacyTerms(sents)| == |LegacyWords(sents)|
    ensures LegacyWords(sents)[a].wid == LegacyWords(sents)[b].wid <==> a == b
    ensures LegacyTerms(sents)[a].tid == LegacyTerms(sents)[b].tid <==> a == b
    ensures LegacyWords(sents)[a].wid != LegacyTerms(sents)[b].tid
  {
    PrefixedDecInjective("w", "w", a, b);
    PrefixedDecInjective("t", "t", a, b);
    PrefixedDecInjective("w", "t", a, b);
  }

  lemma {:induction false} TermRangeAt(a: nat, b: nat, j: nat)
    requires a + j < b
    ensures TermRange(a, b)[j] == "t" + Dec(a + j)
    decreases b
  {
    if a + j < b - 1 {
      TermRangeAt(a, b - 1, j);
    }
  }

  /** Entity `c` is `e{c}`, carries its span's label, and targets the terms
      of its tokens `start .. end-1` (its inclusive range), in order. */
  lemma EntityTargets(doc: Doc, c: nat)
    requires EntitySpansWellFormed(doc.ents, |Tokens(doc.sents)|) && c < |doc.ents|
    ensures var e := LegacyEntities(doc.ents, Tokens(doc.sents))[c];
            var g := Entities(doc.ents)[c];
            && e.eid == "e" + Dec(c) && e.entityType == g.entityType
            && |e.targets| == g.end - g.start + 1
            && forall j :: 0 <= j < |e.targets| ==> e.targets[j] == LegacyTerms(doc.sents)[g.start + j].tid
  {
    var span := doc.ents[c];
    var e := LegacyEntities(doc.ents, Tokens(doc.sents))[c];
    StreamLength(doc.sents);
    forall j | 0 <= j < |e.targets| ensures e.targets[j] == LegacyTerms(doc.sents)[span.start + j].tid {
      TermRangeAt(span.start, span.end, j);
    }
  }

  /** Entity ids are pairwise distinct. */
  lemma EntityIdsDistinct(doc: Doc, a: nat, b: nat)
    requires EntitySpansWellFormed(doc.ents, |Tokens(doc.sents)|) && a < |doc.ents| && b < |doc.ents|
    ensures var es := LegacyEntities(doc.ents, Tokens(doc.sents));
            es[a].eid == es[b].eid <==> a == b
  {
    PrefixedDecInjective("e", "e", a, b);
  }

  /** Each sentence's flushed edges are free of duplicates and include the
      own edge of each of its non-root tokens; the whole layer includes the
      own edge of every non-root token of the document. */
  lemma LegacyDepsComplete(sents: seq<seq<Token>>, k: nat)
    requires HeadChainsRooted(Tokens(sents)) && k < |Tokens(sents)|
    ensures forall s :: 0 <= s < |sents| ==> NoDuplicates(SentenceBuffer(sents, s))
    ensures Tokens(sents)[k].head != k ==> DirectEdge(Tokens(sents), k) in DepsUpTo(sents, |sents|)
  {
    var toks := Tokens(sents);
    forall s | 0 <= s < |sents| ensures NoDuplicates(SentenceBuffer(sents, s)) {
      SentenceFits(sents, s);
      BufferFacts(toks, Offset(sents, s), |sents[s]|);
    }
    if toks[k].head != k {
      var s := SentenceOf(sents, k);
      SentenceFits(sents, s);
      BufferHasDirectEdges(toks, Offset(sents, s), |sents[s]|, k);
      DepsUpToHas(sents, s, |sents|);
    }
  }

  lemma {:induction false} DepsUpToHas(sents: seq<seq<Token>>, s: nat, n: nat)
    requires HeadChainsRooted(Tokens(sents)) && s < n <= |sents|
    ensures forall d :: d in SentenceBuffer(sents, s) ==> d in DepsUpTo(sents, n)
    decreases n
  {
    if s < n - 1 {
      DepsUpToHas(sents, s, n - 1);
    }
  }

  /** In a well-indexed document every emitted edge links two terms of the term layer. */
  lemma LegacyDepsReferToTerms(doc: Doc, s: nat, d: DependencyRelation)
    requires DocWellFormed(doc) && s < |doc.sents| && d in SentenceBuffer(doc.sents, s)
    ensures exists a :: 0 <= a < |LegacyTerms(doc.sents)| && d.fromTerm == LegacyTerms(doc.sents)[a].tid
    ensures exists b :: 0 <= b < |LegacyTerms(doc.sents)| && d.toTerm == LegacyTerms(doc.sents)[b].tid
  {
    var sents := doc.sents;
    var toks := Tokens(sents);
    SentenceFits(sents, s);
    BufferFacts(toks, Offset(sents, s), |sents[s]|);
    assert OnSentenceChain(toks, Offset(sents, s), |sents[s]|, d);
    var k :| Offset(sents, s) <= k < Offset(sents, s) + |sents[s]| && d in Chain(toks, k);
    var m := ChainMember(toks, k, d);
    StreamLength(sents);
    DirectEdgeTerms(doc, m);
  }

  /** The own edge of a non-root token runs from its head's term to its own term. */
  lemma DirectEdgeTerms(doc: Doc, k: nat)
    requires DocWellFormed(doc) && k < |Tokens(doc.sents)| && Tokens(doc.sents)[k].head != k
    ensures k < |LegacyTerms(doc.sents)| && Tokens(doc.sents)[k].head < |LegacyTerms(doc.sents)|
    ensures DirectEdge(Tokens(doc.sents), k).toTerm == LegacyTerms(doc.sents)[k].tid
    ensures DirectEdge(Tokens(doc.sents), k).fromTerm == LegacyTerms(doc.sents)[Tokens(doc.sents)[k].head].tid
  {
    StreamLength(doc.sents);
  }

  /** Every edge on a head chain is the own edge of some token. */
  lemma {:induction false} ChainMember(toks: seq<Token>, k: nat, d: DependencyRelation) returns (m: nat)
    requires HeadChainsRooted(toks) && k < |toks| && d in Chain(toks, k)
    ensures m < |toks| && toks[m].head != m && d == DirectEdge(toks, m)
    decreases Depth(toks, k)
  {
    DepthStep(toks, k);
    if d == DirectEdge(toks, k) {
      m := k;
    } else {
      m := ChainMember(toks, toks[k].head, d);
    }
  }

  // ---------------------------------------------------------------------
  // naf_from_doc as a pure scan: the state the loop threads through, and
  // one function per step of lines 151-224.

  /** The word and term records built so far, and `term_number`. */
  datatype WordScan = WordScan(textLayer: seq<WfElement>, termsLayer: seq<TermElement>, termNumber: nat)

  /** The entity machine: the entity layer, the generator cursor (`cursor`
      items taken, the last one being `nextEntity`), whether an entity is
      being parsed, the term ids and texts collected for it, and
      `entity_number`. */
  datatype EntityScan = EntityScan(
    entitiesLayer: seq<EntityElement>,
    cursor: nat,
    nextEntity: Entity,
    parsingEntity: bool,
    currentEntity: seq<string>,
    currentEntityOrth: seq<string>,
    entityNumber: nat)

  /** Everything `naf_from_doc` updates while it scans: words and terms, the
      entity machine, the dependency layer and the per-sentence buffer. */
  datatype ScanState = ScanState(
    words: WordScan,
    entity: EntityScan,
    dependencyLayer: seq<DependencyRelation>,
    dependenciesForSentence: seq<DependencyRelation>)

  /** Lines 134-148: empty layers and buffers, the first entity taken. */
  function InitialState(gen: seq<Entity>): ScanState
    requires |gen| > 0
  {
    ScanState(WordScan([], [], 0), EntityScan([], 1, gen[0], false, [], [], 0), [], [])
  }

  /** Lines 155-156 and 164-166: parsing starts at the entity's first token,
      and while parsing each token's term id and text are collected. */
  function EnterStep(e: EntityScan, tokenNumber: nat, tid: string, orth: string): (r: EntityScan)
    ensures r.entitiesLayer == e.entitiesLayer && r.cursor == e.cursor && r.entityNumber == e.entityNumber
    ensures r.parsingEntity <==> e.parsingEntity || tokenNumber == e.nextEntity.start
    ensures r.parsingEntity ==> r.currentEntity == e.currentEntity + [tid]
  {
    if e.parsingEntity || tokenNumber == e.nextEntity.start then
      e.(parsingEntity := true, currentEntity := e.currentEntity + [tid], currentEntityOrth := e.currentEntityOrth + [orth])
    else e
  }

  /** Lines 158-189: the wf and term records of the token; the term targets its word only. */
  function WordStep(w: WordScan, sentenceNumber: nat, tokenNumber: nat, token: Token): (r: WordScan)
    ensures r.termNumber == w.termNumber + 1
    ensures |r.textLayer| == |w.textLayer| + 1 && r.textLayer[..|w.textLayer|] == w.textLayer
    ensures |r.termsLayer| == |w.termsLayer| + 1 && r.termsLayer[..|w.termsLayer|] == w.termsLayer
    ensures r.termsLayer[|w.termsLayer|].targets == [r.textLayer[|w.textLayer|].wid]
  {
    var wid := "w" + Dec(tokenNumber);
    var orth := NormalizeTokenOrth(token.text);
    WordScan(w.textLayer + [WfElement(Dec(sentenceNumber), wid, Dec(|token.text|), orth, Dec(token.idx))],
             w.termsLayer + [TermElement("t" + Dec(w.termNumber), token.lemmaForm, token.pos, token.tag, [wid], [orth])],
             w.termNumber + 1)
  }

  /** Lines 191-214: at the entity's last token the entity is emitted, the
      buffers cleared, and the next item taken from the generator if there
      is one (the exhaustion is swallowed). */
  function CloseStep(e: EntityScan, gen: seq<Entity>, tokenNumber: nat): (r: EntityScan)
    ensures |r.entitiesLayer| == |e.entitiesLayer| + (if e.parsingEntity && tokenNumber == e.nextEntity.end then 1 else 0)
    ensures r.entitiesLayer[..|e.entitiesLayer|] == e.entitiesLayer
    ensures e.cursor <= |gen| ==> r.cursor <= |gen|
  {
    if e.parsingEntity && tokenNumber == e.nextEntity.end then
      var emitted := EntityElement("e" + Dec(e.entityNumber), e.nextEntity.entityType, e.currentEntity,
                                   e.currentEntityOrth);
      EntityScan(e.entitiesLayer + [emitted],
                 if e.cursor < |gen| then e.cursor + 1 else e.cursor,
                 if e.cursor < |gen| then gen[e.cursor] else e.nextEntity,
                 false, [], [], e.entityNumber + 1)
    else e
  }

  /** Lines 155-219 for the document's `tokenNumber`-th token. */
  function TokenStep(st: ScanState, gen: seq<Entity>, toks: seq<Token>, sentenceNumber: nat, tokenNumber: nat,
                     token: Token): (r: ScanState)
    requires HeadChainsRooted(toks) && tokenNumber < |toks|
    ensures r.dependencyLayer == st.dependencyLayer
    ensures r.words.termNumber == st.words.termNumber + 1
  {
    var entered := EnterStep(st.entity, tokenNumber, "t" + Dec(st.words.termNumber), NormalizeTokenOrth(token.text));
    ScanState(WordStep(st.words, sentenceNumber, tokenNumber, token),
              CloseStep(entered, gen, tokenNumber),
              st.dependencyLayer,
              AddAllNew(st.dependenciesForSentence, Chain(toks, tokenNumber)))
  }

  /** The words and terms of the first `j` tokens of a sentence whose first
      token is the document's `first`-th. */
  function WordsScan(w: WordScan, sentence: seq<Token>, sentenceNumber: nat, first: nat, j: nat): WordScan
    requires j <= |sentence|
    decreases j, 0
  {
    if j == 0 then w else LastWordScan(w, sentence, sentenceNumber, first, j)
  }

  /** The `j`-th token's word and term after those of the first `j - 1`. */
  function LastWordScan(w: WordScan, sentence: seq<Token>, sentenceNumber: nat, first: nat, j: nat): WordScan
    requires 0 < j <= |sentence|
    decreases j - 1, 1
  {
    WordStep(WordsScan(w, sentence, sentenceNumber, first, j - 1), sentenceNumber, first + j - 1, sentence[j - 1])
  }

  /** The entity machine over the first `j` tokens of a sentence, the first
      of them having term number `termBase`. */
  function EntitiesScan(e: EntityScan, gen: seq<Entity>, sentence: seq<Token>, termBase: nat, first: nat, j: nat)
    : EntityScan
    requires j <= |sentence|
    decreases j, 0
  {
    if j == 0 then e else LastEntityScan(e, gen, sentence, termBase, first, j)
  }

  /** The entity machine at the `j`-th token after the first `j - 1`. */
  function LastEntityScan(e: EntityScan, gen: seq<Entity>, sentence: seq<Token>, termBase: nat, first: nat, j: nat)
    : EntityScan
    requires 0 < j <= |sentence|
    decreases j - 1, 1
  {
    var entered := EnterStep(EntitiesScan(e, gen, sentence, termBase, first, j - 1), first + j - 1,
                             "t" + Dec(termBase + j - 1), NormalizeTokenOrth(sentence[j - 1].text));
    CloseStep(entered, gen, first + j - 1)
  }

  /** The sentence buffer after offering the head chains of tokens `first .. first+j-1`. */
  function BuffersScan(buf: seq<DependencyRelation>, toks: seq<Token>, first: nat, j: nat): seq<DependencyRelation>
    requires HeadChainsRooted(toks) && first + j <= |toks|
    decreases j, 0
  {
    if j == 0 then buf else LastBufferScan(buf, toks, first, j)
  }

  /** The buffer after offering the `j`-th token's chain. */
  function LastBufferScan(buf: seq<DependencyRelation>, toks: seq<Token>, first: nat, j: nat): seq<DependencyRelation>
    requires HeadChainsRooted(toks) && 0 < j && first + j <= |toks|
    decreases j - 1, 1
  {
    AddAllNew(BuffersScan(buf, toks, first, j - 1), Chain(toks, first + j - 1))
  }

  /** The first `j` tokens of a sentence whose first token is the document's
      `first`-th: each part of the state runs its own steps. */
  function TokensScan(st: ScanState, gen: seq<Entity>, toks: seq<Token>, sentence: seq<Token>, sentenceNumber: nat,
                      first: nat, j: nat): ScanState
    requires HeadChainsRooted(toks) && j <= |sentence| && first + j <= |toks|
  {
    ScanState(WordsScan(st.words, sentence, sentenceNumber, first, j),
              EntitiesScan(st.entity, gen, sentence, st.words.termNumber, first, j),
              st.dependencyLayer,
              BuffersScan(st.dependenciesForSentence, toks, first, j))
  }

  /** `term_number` counts the tokens scanned. */
  lemma {:induction false} WordsScanCount(w: WordScan, sentence: seq<Token>, sentenceNumber: nat, first: nat, j: nat)
    requires j <= |sentence|
    ensures WordsScan(w, sentence, sentenceNumber, first, j).termNumber == w.termNumber + j
    ensures |WordsScan(w, sentence, sentenceNumber, first, j).textLayer| == |w.textLayer| + j
    decreases j
  {
    if j > 0 {
      WordsScanCount(w, sentence, sentenceNumber, first, j - 1);
    }
  }

  /** Scanning one more token is one `TokenStep`: the split scan is the loop of lines 151-219. */
  lemma TokensScanStep(st: ScanState, gen: seq<Entity>, toks: seq<Token>, sentence: seq<Token>, sentenceNumber: nat,
                       first: nat, j: nat)
    requires HeadChainsRooted(toks) && j < |sentence| && first + j < |toks|
    ensures TokensScan(st, gen, toks, sentence, sentenceNumber, first, j + 1)
            == TokenStep(TokensScan(st, gen, toks, sentence, sentenceNumber, first, j), gen, toks, sentenceNumber,
                         first + j, sentence[j])
  {
    WordsScanCount(st.words, sentence, sentenceNumber, first, j);
    assert WordsScan(st.words, sentence, sentenceNumber, first, j + 1)
        == WordStep(WordsScan(st.words, sentence, sentenceNumber, first, j), sentenceNumber, first + j, sentence[j]);
    assert BuffersScan(st.dependenciesForSentence, toks, first, j + 1)
        == AddAllNew(BuffersScan(st.dependenciesForSentence, toks, first, j), Chain(toks, first + j));
    assert EntitiesScan(st.entity, gen, sentence, st.words.termNumber, first, j + 1)
        == LastEntityScan(st.entity, gen, sentence, st.words.termNumber, first, j + 1);
  }

  /** Lines 152-223: a fresh buffer, the tokens, then the buffer flushed to the layer. */
  function SentenceScan(st: ScanState, gen: seq<Entity>, toks: seq<Token>, sentence: seq<Token>, sentenceNumber: nat,
                        first: nat): ScanState
    requires HeadChainsRooted(toks) && first + |sentence| <= |toks|
  {
    var done := TokensScan(st.(dependenciesForSentence := []), gen, toks, sentence, sentenceNumber, first, |sentence|);
    done.(dependencyLayer := done.dependencyLayer + done.dependenciesForSentence)
  }

  /** The first `n` sentences, numbered from 1, their tokens numbered on across sentences. */
  function SentencesScan(st: ScanState, gen: seq<Entity>, toks: seq<Token>, sents: seq<seq<Token>>, n: nat): ScanState
    requires HeadChainsRooted(toks) && n <= |sents| && Offset(sents, n) <= |toks|
    decreases n, 0
  {
    if n == 0 then st else LastSentenceScan(st, gen, toks, sents, n)
  }

  /** The `n`-th sentence scanned after the first `n - 1`. */
  function LastSentenceScan(st: ScanState, gen: seq<Entity>, toks: seq<Token>, sents: seq<seq<Token>>, n: nat)
    : ScanState
    requires HeadChainsRooted(toks) && 0 < n <= |sents| && Offset(sents, n) <= |toks|
    decreases n - 1, 1
  {
    OffsetMonotone(sents, n - 1, n);
    SentenceScan(SentencesScan(st, gen, toks, sents, n - 1), gen, toks, sents[n - 1], n, Offset(sents, n - 1))
  }

  /** The state after the whole scan of a document that has entities. */
  function ScanDoc(doc: Doc): (r: ScanState)
    requires doc.ents != [] && HeadChainsRooted(Tokens(doc.sents))
    ensures r.words.textLayer == LegacyWords(doc.sents) && r.words.termsLayer == LegacyTerms(doc.sents)
  {
    var sents, gen := doc.sents, Entities(doc.ents);
    StreamLength(sents);
    SentencesScanWords(InitialState(gen), gen, Tokens(sents), sents, |sents|);
    assert LegacyWords(sents)[..|Tokens(sents)|] == LegacyWords(sents);
    assert LegacyTerms(sents)[..|Tokens(sents)|] == LegacyTerms(sents);
    SentencesScan(InitialState(gen), gen, Tokens(sents), sents, |sents|)
  }

  // ---------------------------------------------------------------------
  // What the scan keeps true.

  /** The word and term layers after `t` tokens, with `term_number == t`. */
  ghost predicate WordsDone(w: WordScan, sents: seq<seq<Token>>, t: nat) {
    && t <= |LegacyWords(sents)| && t <= |LegacyTerms(sents)|
    && w.termNumber == t
    && w.textLayer == LegacyWords(sents)[..t]
    && w.termsLayer == LegacyTerms(sents)[..t]
  }

  /** `nextEntity` is the last item taken from the generator. */
  ghost predicate CursorValid(e: EntityScan, gen: seq<Entity>) {
    1 <= e.cursor <= |gen| && e.nextEntity == gen[e.cursor - 1]
  }

  /** For well-formed spans: the entities before `entityNumber` are emitted. */
  ghost predicate EntitiesEmitted(e: EntityScan, ents: seq<EntSpan>, toks: seq<Token>) {
    && EntitySpansWellFormed(ents, |toks|) && |ents| > 0
    && e.entityNumber <= |ents|
    && e.entitiesLayer == LegacyEntities(ents, toks)[..e.entityNumber]
  }

  /** The entity machine before token `t` (with `seen == t`) or right after
      collecting it (with `seen == t + 1`): the entities ending before `t`
      are emitted, and the next one is being parsed exactly when its start
      is among the tokens seen, with their term ids and texts collected. */
  ghost predicate EntityMachine(e: EntityScan, ents: seq<EntSpan>, toks: seq<Token>, t: nat, seen: nat) {
    && EntitiesEmitted(e, ents, toks)
    && (e.entityNumber < |ents| ==>
          && t < ents[e.entityNumber].end
          && e.cursor == e.entityNumber + 1
          && e.parsingEntity == (ents[e.entityNumber].start < seen)
          && seen <= |toks|
          && e.currentEntity == TermRange(ents[e.entityNumber].start, seen)
          && e.currentEntityOrth == OrthRange(toks, ents[e.entityNumber].start, seen))
    && (e.entityNumber == |ents| ==>
          && e.cursor == |ents|
          && ents[|ents| - 1].end <= t
          && !e.parsingEntity)
  }

  /** The entity machine with its cursor, `t` tokens in. */
  ghost predicate EntityState(e: EntityScan, ents: seq<EntSpan>, toks: seq<Token>, t: nat) {
    CursorValid(e, Entities(ents)) && EntityMachine(e, ents, toks, t, t)
  }

  lemma EnterStepKeeps(e: EntityScan, ents: seq<EntSpan>, toks: seq<Token>, t: nat)
    requires t < |toks| && EntitySpansWellFormed(ents, |toks|)
    requires CursorValid(e, Entities(ents)) && EntityMachine(e, ents, toks, t, t)
    ensures EntityMachine(EnterStep(e, t, "t" + Dec(t), NormalizeTokenOrth(toks[t].text)), ents, toks, t, t + 1)
  {
  }

  lemma {:induction false} CloseStepKeeps(e: EntityScan, ents: seq<EntSpan>, toks: seq<Token>, t: nat)
    requires EntitySpansWellFormed(ents, |toks|)
    requires CursorValid(e, Entities(ents)) && EntityMachine(e, ents, toks, t, t + 1)
    ensures EntityState(CloseStep(e, Entities(ents), t), ents, toks, t + 1)
  {
    var gen := Entities(ents);
    if e.parsingEntity && t == e.nextEntity.end {
      var c := e.entityNumber;
      var r := CloseStep(e, gen, t);
      assert LegacyEntities(ents, toks)[..c + 1] == LegacyEntities(ents, toks)[..c] + [LegacyEntities(ents, toks)[c]];
      assert r.entitiesLayer == LegacyEntities(ents, toks)[..c + 1];
    }
  }

  /** One token keeps the entity machine: enter, then close. */
  lemma TokenEntityKeeps(e: EntityScan, ents: seq<EntSpan>, toks: seq<Token>, t: nat)
    requires t < |toks| && EntitySpansWellFormed(ents, |toks|)
    requires EntityState(e, ents, toks, t)
    ensures EntityState(CloseStep(EnterStep(e, t, "t" + Dec(t), NormalizeTokenOrth(toks[t].text)), Entities(ents), t),
                        ents, toks, t + 1)
  {
    EnterStepKeeps(e, ents, toks, t);
    CloseStepKeeps(EnterStep(e, t, "t" + Dec(t), NormalizeTokenOrth(toks[t].text)), ents, toks, t);
  }

  /** The word and term records of the `j`-th token of sentence `s`. */
  lemma WordAt(sents: seq<seq<Token>>, s: nat, j: nat)
    requires s < |sents| && j < |sents[s]|
    ensures var k := Offset(sents, s) + j;
            && k < |LegacyWords(sents)| == |LegacyTerms(sents)|
            && LegacyWords(sents)[k] == WordOf(Pos(s, sents[s][j]), k)
            && LegacyTerms(sents)[k] == TermOf(sents[s][j], k)
  {
    StreamAt(sents, s, j);
  }

  lemma TakeOneMore<T>(xs: seq<T>, t: nat)
    requires t < |xs|
    ensures xs[..t + 1] == xs[..t] + [xs[t]]
  {
  }

  lemma WordStepKeeps(w: WordScan, sents: seq<seq<Token>>, s: nat, j: nat)
    requires s < |sents| && j < |sents[s]|
    requires WordsDone(w, sents, Offset(sents, s) + j)
    ensures WordsDone(WordStep(w, s + 1, Offset(sents, s) + j, sents[s][j]), sents, Offset(sents, s) + j + 1)
  {
    var t := Offset(sents, s) + j;
    var r := WordStep(w, s + 1, t, sents[s][j]);
    var words, terms := LegacyWords(sents), LegacyTerms(sents);
    WordAt(sents, s, j);
    assert r.textLayer == w.textLayer + [words[t]];
    assert r.termsLayer == w.termsLayer + [terms[t]];
    TakeOneMore(words, t);
    TakeOneMore(terms, t);
  }

  /** The tokens of sentence `s` add their words and terms. */
  lemma {:induction false} WordsScanKeeps(w: WordScan, sents: seq<seq<Token>>, s: nat, j: nat)
    requires s < |sents| && j <= |sents[s]|
    requires WordsDone(w, sents, Offset(sents, s))
    ensures WordsDone(WordsScan(w, sents[s], s + 1, Offset(sents, s), j), sents, Offset(sents, s) + j)
    decreases j
  {
    if j > 0 {
      WordsScanKeeps(w, sents, s, j - 1);
      WordStepKeeps(WordsScan(w, sents[s], s + 1, Offset(sents, s), j - 1), sents, s, j - 1);
    }
  }

  /** From an empty buffer, the tokens of a sentence leave exactly their
      head chains offered in order. */
  lemma {:induction false} BuffersScanFromEmpty(toks: seq<Token>, first: nat, j: nat)
    requires HeadChainsRooted(toks) && first + j <= |toks|
    ensures BuffersScan([], toks, first, j) == BufferUpTo(toks, first, j)
    decreases j
  {
    if j > 0 {
      BuffersScanFromEmpty(toks, first, j - 1);
      BufferStep(toks, first, j - 1);
    }
  }

  /** The tokens of a sentence that sits at `first` in `toks` keep the
      entity machine. */
  lemma {:induction false} EntitiesScanKeeps(e: EntityScan, ents: seq<EntSpan>, toks: seq<Token>,
                                             sentence: seq<Token>, first: nat, j: nat)
    requires EntitySpansWellFormed(ents, |toks|)
    requires j <= |sentence| && first + j <= |toks|
    requires forall i | 0 <= i < |sentence| && first + i < |toks| :: sentence[i] == toks[first + i]
    requires EntityState(e, ents, toks, first)
    ensures EntityState(EntitiesScan(e, Entities(ents), sentence, first, first, j), ents, toks, first + j)
    decreases j
  {
    if j > 0 {
      EntitiesScanKeeps(e, ents, toks, sentence, first, j - 1);
      var t := first + j - 1;
      var prev := EntitiesScan(e, Entities(ents), sentence, first, first, j - 1);
      assert sentence[j - 1] == toks[t];
      assert EntitiesScan(e, Entities(ents), sentence, first, first, j)
             == CloseStep(EnterStep(prev, t, "t" + Dec(t), NormalizeTokenOrth(toks[t].text)), Entities(ents), t);
      TokenEntityKeeps(prev, ents, toks, t);
    }
  }

  /** Sentence `s` sits at its offset in the token stream. */
  lemma SentenceTokens(sents: seq<seq<Token>>, s: nat)
    requires s < |sents|
    ensures forall i | 0 <= i < |sents[s]| && Offset(sents, s) + i < |Tokens(sents)| ::
              sents[s][i] == Tokens(sents)[Offset(sents, s) + i]
  {
    forall i | 0 <= i < |sents[s]| && Offset(sents, s) + i < |Tokens(sents)|
      ensures sents[s][i] == Tokens(sents)[Offset(sents, s) + i]
    {
      StreamAt(sents, s, i);
    }
  }

  /** The parts of the state after the `n`-th sentence, each from its own scan. */
  lemma SentencesScanLast(st: ScanState, gen: seq<Entity>, toks: seq<Token>, sents: seq<seq<Token>>, n: nat)
    requires HeadChainsRooted(toks) && 0 < n <= |sents| && Offset(sents, n) <= |toks|
    ensures Offset(sents, n - 1) + |sents[n - 1]| == Offset(sents, n)
    ensures var prev, r := SentencesScan(st, gen, toks, sents, n - 1), SentencesScan(st, gen, toks, sents, n);
            var sentence, first := sents[n - 1], Offset(sents, n - 1);
            && r.words == WordsScan(prev.words, sentence, n, first, |sentence|)
            && r.entity == EntitiesScan(prev.entity, gen, sentence, prev.words.termNumber, first, |sentence|)
            && r.dependencyLayer == prev.dependencyLayer + BuffersScan([], toks, first, |sentence|)
  {
    OffsetMonotone(sents, n - 1, n);
  }

  /** After `n` sentences the word and term layers cover their tokens. */
  lemma {:induction false} SentencesScanWords(st: ScanState, gen: seq<Entity>, toks: seq<Token>,
                                              sents: seq<seq<Token>>, n: nat)
    requires HeadChainsRooted(toks) && n <= |sents| && Offset(sents, n) <= |toks|
    requires WordsDone(st.words, sents, 0)
    ensures WordsDone(SentencesScan(st, gen, toks, sents, n).words, sents, Offset(sents, n))
    decreases n
  {
    if n > 0 {
      SentencesScanWords(st, gen, toks, sents, n - 1);
      SentencesScanLast(st, gen, toks, sents, n);
      var prev := SentencesScan(st, gen, toks, sents, n - 1);
      WordsScanKeeps(prev.words, sents, n - 1, |sents[n - 1]|);
    }
  }

  /** After `n` sentences the dependency layer is their buffers, flushed in order. */
  lemma {:induction false} SentencesScanDeps(st: ScanState, gen: seq<Entity>, sents: seq<seq<Token>>, n: nat)
    requires HeadChainsRooted(Tokens(sents)) && n <= |sents| && Offset(sents, n) <= |Tokens(sents)|
    requires st.dependencyLayer == []
    ensures SentencesScan(st, gen, Tokens(sents), sents, n).dependencyLayer == DepsUpTo(sents, n)
    decreases n
  {
    if n > 0 {
      var toks := Tokens(sents);
      SentencesScanDeps(st, gen, sents, n - 1);
      SentencesScanLast(st, gen, toks, sents, n);
      DepsStep(sents, n - 1);
      BuffersScanFromEmpty(toks, Offset(sents, n - 1), |sents[n - 1]|);
    }
  }

  /** One sentence keeps the entity machine, its term numbers running on from `Offset(sents, s)`. */
  lemma SentenceScanEntities(prev: ScanState, ents: seq<EntSpan>, sents: seq<seq<Token>>, s: nat)
    requires HeadChainsRooted(Tokens(sents)) && EntitySpansWellFormed(ents, |Tokens(sents)|)
    requires s < |sents| && Offset(sents, s + 1) <= |Tokens(sents)|
    requires prev.words.termNumber == Offset(sents, s) && EntityState(prev.entity, ents, Tokens(sents), Offset(sents, s))
    ensures Offset(sents, s) + |sents[s]| == Offset(sents, s + 1)
    ensures var r := SentenceScan(prev, Entities(ents), Tokens(sents), sents[s], s + 1, Offset(sents, s));
            r.words.termNumber == Offset(sents, s + 1)
            && EntityState(r.entity, ents, Tokens(sents), Offset(sents, s + 1))
  {
    var sentence, first := sents[s], Offset(sents, s);
    OffsetMonotone(sents, s, s + 1);
    SentenceTokens(sents, s);
    WordsScanCount(prev.words, sentence, s + 1, first, |sentence|);
    EntitiesScanKeeps(prev.entity, ents, Tokens(sents), sentence, first, |sentence|);
  }

  /** After `n` sentences the entity machine holds at their last token. */
  lemma {:induction false} SentencesScanEntities(st: ScanState, ents: seq<EntSpan>, sents: seq<seq<Token>>, n: nat)
    requires HeadChainsRooted(Tokens(sents)) && EntitySpansWellFormed(ents, |Tokens(sents)|)
    requires n <= |sents| && Offset(sents, n) <= |Tokens(sents)|
    requires st.words.termNumber == 0 && EntityState(st.entity, ents, Tokens(sents), 0)
    ensures var r := SentencesScan(st, Entities(ents), Tokens(sents), sents, n);
            r.words.termNumber == Offset(sents, n) && EntityState(r.entity, ents, Tokens(sents), Offset(sents, n))
    decreases n
  {
    if n > 0 {
      OffsetMonotone(sents, n - 1, n);
      SentencesScanEntities(st, ents, sents, n - 1);
      SentenceScanEntities(SentencesScan(st, Entities(ents), Tokens(sents), sents, n - 1), ents, sents, n - 1);
    }
  }


  /** The scan of a document with entities produces the closed-form layers:
      one word and one term per token, the per-sentence buffers flushed in
      order, and, for well-formed spans, every entity. */
  lemma ScanDocLayers(doc: Doc)
    requires doc.ents != [] && HeadChainsRooted(Tokens(doc.sents))
    ensures ScanDoc(doc).words.textLayer == LegacyWords(doc.sents)
    ensures ScanDoc(doc).words.termsLayer == LegacyTerms(doc.sents)
    ensures ScanDoc(doc).dependencyLayer == DepsUpTo(doc.sents, |doc.sents|)
    ensures EntitySpansWellFormed(doc.ents, |Tokens(doc.sents)|) ==>
              ScanDoc(doc).entity.entitiesLayer == LegacyEntities(doc.ents, Tokens(doc.sents))
  {
    var sents := doc.sents;
    var toks := Tokens(sents);
    var gen := Entities(doc.ents);
    var st := InitialState(gen);
    StreamLength(sents);
    SentencesScanWords(st, gen, toks, sents, |sents|);
    SentencesScanDeps(st, gen, sents, |sents|);
    var r := ScanDoc(doc);
    assert LegacyWords(sents)[..|toks|] == LegacyWords(sents);
    assert LegacyTerms(sents)[..|toks|] == LegacyTerms(sents);
    if EntitySpansWellFormed(doc.ents, |toks|) {
      assert EntityState(st.entity, doc.ents, toks, 0);
      SentencesScanEntities(st, doc.ents, sents, |sents|);
      assert r.entity.entityNumber == |doc.ents|;
      assert LegacyEntities(doc.ents, toks)[..|doc.ents|] == LegacyEntities(doc.ents, toks);
    }
  }

  // ---------------------------------------------------------------------
  // naf_from_doc

  /** The NAF tree `naf_from_doc` builds, as its four layers, together with
      the variables of the scan. */
  class LegacyNaf {
    var textLayer: seq<WfElement>
    var termsLayer: seq<TermElement>
    var entitiesLayer: seq<EntityElement>
    var dependencyLayer: seq<DependencyRelation>

    /** The entity generator: what it yields, and how many items were taken. */
    var entityGen: seq<Entity>
    var cursor: nat
    var nextEntity: Entity
    var parsingEntity: bool
    var currentEntity: seq<string>
    var currentEntityOrth: seq<string>
    var currentToken: nat
    var termNumber: nat
    var entityNumber: nat
    var dependenciesForSentence: seq<DependencyRelation>

    constructor ()
      ensures textLayer == [] && termsLayer == [] && entitiesLayer == [] && dependencyLayer == []
    {
      textLayer, termsLayer, entitiesLayer, dependencyLayer := [], [], [], [];
      entityGen, cursor, nextEntity := [], 0, Entity(0, 0, "");
      parsingEntity, currentEntity, currentEntityOrth := false, [], [];
      currentToken, termNumber, entityNumber := 0, 0, 0;
      dependenciesForSentence := [];
    }

    /** The scan variables as one value. */
    function State(): ScanState
      reads this`textLayer, this`termsLayer, this`termNumber, this`entitiesLayer, this`cursor, this`nextEntity
      reads this`parsingEntity, this`currentEntity, this`currentEntityOrth, this`entityNumber
      reads this`dependencyLayer, this`dependenciesForSentence
    {
      ScanState(WordScan(textLayer, termsLayer, termNumber),
                EntityScan(entitiesLayer, cursor, nextEntity, parsingEntity, currentEntity, currentEntityOrth,
                           entityNumber),
                dependencyLayer, dependenciesForSentence)
    }

    /** `naf_from_doc(doc)`, lines 134-224. */
    method NafFromDoc(doc: Doc) returns (outcome: Outcome)
      requires HeadChainsRooted(Tokens(doc.sents))
      modifies this
      ensures outcome == StopIteration <==> doc.ents == []
      ensures outcome == UnboundLocalError <==> doc.ents != [] && |doc.sents| > 0 && doc.sents[0] == []
      ensures outcome == Built ==> State() == ScanDoc(doc)
    {
      var sents := doc.sents;
      CreateLayers();
      entityGen := Entities(doc.ents);
      if |entityGen| == 0 {
        return StopIteration;
      }
      StartBookkeeping();
      assert State() == InitialState(entityGen);
      var completed := ScanSentences(sents);
      if !completed {
        return UnboundLocalError;
      }
      assert State() == SentencesScan(InitialState(Entities(doc.ents)), Entities(doc.ents), Tokens(sents), sents, |sents|);
      return Built;
    }

    /** Lines 126-129: the four empty layers. */
    method CreateLayers()
      modifies this`textLayer, this`termsLayer, this`entitiesLayer, this`dependencyLayer
      ensures textLayer == [] && termsLayer == [] && entitiesLayer == [] && dependencyLayer == []
    {
      textLayer, termsLayer, entitiesLayer, dependencyLayer := [], [], [], [];
    }

    /** Lines 135-148: the first entity taken from the generator, the
        buffers empty and the counters at zero. */
    method StartBookkeeping()
      requires |entityGen| > 0
      modifies this`termNumber, this`entityNumber, this`currentToken, this`dependenciesForSentence
      modifies this`currentEntity, this`currentEntityOrth, this`parsingEntity, this`nextEntity, this`cursor
      ensures cursor == 1 && nextEntity == entityGen[0] && !parsingEntity
      ensures currentEntity == [] && currentEntityOrth == []
      ensures currentToken == 0 && termNumber == 0 && entityNumber == 0 && dependenciesForSentence == []
    {
      nextEntity, cursor := entityGen[0], 1;
      currentEntity, currentEntityOrth := [], [];
      currentToken, termNumber, entityNumber := 0, 0, 0;
      parsingEntity := false;
      dependenciesForSentence := [];
    }

    /** Lines 151-224: the sentences in order, numbered from 1, the token
        numbers running on across them. Fails (the `UnboundLocalError` of
        line 224) exactly when the first sentence has no token. */
    method ScanSentences(sents: seq<seq<Token>>) returns (completed: bool)
      requires HeadChainsRooted(Tokens(sents)) && currentToken == 0
      modifies this`textLayer, this`termsLayer, this`termNumber, this`entitiesLayer, this`entityNumber
      modifies this`currentEntity, this`currentEntityOrth, this`parsingEntity, this`nextEntity, this`cursor
      modifies this`dependenciesForSentence, this`dependencyLayer, this`currentToken
      ensures completed <==> !(|sents| > 0 && sents[0] == [])
      ensures completed ==> Offset(sents, |sents|) <= |Tokens(sents)|
                            && State() == SentencesScan(old(State()), entityGen, Tokens(sents), sents, |sents|)
    {
      StreamLength(sents);
      ghost var initial := State();
      var toks, gen := Tokens(sents), entityGen;
      var tokenNumber: Option<nat> := None;
      var s := 0;
      while s < |sents|
        invariant s <= |sents| && entityGen == gen
        invariant currentToken == Offset(sents, s) <= |toks|
        invariant s > 0 ==> sents[0] != [] && tokenNumber.Some? && tokenNumber.value + 1 == currentToken
        invariant s == 0 ==> tokenNumber == None
        invariant State() == SentencesScan(initial, gen, toks, sents, s)
      {
        SentenceFits(sents, s);
        ghost var pre := State();
        tokenNumber := ScanSentence(toks, sents[s], s + 1, tokenNumber);
        assert State() == SentenceScan(pre, gen, toks, sents[s], s + 1, Offset(sents, s));
        if tokenNumber.None? {
          return false;
        }
        currentToken := tokenNumber.value + 1;
        s := s + 1;
      }
      return true;
    }

    /** Lines 152-223 for the sentence numbered `sentenceNumber`: scan its
        tokens, numbering them on from `currentToken`, then flush the
        sentence's dependency buffer. Returns the last `token_number` bound,
        which is still the one passed in when the sentence is empty. */
    method ScanSentence(toks: seq<Token>, sentence: seq<Token>, sentenceNumber: nat, tokenNumber: Option<nat>)
      returns (lastNumber: Option<nat>)
      requires HeadChainsRooted(toks) && currentToken + |sentence| <= |toks|
      modifies this`textLayer, this`termsLayer, this`termNumber, this`entitiesLayer, this`entityNumber
      modifies this`currentEntity, this`currentEntityOrth, this`parsingEntity, this`nextEntity, this`cursor
      modifies this`dependenciesForSentence, this`dependencyLayer
      ensures State() == SentenceScan(old(State()), entityGen, toks, sentence, sentenceNumber, currentToken)
      ensures lastNumber == if sentence == [] then tokenNumber else Some(currentToken + |sentence| - 1)
    {
      dependenciesForSentence := [];
      lastNumber := ScanTokens(toks, sentence, sentenceNumber, tokenNumber);
      ghost var done := State();
      FlushSentence();
      assert State() == done.(dependencyLayer := done.dependencyLayer + done.dependenciesForSentence);
    }

    /** Lines 153-219: the tokens of one sentence, numbered on from `currentToken`. */
    method ScanTokens(toks: seq<Token>, sentence: seq<Token>, sentenceNumber: nat, tokenNumber: Option<nat>)
      returns (lastNumber: Option<nat>)
      requires HeadChainsRooted(toks) && currentToken + |sentence| <= |toks|
      modifies this`textLayer, this`termsLayer, this`termNumber, this`entitiesLayer, this`entityNumber
      modifies this`currentEntity, this`currentEntityOrth, this`parsingEntity, this`nextEntity, this`cursor
      modifies this`dependenciesForSentence
      ensures State() == TokensScan(old(State()), entityGen, toks, sentence, sentenceNumber, currentToken, |sentence|)
      ensures lastNumber == if sentence == [] then tokenNumber else Some(currentToken + |sentence| - 1)
    {
      ghost var start := State();
      var first, gen := currentToken, entityGen;
      lastNumber := tokenNumber;
      var j := 0;
      while j < |sentence|
        invariant j <= |sentence| && currentToken == first && entityGen == gen
        invariant lastNumber == if j == 0 then tokenNumber else Some(first + j - 1)
        invariant State() == TokensScan(start, gen, toks, sentence, sentenceNumber, first, j)
      {
        lastNumber := Some(first + j);
        ScanToken(toks, sentenceNumber, first + j, sentence[j]);
        TokensScanStep(start, gen, toks, sentence, sentenceNumber, first, j);
        j := j + 1;
      }
    }

    /** Lines 155-219 for the document's `tokenNumber`-th token. */
    method ScanToken(toks: seq<Token>, sentenceNumber: nat, tokenNumber: nat, token: Token)
      requires HeadChainsRooted(toks) && tokenNumber < |toks|
      modifies this`textLayer, this`termsLayer, this`termNumber, this`entitiesLayer, this`entityNumber
      modifies this`currentEntity, this`currentEntityOrth, this`parsingEntity, this`nextEntity, this`cursor
      modifies this`dependenciesForSentence
      ensures State() == TokenStep(old(State()), entityGen, toks, sentenceNumber, tokenNumber, token)
    {
      ghost var before := State();
      var tid := "t" + Dec(termNumber);
      EnterEntity(tokenNumber, tid, NormalizeTokenOrth(token.text));
      ghost var entered := State().entity;
      AddWordAndTerm(sentenceNumber, tokenNumber, token);
      ghost var words := State().words;
      CloseEntity(tokenNumber);
      ghost var closed := State().entity;
      AddTokenDependencies(toks, tokenNumber);
      assert State().words == words && State().entity == closed;
    }

    /** Lines 155-156 and 164-166: parsing starts at the entity's first
        token; while parsing, the token's term id and text are collected. */
    method EnterEntity(tokenNumber: nat, tid: string, orth: string)
      modifies this`parsingEntity, this`currentEntity, this`currentEntityOrth
      ensures State().entity == EnterStep(old(State()).entity, tokenNumber, tid, orth)
    {
      if tokenNumber == nextEntity.start {
        parsingEntity := true;
      }
      if parsingEntity {
        currentEntity := currentEntity + [tid];
        currentEntityOrth := currentEntityOrth + [orth];
      }
    }

    /** Lines 158-189: the wf record and the term record of the token. */
    method AddWordAndTerm(sentenceNumber: nat, tokenNumber: nat, token: Token)
      modifies this`textLayer, this`termsLayer, this`termNumber
      ensures State().words == WordStep(old(State()).words, sentenceNumber, tokenNumber, token)
    {
      var wid := "w" + Dec(tokenNumber);
      var tid := "t" + Dec(termNumber);
      var orth := NormalizeTokenOrth(token.text);
      var currentTerm := [wid];
      var currentTermOrth := [orth];
      var wfData := WfElement(Dec(sentenceNumber), wid, Dec(|token.text|), orth, Dec(token.idx));
      var termData := TermElement(tid, token.lemmaForm, token.pos, token.tag, currentTerm, currentTermOrth);
      textLayer := textLayer + [wfData];
      termsLayer := termsLayer + [termData];
      termNumber := termNumber + 1;
    }

    /** Lines 191-214: at the entity's last token, emit it, clear the
        buffers and take the next entity; an exhausted generator leaves
        `nextEntity` as it was. */
    method CloseEntity(tokenNumber: nat)
      modifies this`entitiesLayer, this`entityNumber, this`currentEntity, this`currentEntityOrth
      modifies this`parsingEntity, this`nextEntity, this`cursor
      ensures State().entity == CloseStep(old(State()).entity, entityGen, tokenNumber)
    {
      if parsingEntity && tokenNumber == nextEntity.end {
        var eid := "e" + Dec(entityNumber);
        var entityData := EntityElement(eid, nextEntity.entityType, currentEntity, currentEntityOrth);
        entitiesLayer := entitiesLayer + [entityData];
        entityNumber := entityNumber + 1;
        currentEntity, currentEntityOrth := [], [];
        parsingEntity := false;
        if cursor < |entityGen| {
          nextEntity, cursor := entityGen[cursor], cursor + 1;
        }
      }
    }

    /** Lines 217-219: offer the edges from token `k` up to its root to the
        sentence buffer, skipping those already there. */
    method AddTokenDependencies(toks: seq<Token>, k: nat)
      requires HeadChainsRooted(toks) && k < |toks|
      modifies this`dependenciesForSentence
      ensures dependenciesForSentence == AddAllNew(old(dependenciesForSentence), Chain(toks, k))
    {
      var deps := DependenciesToAdd(toks, k);
      var i := 0;
      while i < |deps|
        invariant i <= |deps|
        invariant dependenciesForSentence == AddAllNew(old(dependenciesForSentence), deps[..i])
      {
        assert deps[..i + 1][..i] == deps[..i];
        if !(deps[i] in dependenciesForSentence) {
          dependenciesForSentence := dependenciesForSentence + [deps[i]];
        }
        i := i + 1;
      }
      assert deps[..i] == deps;
    }

    /** Lines 222-223: the buffer goes to the dependency layer in insertion order. */
    method FlushSentence()
      modifies this`dependencyLayer
      ensures dependencyLayer == old(dependencyLayer) + dependenciesForSentence
    {
      var i := 0;
      while i < |dependenciesForSentence|
        invariant i <= |dependenciesForSentence|
        invariant dependencyLayer == old(dependencyLayer) + dependenciesForSentence[..i]
      {
        dependencyLayer := dependencyLayer + [dependenciesForSentence[i]];
        assert dependenciesForSentence[..i + 1] == dependenciesForSentence[..i] + [dependenciesForSentence[i]];
        i := i + 1;
      }
    }
  }
}
