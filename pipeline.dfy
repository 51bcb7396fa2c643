/** The analysed document that the spaCy pipeline hands to both converters,
    taken as plain data: sentences of tokens, entity spans and noun-chunk
    spans. Token order in the whole document is the concatenation of the
    sentences, and `i` is meant to be a token's position in that order. */
module Pipeline {

  datatype Option<T> = None | Some(value: T)

  /** One token: `i` (document index), `text` (= `orth_`), `idx` (character
      offset), `lemmaForm` (`lemma_`), coarse `pos`, fine `tag`, the document index of its
      syntactic `head` (itself for a sentence root) and its relation `dep`. */
  datatype Token = Token(i: nat, text: string, idx: nat, lemmaForm: string, pos: string,
                         tag: string, head: nat, dep: string)

  /** A named-entity span over token indices, `end` exclusive. */
  datatype EntSpan = EntSpan(start: nat, end: nat, entityType: string)

  /** A noun-chunk span, `end` exclusive, with the index of its syntactic root. */
  datatype ChunkSpan = ChunkSpan(start: nat, end: nat, root: nat, phrase: string)

  datatype Doc = Doc(sents: seq<seq<Token>>, ents: seq<EntSpan>, chunks: seq<ChunkSpan>)

  /** A token together with the 0-based index of the sentence it belongs to. */
  datatype Pos = Pos(sent: nat, tok: Token)

  /** Number of tokens in the sentences before sentence `s`. */
  function Offset(sents: seq<seq<Token>>, s: nat): nat
    requires s <= |sents|
  {
    if s == 0 then 0 else Offset(sents, s - 1) + |sents[s - 1]|
  }

  /** The tokens of sentences `0..n-1`, in order, each tagged with its sentence. */
  function StreamUpTo(sents: seq<seq<Token>>, n: nat): seq<Pos>
    requires n <= |sents|
  {
    if n == 0 then []
    else StreamUpTo(sents, n - 1) + seq(|sents[n - 1]|, j requires 0 <= j < |sents[n - 1]| => Pos(n - 1, sents[n - 1][j]))
  }

  /** The document as one stream: what `for sent_i, sentence in enumerate(doc.sents): for token in sentence` visits. */
  function Stream(sents: seq<seq<Token>>): seq<Pos> {
    StreamUpTo(sents, |sents|)
  }

  /** The document's tokens, what `for token in doc` visits. */
  function Tokens(sents: seq<seq<Token>>): seq<Token> {
    var st := Stream(sents);
    seq(|st|, k requires 0 <= k < |st| => st[k].tok)
  }

  lemma {:induction false} StreamUpToLength(sents: seq<seq<Token>>, n: nat)
    requires n <= |sents|
    ensures |StreamUpTo(sents, n)| == Offset(sents, n)
  {
    if n > 0 {
      StreamUpToLength(sents, n - 1);
    }
  }

  lemma {:induction false} StreamUpToAt(sents: seq<seq<Token>>, n: nat, s: nat, j: nat)
    requires s < n <= |sents| && j < |sents[s]|
    ensures Offset(sents, s) + j < Offset(sents, n) == |StreamUpTo(sents, n)|
    ensures StreamUpTo(sents, n)[Offset(sents, s) + j] == Pos(s, sents[s][j])
  {
    StreamUpToLength(sents, n);
    StreamUpToLength(sents, n - 1);
    if s < n - 1 {
      StreamUpToAt(sents, n - 1, s, j);
    }
  }

  /** Token `j` of sentence `s` sits at position `Offset(s) + j` of the stream. */
  lemma StreamAt(sents: seq<seq<Token>>, s: nat, j: nat)
    requires s < |sents| && j < |sents[s]|
    ensures Offset(sents, s) + j < |Stream(sents)| == |Tokens(sents)|
    ensures Stream(sents)[Offset(sents, s) + j] == Pos(s, sents[s][j])
    ensures Tokens(sents)[Offset(sents, s) + j] == sents[s][j]
  {
    StreamUpToAt(sents, |sents|, s, j);
  }

  lemma StreamLength(sents: seq<seq<Token>>)
    ensures |Stream(sents)| == |Tokens(sents)| == Offset(sents, |sents|)
  {
    StreamUpToLength(sents, |sents|);
  }

  lemma {:induction false} OffsetMonotone(sents: seq<seq<Token>>, a: nat, b: nat)
    requires a <= b <= |sents|
    ensures Offset(sents, a) <= Offset(sents, b)
    decreases b - a
  {
    if a < b {
      OffsetMonotone(sents, a, b - 1);
    }
  }

  /** The sentence among the first `n` that holds stream position `k`. */
  function SentenceOfUpTo(sents: seq<seq<Token>>, n: nat, k: nat): (s: nat)
    requires n <= |sents| && k < Offset(sents, n)
    ensures s < n && Offset(sents, s) <= k < Offset(sents, s) + |sents[s]|
  {
    if k < Offset(sents, n - 1) then SentenceOfUpTo(sents, n - 1, k) else n - 1
  }

  /** The sentence that holds stream position `k`. */
  function SentenceOf(sents: seq<seq<Token>>, k: nat): (s: nat)
    requires k < |Tokens(sents)|
    ensures s < |sents| && Offset(sents, s) <= k < Offset(sents, s) + |sents[s]|
  {
    StreamLength(sents);
    SentenceOfUpTo(sents, |sents|, k)
  }

  /** An earlier sentence ends where or before a later one starts. */
  lemma {:induction false} SentenceEndsBefore(sents: seq<seq<Token>>, a: nat, b: nat)
    requires a < b <= |sents|
    ensures Offset(sents, a) + |sents[a]| <= Offset(sents, b)
  {
    OffsetMonotone(sents, a + 1, b);
  }

  /** No other sentence's range holds position `k`: sentences do not overlap. */
  lemma {:induction false} SentenceOfUnique(sents: seq<seq<Token>>, k: nat, s: nat)
    requires k < |Tokens(sents)| && s < |sents|
    requires Offset(sents, s) <= k < Offset(sents, s) + |sents[s]|
    ensures s == SentenceOf(sents, k)
  {
    var r := SentenceOf(sents, k);
    if s < r {
      SentenceEndsBefore(sents, s, r);
    } else if r < s {
      SentenceEndsBefore(sents, r, s);
    }
  }

  // ---------------------------------------------------------------------
  // What the pipeline guarantees about its output.

  /** Every token's `i` is its position in document order. */
  predicate TokensIndexed(toks: seq<Token>) {
    forall k :: 0 <= k < |toks| ==> toks[k].i == k
  }

  predicate HeadsInRange(toks: seq<Token>) {
    forall k :: 0 <= k < |toks| ==> toks[k].head < |toks|
  }

  /** Number of hops from token `k` up to a token that heads itself, if that
      takes fewer than `fuel` steps. */
  function DepthWithin(toks: seq<Token>, k: nat, fuel: nat): Option<nat>
    requires HeadsInRange(toks) && k < |toks|
    decreases fuel
  {
    if fuel == 0 then None
    else if toks[k].head == k then Some(0)
    else match DepthWithin(toks, toks[k].head, fuel - 1)
      case None => None
      case Some(d) => Some(d + 1)
  }

  /** Every head chain reaches a self-headed root (a chain of |toks| hops
      without a root would revisit a token, so the bound loses nothing). */
  predicate HeadChainsRooted(toks: seq<Token>) {
    HeadsInRange(toks) && forall k :: 0 <= k < |toks| ==> DepthWithin(toks, k, |toks|).Some?
  }

  predicate DocWellFormed(doc: Doc) {
    TokensIndexed(Tokens(doc.sents)) && HeadChainsRooted(Tokens(doc.sents))
  }

  /** Entity spans are non-empty, inside the document, and ordered without overlap. */
  predicate EntitySpansWellFormed(ents: seq<EntSpan>, n: nat) {
    && (forall c :: 0 <= c < |ents| ==> ents[c].start < ents[c].end <= n)
    && (forall c :: 0 <= c < |ents| - 1 ==> ents[c].end <= ents[c + 1].start)
  }

  function Depth(toks: seq<Token>, k: nat): nat
    requires HeadChainsRooted(toks) && k < |toks|
  {
    DepthWithin(toks, k, |toks|).value
  }

  lemma {:induction false} DepthWithinMonotone(toks: seq<Token>, k: nat, f: nat, g: nat)
    requires HeadsInRange(toks) && k < |toks| && f <= g
    requires DepthWithin(toks, k, f).Some?
    ensures DepthWithin(toks, k, g) == DepthWithin(toks, k, f)
    decreases f
  {
    if toks[k].head != k {
      DepthWithinMonotone(toks, toks[k].head, f - 1, g - 1);
    }
  }

  /** A root has depth 0, and a non-root is one hop deeper than its head. */
  lemma DepthStep(toks: seq<Token>, k: nat)
    requires HeadChainsRooted(toks) && k < |toks|
    ensures toks[k].head == k <==> Depth(toks, k) == 0
    ensures toks[k].head != k ==> Depth(toks, k) == Depth(toks, toks[k].head) + 1
  {
    var h := toks[k].head;
    assert DepthWithin(toks, k, |toks|).Some?;
    if h != k {
      DepthWithinMonotone(toks, h, |toks| - 1, |toks|);
    }
  }

  /** The well-formed documents are not an empty class. */
  lemma SingleRootDocWellFormed(t: Token)
    requires t.i == 0 && t.head == 0
    ensures DocWellFormed(Doc([[t]], [], []))
  {
    var toks := Tokens([[t]]);
    StreamAt([[t]], 0, 0);
    StreamLength([[t]]);
    assert toks == [t];
  }
}
