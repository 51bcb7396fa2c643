/** The identifier scheme of the new converter: a prefix followed by the
    decimal of a 0-based position plus `START_INDEX` (which is 1), so that
    the first word is `w1`, the first term `t1`, and so on. */
module NafIds {
  import opened Decimal

  const START_INDEX: nat := 1

  const WF_PREFIX: string := "w"
  const TERM_PREFIX: string := "t"
  const ENTITY_PREFIX: string := "e"
  const CHUNK_PREFIX: string := "ch"

  /** A 1-based sentence number: digits without a leading zero. */
  function SentId(i: nat): (r: string)
    ensures |r| >= 1 && AllDigits(r) && r[0] != '0'
  {
    Dec(i + START_INDEX)
  }

  /** `pfx` followed by a 1-based number, whose first digit is never `0`. */
  function ElementId(pfx: string, i: nat): (r: string)
    ensures |pfx| < |r| && r[..|pfx|] == pfx && r[|pfx|] != '0'
  {
    pfx + Dec(i + START_INDEX)
  }

  function EntityId(i: nat): (r: string)
    ensures |r| > 1 && r[..1] == "e" && r[1] != '0'
    ensures r[1..] == Dec(i + 1)
  {
    ElementId(ENTITY_PREFIX, i)
  }

  function TermId(i: nat): (r: string)
    ensures |r| > 1 && r[..1] == "t" && r[1] != '0'
    ensures r[1..] == Dec(i + 1)
  {
    ElementId(TERM_PREFIX, i)
  }

  function WfId(i: nat): (r: string)
    ensures |r| > 1 && r[..1] == "w" && r[1] != '0'
    ensures r[1..] == Dec(i + 1)
  {
    ElementId(WF_PREFIX, i)
  }

  function ChunkId(i: nat): (r: string)
    ensures |r| > 2 && r[..2] == "ch" && r[2] != '0'
    ensures r[2..] == Dec(i + 1)
  {
    ElementId(CHUNK_PREFIX, i)
  }

  /** A sentence id reads back as the 1-based sentence number. */
  lemma SentIdDecodes(i: nat)
    ensures AllDigits(SentId(i)) && Parse(SentId(i)) == i + 1
  {
    ParseDec(i + 1);
  }

  /** An element id is its prefix followed by digits that read back as `i + 1`. */
  lemma ElementIdDecodes(pfx: string, i: nat)
    ensures |pfx| < |ElementId(pfx, i)| && ElementId(pfx, i)[..|pfx|] == pfx
    ensures AllDigits(ElementId(pfx, i)[|pfx|..])
    ensures Parse(ElementId(pfx, i)[|pfx|..]) == i + 1
  {
    assert ElementId(pfx, i)[|pfx|..] == Dec(i + 1);
    ParseDec(i + 1);
  }

  /** Each family's id reads back, after its prefix, as the 1-based position. */
  lemma FamilyIdsDecode(i: nat)
    ensures AllDigits(EntityId(i)[1..]) && Parse(EntityId(i)[1..]) == i + 1
    ensures AllDigits(TermId(i)[1..]) && Parse(TermId(i)[1..]) == i + 1
    ensures AllDigits(WfId(i)[1..]) && Parse(WfId(i)[1..]) == i + 1
    ensures AllDigits(ChunkId(i)[2..]) && Parse(ChunkId(i)[2..]) == i + 1
  {
    ParseDec(i + 1);
  }

  /** Ids with digit-free prefixes collide only when prefix and index agree. */
  lemma ElementIdInjective(p: string, q: string, i: nat, j: nat)
    requires NoDigits(p) && NoDigits(q)
    ensures ElementId(p, i) == ElementId(q, j) <==> p == q && i == j
  {
    PrefixedDecInjective(p, q, i + START_INDEX, j + START_INDEX);
  }

  /** The four element kinds never share an id, and within a kind distinct
      positions give distinct ids. */
  lemma IdsDistinct(i: nat, j: nat)
    ensures WfId(i) == WfId(j) <==> i == j
    ensures TermId(i) == TermId(j) <==> i == j
    ensures EntityId(i) == EntityId(j) <==> i == j
    ensures ChunkId(i) == ChunkId(j) <==> i == j
    ensures WfId(i) != TermId(j) && WfId(i) != EntityId(j) && WfId(i) != ChunkId(j)
    ensures TermId(i) != EntityId(j) && TermId(i) != ChunkId(j) && EntityId(i) != ChunkId(j)
  {
    var ps := [WF_PREFIX, TERM_PREFIX, ENTITY_PREFIX, CHUNK_PREFIX];
    forall a, b | 0 <= a < 4 && 0 <= b < 4
      ensures ElementId(ps[a], i) == ElementId(ps[b], j) <==> ps[a] == ps[b] && i == j
    {
      ElementIdInjective(ps[a], ps[b], i, j);
    }
    assert WfId(i) == ElementId(ps[0], i) && WfId(j) == ElementId(ps[0], j);
    assert TermId(i) == ElementId(ps[1], i) && TermId(j) == ElementId(ps[1], j);
    assert EntityId(i) == ElementId(ps[2], i) && EntityId(j) == ElementId(ps[2], j);
    assert ChunkId(i) == ElementId(ps[3], i) && ChunkId(j) == ElementId(ps[3], j);
  }
}
