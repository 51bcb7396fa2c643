/** The optional translation of spaCy's universal POS tags to NAF's
    one-letter POS codes and open/close word classes. */
module PosMap {

  datatype NafPos = NafPos(nafPos: string, posClass: string)

  /** The eighteen universal tags the converter knows, with their NAF code and class. */
  const UD2NAF_POS: map<string, NafPos> := map[
    "ADJ" := NafPos("G", "open"),
    "ADP" := NafPos("P", "open"),
    "ADV" := NafPos("A", "open"),
    "AUX" := NafPos("V", "close"),
    "CCONJ" := NafPos("C", "close"),
    "DET" := NafPos("D", "close"),
    "INTJ" := NafPos("O", "open"),
    "NOUN" := NafPos("N", "open"),
    "NUM" := NafPos("O", "close"),
    "PART" := NafPos("O", "close"),
    "PRON" := NafPos("O", "close"),
    "PROPN" := NafPos("R", "open"),
    "PUNCT" := NafPos("O", "close"),
    "SCONJ" := NafPos("O", "close"),
    "SYM" := NafPos("O", "open"),
    "VERB" := NafPos("V", "open"),
    "X" := NafPos("O", "open"),
    "SPACE" := NafPos("O", "open")
  ]

  /** The NAF POS codes the table can produce. */
  predicate IsNafCode(p: string) {
    p in {"G", "P", "A", "V", "C", "D", "O", "N", "R"}
  }

  predicate IsPosClass(c: string) {
    c == "open" || c == "close"
  }

  /** `(pos, class)` for a token whose coarse tag is `spacyPos`: the tag itself
      and "open" when mapping is off, the table entry when it is on and the
      tag is known, and ("O", "open") for an unknown tag. */
  function MapPos(mapUdposToNafPos: bool, spacyPos: string): (r: (string, string))
    ensures IsPosClass(r.1)
    ensures mapUdposToNafPos ==> IsNafCode(r.0)
    ensures !mapUdposToNafPos ==> r == (spacyPos, "open")
    ensures mapUdposToNafPos && spacyPos !in UD2NAF_POS ==> r == ("O", "open")
  {
    if mapUdposToNafPos then
      if spacyPos in UD2NAF_POS then
        (UD2NAF_POS[spacyPos].nafPos, UD2NAF_POS[spacyPos].posClass)
      else
        ("O", "open")
    else
      (spacyPos, "open")
  }

  /** The table has exactly the eighteen universal tags as keys. */
  lemma TableKeys()
    ensures UD2NAF_POS.Keys == {"ADJ", "ADP", "ADV", "AUX", "CCONJ", "DET", "INTJ", "NOUN", "NUM",
                                "PART", "PRON", "PROPN", "PUNCT", "SCONJ", "SYM", "VERB", "X", "SPACE"}
  {
  }

  /** Closed-class tags are exactly the function-word tags; everything else is open. */
  lemma ClosedClassTags(spacyPos: string)
    ensures MapPos(true, spacyPos).1 == "close" <==>
              spacyPos in {"AUX", "CCONJ", "DET", "NUM", "PART", "PRON", "PUNCT", "SCONJ"}
  {
  }

  /** The NAF code of a universal tag, written as a decision list rather than a
      table: "N" for nouns, "V" for verbs and auxiliaries, "G", "P", "A", "C",
      "D" and "R" for adjectives, adpositions, adverbs, coordinating
      conjunctions, determiners and proper nouns, "O" for everything else. */
  function UdNafCode(spacyPos: string): string {
    if spacyPos == "NOUN" then "N"
    else if spacyPos == "AUX" || spacyPos == "VERB" then "V"
    else if spacyPos == "ADJ" then "G"
    else if spacyPos == "ADP" then "P"
    else if spacyPos == "ADV" then "A"
    else if spacyPos == "CCONJ" then "C"
    else if spacyPos == "DET" then "D"
    else if spacyPos == "PROPN" then "R"
    else "O"
  }

  /** With mapping on, the code is the one the decision list gives, for
      every tag, known or not. */
  lemma NafCodes(spacyPos: string)
    ensures MapPos(true, spacyPos).0 == UdNafCode(spacyPos)
  {
  }
}
