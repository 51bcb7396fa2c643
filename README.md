# SpaCy to NAF, modelled in Dafny

The repository turns a spaCy analysis of a text into a NAF document (the
NLP Annotation Format), which is a stack of XML layers. It contains two converters, and this project models both:

* `src/spacy_to_naf/converter.py`, the current converter. Pure
  extractors build the `text` (word forms), `terms`, `deps`,
  `entities` and `chunks` layers from the analysed document. A
  `Converter` object decides which optional layers are added and records a
  linguistic processor for each added layer. Element ids are 1-based
  (`w1`, `t1`, `e1`, `ch1`), and sentence numbers are 1-based too.
* `spacy_to_naf.py`, the legacy `naf_from_doc`. It builds the `text`,
  `terms`, `entities` and `deps` layers in one pass over the sentences and
  tokens. The pass carries bookkeeping variables: the term counter, the
  entity being collected, the current entity taken from a generator, and a
  per-sentence buffer of dependency relations. Its ids are 0-based (`w0`,
  `t0`, `e0`). Each token contributes the whole chain of relations from itself
  up to its sentence root. A relation is buffered only if an equal record is
  not already in the sentence's buffer.

The analysed document is the input to both converters and is plain data
(module `Pipeline`):
* sentences of tokens, each token carrying its document index, text,
  character offset, lemma, coarse and fine tags, head index and relation;
* entity spans;
* noun-chunk spans.

The document's token order is the concatenation of its sentences.

Modules:
* `Decimal`: `str()` of a natural number, its parse, and injectivity.
* `NafIds`: the id functions of the new converter.
* `PosMap`: `map_pos` and the `ud2naf_pos` table.
* `FileNames`: `without_extension`.
* `Pipeline`: the input document, and the head-chain depth that bounds `dependencies_to_add`.
* `Converter`: the extractors, and the classes `Converter` and `NafDocument`.
* `Legacy`:
  * `normalize_token_orth`;
  * the `entities` generator, with its inclusive end;
  * `dependencies_to_add`;
  * the class `LegacyNaf`, whose methods are the loops and steps of `naf_from_doc`.

Each method is proved against a function of the old state. Functions give
the shape of each layer independently of the scan: `LegacyWords`,
`LegacyTerms`, `LegacyEntities` and `DepsUpTo` for the legacy converter, and
`TextElements`, `TermElements` and `DepElements` for the new one. Lemmas
connect the scan to those functions, and state what the layers promise.

The model follows the code on these points:
* `normalize_token_orth` replaces only a token that is exactly `"\n"`. It
  replaces it with `NEWLINE`. It does not look for a newline inside a longer
  token, and it removes no character that XML forbids.
* A document without entity spans makes `naf_from_doc` raise
  `StopIteration`, because of the unguarded `next(entity_gen)` at
  spacy_to_naf.py:135. `NafFromDoc` returns that outcome.
* If the first sentence has no tokens, `token_number` is read at
  spacy_to_naf.py:224 before it is ever assigned, so the code raises
  `UnboundLocalError`. `NafFromDoc` returns that outcome too.
* An entity that is still open when the document ends is never written.
  After the last entity, the scan keeps comparing tokens against that last
  entity. The model keeps both behaviours.
* Duplicate dependency relations are removed per sentence, by comparing
  whole records. A record is the two term ids, the relation label, and the
  two normalised orth strings.
* Neither converter produces a raw-text layer from tokens, multiword
  terms, prepositional-phrase chunks, or desensitised text (hidden or
  control characters replaced by spaces). None of these is modelled.

## Model

| member | source | states |
|---|---|---|
| Decimal.Dec | src/spacy_to_naf/converter.py:149-154 | `str(n)` of a natural number is a non-empty string of digits, with a leading `0` exactly when n is 0 |
| Decimal.ParseDec | src/spacy_to_naf/converter.py:149-154 | Reading the decimal string back gives n (round trip) |
| Decimal.DecInjective | src/spacy_to_naf/converter.py:149-154 | Distinct numbers give distinct decimal strings, and equal numbers give equal strings |
| Decimal.PrefixedDecInjective | src/spacy_to_naf/converter.py:153-170 | For letter prefixes, prefix plus decimal is equal exactly when both the prefixes and the numbers are equal |
| NafIds.SentIdDecodes | src/spacy_to_naf/converter.py:149-150 | `sent_id(i)` is all digits and reads back as i + 1 (START_INDEX 1) |
| NafIds.ElementIdDecodes | src/spacy_to_naf/converter.py:153-154 | `element_id(pfx, i)` starts with pfx, and the rest is digits that read back as i + 1 |
| NafIds.ElementIdInjective | src/spacy_to_naf/converter.py:153-154 | Two element ids are equal exactly when their prefixes and indices are equal |
| NafIds.IdsDistinct | src/spacy_to_naf/converter.py:157-170 | Within each family (word, term, entity, chunk), ids are equal exactly when the indices are; no id of one family equals an id of another |
| NafIds.SentId | src/spacy_to_naf/converter.py:149-150 | A sentence id is a non-empty digit string without a leading zero |
| NafIds.ElementId | src/spacy_to_naf/converter.py:153-154 | An element id starts with its prefix, followed by a number whose first digit is not `0` |
| NafIds.EntityId | src/spacy_to_naf/converter.py:157-158 | An entity id is `e` followed by the decimal of i + 1: digits without a leading zero (Dec) that read back as i + 1 (ParseDec) |
| NafIds.TermId | src/spacy_to_naf/converter.py:161-162 | A term id is `t` followed by the decimal of i + 1: digits without a leading zero (Dec) that read back as i + 1 (ParseDec) |
| NafIds.WfId | src/spacy_to_naf/converter.py:165-166 | A word id is `w` followed by the decimal of i + 1: digits without a leading zero (Dec) that read back as i + 1 (ParseDec) |
| NafIds.ChunkId | src/spacy_to_naf/converter.py:169-170 | A chunk id is `ch` followed by the decimal of i + 1: digits without a leading zero (Dec) that read back as i + 1 (ParseDec) |
| NafIds.FamilyIdsDecode | src/spacy_to_naf/converter.py:157-170 | After its prefix (`e`, `t`, `w` or `ch`), each id is all digits and reads back as i + 1 |
| PosMap.MapPos | src/spacy_to_naf/converter.py:17-29 | With mapping off, the result is the spaCy tag with class `open`. With mapping on, the tag is a NAF code and the class is `open` or `close`; an unknown tag maps to (`O`, `open`). Which code each tag gets is stated by NafCodes |
| PosMap.TableKeys | src/spacy_to_naf/converter.py:32-105 | The table covers exactly the 18 Universal Dependencies tags |
| PosMap.ClosedClassTags | src/spacy_to_naf/converter.py:32-105 | With mapping on, the class is `close` exactly for AUX, CCONJ, DET, NUM, PART, PRON, PUNCT and SCONJ |
| PosMap.NafCodes | src/spacy_to_naf/converter.py:17-105 | With mapping on, every tag gets the code of an independent decision list: `N` for NOUN, `V` for AUX and VERB, `G` ADJ, `P` ADP, `A` ADV, `C` CCONJ, `D` DET, `R` PROPN, and `O` for every other tag, known or not |
| FileNames.JoinSplit | src/spacy_to_naf/converter.py:108-109 | `".".join(s.split("."))` gives s back |
| FileNames.WithoutExtension | src/spacy_to_naf/converter.py:108-109 | A name without a dot gives ""; otherwise the result is the name up to, not including, its last dot |
| FileNames.DropLastPiece | src/spacy_to_naf/converter.py:108-109 | Joining all split pieces but the last gives "" without a dot, and otherwise the text before the last dot |
| FileNames.WithoutExtensionCut | src/spacy_to_naf/converter.py:108-109 | For a name with a dot: name = result + "." + an extension that holds no dot |
| Pipeline.StreamAt | src/spacy_to_naf/converter.py:116-120 | Token j of sentence s is at position Offset(s) + j of the document's token order, tagged with sentence s |
| Pipeline.StreamLength | src/spacy_to_naf/converter.py:116-120 | The sentence-by-sentence walk visits every token of the document once |
| Pipeline.SentenceOf | src/spacy_to_naf/converter.py:116-120 | Names a sentence whose range holds the document position: the sentence `enumerate(doc.sents)` is at when it reaches that token |
| Pipeline.SentenceEndsBefore | src/spacy_to_naf/converter.py:116-120 | An earlier sentence's tokens all come before a later sentence's first token |
| Pipeline.SentenceOfUnique | src/spacy_to_naf/converter.py:116-120 | No other sentence's range holds the position, so the sentence of a token is unique |
| Pipeline.DepthStep | spacy_to_naf.py:89-96 | The depth is 0 exactly at a self-headed root; otherwise it is one more than the head's depth, so the `while` loop ends |
| Pipeline.SingleRootDocWellFormed | spacy_to_naf.py:89-96 | The head-chain condition the parse must meet can be met: a one-token root document meets it |
| Converter.ExtractText | src/spacy_to_naf/converter.py:116-122 | The nested loop returns exactly the word-form reference sequence `TextElements` |
| Converter.ExtractTerms | src/spacy_to_naf/converter.py:125-137 | The nested loop returns exactly `TermElements` (one term per token, pos mapped as `map_pos` says) |
| Converter.ExtractDeps | src/spacy_to_naf/converter.py:140-146 | The loop returns exactly `DepElements`, skipping the tokens that are their own head |
| Converter.TargetIds | src/spacy_to_naf/converter.py:176 | `[term_id(x) for x in range(start, end)]` has end - start entries, and entry j is the term id of start + j |
| Converter.TextElementAt | src/spacy_to_naf/converter.py:116-122 | Word j of sentence s has the token's text and `w{i+1}`. Its offset, length and sentence are digit strings that read back as the token's offset, its text length and s + 1 |
| Converter.ElementsAt | src/spacy_to_naf/converter.py:116-137 | For an indexed document, word k has id `w{k+1}`, term k has id `t{k+1}`, and term k spans exactly word k |
| Converter.TextAndTermsAligned | src/spacy_to_naf/converter.py:116-137 | There are as many words and terms as tokens. Term k spans word k. Word ids are pairwise distinct, and so are term ids |
| Converter.LayerIdsDistinct | src/spacy_to_naf/converter.py:116-137 | In a well-indexed document no word id and no term id occurs twice |
| Converter.WordIdsCount | src/spacy_to_naf/converter.py:116-137 | The number of distinct word ids equals the number of words and of terms |
| Converter.DepElementsLength | src/spacy_to_naf/converter.py:140-146 | There is one dependency per non-root token |
| Converter.DepElementsAt | src/spacy_to_naf/converter.py:140-146 | The dependency of non-root token k comes right after those of earlier non-root tokens, and is head term → token term with the token's relation |
| Converter.NonRootCountPrefix | src/spacy_to_naf/converter.py:140-146 | The count of non-root tokens never falls along the document, and grows past each non-root token |
| Converter.DepElementsInOrder | src/spacy_to_naf/converter.py:140-146 | Of two non-root tokens, the earlier one's dependency comes first in the layer |
| Converter.DepElementsSound | src/spacy_to_naf/converter.py:140-146 | Every dependency comes from some non-root token |
| Converter.DepsReferToTerms | src/spacy_to_naf/converter.py:140-146 | Every dependency goes from the term of a token's head to the term of the token, and these are two different terms of the terms layer |
| Converter.ExtractEntities | src/spacy_to_naf/converter.py:173-177 | One entity per span, in span order, with the span's label and one target per token of the span |
| Converter.EntityTargets | src/spacy_to_naf/converter.py:173-177 | Entity k has id `e{k+1}` and the span's label. Its targets are the term ids of tokens start .. end-1 (end exclusive) |
| Converter.EntityIdsDistinct | src/spacy_to_naf/converter.py:173-177 | Entity ids are pairwise distinct, and no entity lists a target twice |
| Converter.TargetIdsDistinct | src/spacy_to_naf/converter.py:176 | The term ids collected for one span name each term once |
| Converter.ExtractChunks | src/spacy_to_naf/converter.py:180-185 | One chunk per noun-chunk span, in order, headed by the term of its root, with one span entry per token |
| Converter.ChunkShape | src/spacy_to_naf/converter.py:180-185 | Chunk k has id `ch{k+1}`, the span's phrase and the term of its root as head. Its span is the term ids of tokens start .. end-1. Chunk ids are distinct |
| Converter.Converter.constructor | src/spacy_to_naf/converter.py:188-205 | The object keeps the five layer switches it is given |
| Converter.Converter.AddLayer | src/spacy_to_naf/converter.py:236-238 | Adding a layer appends it and records a linguistic processor under its name; nothing else changes |
| Converter.Converter.AddTextLayer | src/spacy_to_naf/converter.py:228-230 | Appends the `text` layer built from `TextElements`, and its processor |
| Converter.Converter.AddTermsLayer | src/spacy_to_naf/converter.py:232-234 | Appends the `terms` layer, with pos mapped by the object's switch, and its processor |
| Converter.Converter.AddDepsLayer | src/spacy_to_naf/converter.py:250-252 | Appends the `deps` layer and its processor |
| Converter.Converter.AddEntitiesLayer | src/spacy_to_naf/converter.py:240-243 | Appends the `entities` layer and its processor exactly when the document has entities; otherwise the document is unchanged |
| Converter.Converter.AddChunksLayer | src/spacy_to_naf/converter.py:245-248 | Appends the `chunks` layer and its processor exactly when `doc.noun_chunks` is truthy; otherwise the document is unchanged |
| Converter.Converter.Convert | src/spacy_to_naf/converter.py:207-220 | The layers added are exactly `Plan`, the switch-selected sequence, and one linguistic processor is recorded per added layer, under its name and in the same order |
| Converter.Converter.PlanNames | src/spacy_to_naf/converter.py:207-220 | The layer names are `text`, then `terms`, `deps`, `entities` and `chunks`, each present exactly when its switch (and, for the last two, its gate) holds |
| Converter.Converter.PlanShape | src/spacy_to_naf/converter.py:207-220 | The text layer is always first. Each optional layer is present if and only if its switch and gate hold |
| Converter.Converter.PlanOrdered | src/spacy_to_naf/converter.py:207-220 | Layers appear in the fixed order text < terms < deps < entities < chunks, with no repeats |
| Converter.Converter.When | src/spacy_to_naf/converter.py:209-218 | An `if self.add_...` guard adds one layer when it holds and none otherwise |
| Legacy.NormalizeTokenOrth | spacy_to_naf.py:14-18 | The orth is returned unchanged exactly when it is not `"\n"`, and the result is never `"\n"` |
| Legacy.NormalizeIdempotent | spacy_to_naf.py:14-18 | Normalising twice is the same as normalising once |
| Legacy.NormalizeCollisions | spacy_to_naf.py:14-18 | Two orths normalise alike exactly when they are equal or are `"\n"` and `NEWLINE` |
| Legacy.Entities | spacy_to_naf.py:25-30 | The generator yields one entity per span |
| Legacy.EntitiesCover | spacy_to_naf.py:25-30 | The yielded entity has the span's start and label. A token lies between its start and its inclusive end exactly when it lies inside the span, whose end is exclusive |
| Legacy.DirectEdge | spacy_to_naf.py:90-94 | A token's own edge goes from a term to the same term exactly when the head and the token have the same index |
| Legacy.Chain | spacy_to_naf.py:83-97 | The chain has one relation per hop from the token up to its root |
| Legacy.ChainShape | spacy_to_naf.py:83-97 | The chain is empty exactly for a root. Otherwise it starts with the token's own edge, and each relation's target is the previous relation's source |
| Legacy.ChainLinked | spacy_to_naf.py:83-97 | Consecutive relations of the chain are linked: target of the next = source of the previous |
| Legacy.DependenciesToAdd | spacy_to_naf.py:83-97 | The `while` loop returns the chain |
| Legacy.ChainMember | spacy_to_naf.py:83-97 | Every relation on a chain is the direct edge of some non-root token |
| Legacy.AddAllNewFacts | spacy_to_naf.py:217-219 | The buffer keeps its old contents as a prefix and stays duplicate-free. It then holds exactly the old relations plus the offered ones |
| Legacy.OfferAllFacts | spacy_to_naf.py:217-219 | Offering chains to an empty buffer gives a duplicate-free buffer, holding exactly the relations on those chains |
| Legacy.BufferStep | spacy_to_naf.py:217-219 | The buffer after one more token is the old buffer, with that token's chain offered |
| Legacy.BufferFacts | spacy_to_naf.py:152-219 | A sentence's buffer has no duplicates, and holds exactly the relations on its tokens' chains |
| Legacy.BufferHasDirectEdges | spacy_to_naf.py:217-219 | Every non-root token's own edge is in its sentence's buffer |
| Legacy.DepsStep | spacy_to_naf.py:221-223 | Flushing a sentence appends its whole buffer to the dependency layer |
| Legacy.SentenceFits | spacy_to_naf.py:153-224 | Sentence s occupies token numbers Offset(s) .. Offset(s+1)-1 of the document |
| Legacy.WordAndTermAt | spacy_to_naf.py:158-189 | Token j of sentence s, at position k, gives word `w{k}` and term `t{k}` targeting `[w{k}]`. The word's sentence reads back as s + 1 and its offset as the token's offset. Its form is the normalised text |
| Legacy.LegacyIdsDistinct | spacy_to_naf.py:158-159 | Word ids are pairwise distinct, term ids are pairwise distinct, and no word id equals a term id |
| Legacy.TermRangeAt | spacy_to_naf.py:159-165 | Entry j of the term ids collected from token a on is `t{a+j}` |
| Legacy.EntityTargets | spacy_to_naf.py:155-214 | Entity c has id `e{c}` and the span's label. Its targets are the term ids of every token from start to the inclusive end |
| Legacy.EntityIdsDistinct | spacy_to_naf.py:193-204 | Entity ids are pairwise distinct |
| Legacy.LegacyDepsComplete | spacy_to_naf.py:151-223 | Every sentence buffer is duplicate-free. Every non-root token's own edge is in the final dependency layer |
| Legacy.DepsUpToHas | spacy_to_naf.py:221-223 | A flushed relation stays in the layer after later sentences |
| Legacy.LegacyDepsReferToTerms | spacy_to_naf.py:88-91 | In an indexed document, both ends of every buffered relation are term ids of the terms layer |
| Legacy.DirectEdgeTerms | spacy_to_naf.py:88-91 | A non-root token's own relation runs from its head's term to its own term in the terms layer |
| Legacy.EnterStep | spacy_to_naf.py:155-166 | Entering never emits or advances the generator. Parsing is on exactly when it was already, or the token is the entity's start, and then the token's term id is collected |
| Legacy.WordStep | spacy_to_naf.py:158-189 | Each token appends exactly one word and one term, keeping earlier ones, and takes the next term number. The new term targets the new word |
| Legacy.CloseStep | spacy_to_naf.py:191-214 | The entity layer keeps its earlier entries and grows by one exactly when parsing and the token is the entity's inclusive end. The generator cursor never passes its end |
| Legacy.TokenStep | spacy_to_naf.py:155-219 | A token never flushes to the dependency layer, and takes exactly one term number |
| Legacy.WordsScanCount | spacy_to_naf.py:153-167 | Scanning j tokens adds j to the term number and j words |
| Legacy.TokensScanStep | spacy_to_naf.py:153-219 | Scanning one more token is one more token step |
| Legacy.EnterStepKeeps | spacy_to_naf.py:155-166 | Entering or continuing an entity keeps the entity bookkeeping consistent with the entity layer's reference |
| Legacy.CloseStepKeeps | spacy_to_naf.py:191-214 | Closing an entity at its inclusive end emits the next reference entity and moves the generator on, keeping the bookkeeping consistent |
| Legacy.TokenEntityKeeps | spacy_to_naf.py:155-214 | One token's entity work keeps the bookkeeping consistent |
| Legacy.WordAt | spacy_to_naf.py:158-189 | The reference word and term at position k are those built from token j of sentence s, numbered k |
| Legacy.WordStepKeeps | spacy_to_naf.py:158-189 | After one more token, the text and terms layers are the reference prefixes one longer |
| Legacy.WordsScanKeeps | spacy_to_naf.py:153-189 | Scanning a sentence's tokens extends the text and terms layers along the reference |
| Legacy.BuffersScanFromEmpty | spacy_to_naf.py:152-219 | The buffer scanned from empty over a sentence's tokens is the reference sentence buffer |
| Legacy.EntitiesScanKeeps | spacy_to_naf.py:153-214 | Scanning a sentence's tokens keeps the entity bookkeeping consistent |
| Legacy.SentencesScanLast | spacy_to_naf.py:151-224 | The last sentence continues the words and entities from the state before it, and appends its buffer scanned from empty |
| Legacy.SentencesScanWords | spacy_to_naf.py:151-224 | After n sentences, the text and terms layers are the reference prefixes up to Offset(n) |
| Legacy.SentencesScanDeps | spacy_to_naf.py:151-224 | After n sentences, the dependency layer is the flushed buffers of those sentences |
| Legacy.SentenceScanEntities | spacy_to_naf.py:153-214 | One sentence moves the term number to Offset(s+1) and keeps the entity bookkeeping consistent |
| Legacy.SentencesScanEntities | spacy_to_naf.py:151-224 | After n sentences, the term number is Offset(n) and the entity bookkeeping is consistent |
| Legacy.ScanDoc | spacy_to_naf.py:99-225 | After the whole scan, the text and terms layers are exactly the reference layers `LegacyWords` and `LegacyTerms` |
| Legacy.ScanDocLayers | spacy_to_naf.py:99-225 | The whole scan gives exactly the reference text, terms and dependency layers. With well-formed spans, it also gives exactly the reference entities layer |
| Legacy.LegacyNaf.constructor | spacy_to_naf.py:126-129 | A fresh builder has four empty layers |
| Legacy.LegacyNaf.NafFromDoc | spacy_to_naf.py:99-225 | Raises `StopIteration` iff there are no entities. Raises `UnboundLocalError` iff there are entities and the first sentence is empty. Otherwise the final state is the whole-document scan |
| Legacy.LegacyNaf.CreateLayers | spacy_to_naf.py:126-129 | The four layers start empty |
| Legacy.LegacyNaf.StartBookkeeping | spacy_to_naf.py:134-148 | The first entity is taken from the generator, and all counters and buffers start at zero or empty |
| Legacy.LegacyNaf.ScanSentences | spacy_to_naf.py:151-224 | Completes iff the first sentence is non-empty (or there are none). It then ends in the state of the sentence-by-sentence scan |
| Legacy.LegacyNaf.ScanSentence | spacy_to_naf.py:152-223 | One sentence: reset the buffer, scan the tokens, flush. The last token number is reported, or the old one if the sentence is empty |
| Legacy.LegacyNaf.ScanTokens | spacy_to_naf.py:153-219 | The token loop ends in the state of the token-by-token scan |
| Legacy.LegacyNaf.ScanToken | spacy_to_naf.py:155-219 | One token: entity entry, word and term, entity close, dependency offers |
| Legacy.LegacyNaf.EnterEntity | spacy_to_naf.py:155-166 | Starts collecting at the entity's start, and collects the term id and orth while inside |
| Legacy.LegacyNaf.AddWordAndTerm | spacy_to_naf.py:158-189 | Appends the word and the term for the token, and advances the term number |
| Legacy.LegacyNaf.CloseEntity | spacy_to_naf.py:191-214 | At the inclusive end, emits the entity, clears the collection and moves to the next entity if there is one |
| Legacy.LegacyNaf.AddTokenDependencies | spacy_to_naf.py:217-219 | The buffer becomes the old buffer, with the token's chain offered record by record |
| Legacy.LegacyNaf.FlushSentence | spacy_to_naf.py:221-223 | The dependency layer gains the sentence's buffer, in order |

## Left out

- The spaCy pipeline itself (`spacy.load`, `self.nlp(text)`): the analysed document is an input value.
- XML construction and serialisation are not modelled: lxml and nafparserpy, `NAF_to_string`, `text_to_NAF`, the XML comments, and `naf.write`. Layers are sequences of element records.
- The NAF header of `naf_from_doc` (spacy_to_naf.py:110-124) and `current_time` are not modelled. Timestamps read the clock.
- `Converter.Converter.AddLayer`: the processor metadata is not modelled: processor name, version, model name and version, and `LPDependency`. The processor is recorded by its layer name only.
- `Converter.Converter.constructor`: the processor and model metadata strings are not modelled, and neither is `spacy.load`.
- `init_naf`, `process_naf`, `process_text`, `convert_naf_files`, `convert_text_files`, `run` and the command-line parsing are file and CLI plumbing around `convert`. They are not modelled.
- The helpers `add_wf_element`, `add_term_element`, `add_entity_element` and `add_dependency_element` (spacy_to_naf.py:32-81) only write XML. Their records are modelled as datatypes.
- `get_entity_type` is modelled as the span's label. The source pops an arbitrary member of the set of its tokens' entity types, and spaCy makes that set the label.
- `Converter.Converter.AddChunksLayer`: the truthiness of `doc.noun_chunks` is a boolean parameter. For a generator it is always true. Whether chunks are present is left to the caller.
- `Converter.Converter.Convert`: the same noun-chunks gate is a parameter, and `out_path` writing is not modelled.
- `Legacy.LegacyNaf.NafFromDoc`: requires every head chain to reach a root, which a spaCy parse guarantees. For a parse with a head cycle, `dependencies_to_add` would not terminate, and that case is not modelled.
- `Legacy.ScanDocLayers`: the entities layer is characterised only when the entity spans are non-empty, inside the document and non-overlapping, as spaCy produces them. For other span lists, only the text, terms and dependency layers are stated.
- `Converter.EntityTargets` and `Converter.ChunkShape` state the targets only for spans inside the document. `Converter.DepsReferToTerms` requires token indices to be document positions and head chains to be rooted.
- Token identity (`token.head is not token`) is modelled as index equality (`head == i`).
- `token.orth_` and `token.text` are the same string in the model.
- The repository's tests are not modelled.
