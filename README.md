# RxNorm ingredient extraction, modelled in Dafny

This project models `extract_rxnorm_ingredients.py`, a batch join over three
pipe-delimited RxNorm RRF extracts: RXNCONSO (concepts), RXNREL
(relationships) and RXNSAT (attributes). It produces one JSON record per
ingredient concept (TTY IN, PIN or MIN) that has at least one clinical drug
component (SCDC). Each record nests four levels:
- its SCDCs;
- each SCDC's clinical drugs (SCD);
- each SCD's generic and branded packs (GPCK, BPCK) and branded drugs (SBD);
- each SBD's brand names (BN).

RxNorm NDC codes are attached to SCDs, packs and SBDs, and a UNII code to
the ingredient.

The model takes the file contents as sequences of already split rows (`Row = seq<string>`).
It has these parts:

- `Rows`: splitting one line into fields, and the length guard every scan
  applies.
- `Names`: the `(TS, STR)` name preference and its fold over a concept's
  rows.
- `Rxnconso`: the concept scan.
  - Its specification is one left fold per accumulator (`IngredientScan`,
    `BucketScan`, `UniiScan`), combined by `Scan`.
  - `ScanRxnconso` is the loop. Its body `ScanRow` keeps the source's
    branch order, including each `continue`.
  - The eighteen accumulators of the source (lines 90-107) are the fields
    of one `Concepts` value.
- `Rxnrel`: the four relationship resolvers and the PIN/MIN propagation.
  - All five share one specification. A `Rule` says which key a row grows
    and by what (`Contribution`), and `Resolve` folds that over the rows.
  - Each resolver is its own method, with its own loop, proved equal to
    `Resolve` of its rule.
- `Rxnsat`: the NDC harvest. A missing RXNSAT file is `None`.
- `Ordering`: Python's string order, ASCII lower-casing, and `sorted` as an
  insertion sort. Set and dict iteration is an arbitrary listing of the
  elements.
- `Assembly`: the record builders of `main`. Ghost predicates state, level
  by level, what each JSON object must hold. `Assemble` collects the
  records and sorts them by lower-cased name.
- `Pipeline`: the computation in `main`:
  - the inversion SCDC → SCDs into SCD → SCDCs;
  - the unified ingredient → SCDC map;
  - `Extract`, which runs every stage in `main`'s order. It is proved to
    satisfy `Assembled` on the tables that the specification folds compute
    from the three inputs.

Facts about `extract_rxnorm_ingredients.py` that the model keeps:
- Sibling lists (SCDCs, SCDs, packs, SBDs, BNs) are sorted by the display
  name as stored, case-sensitively, with the empty name for a concept that
  has none (lines 577, 583, 586-597). Only the final list of records is
  sorted by lower-cased name (line 632).
- A concept with accepted rows of several ingredient TTYs is in each of
  those sets, and its record takes the TTY of the last accepted row (lines
  137-143).
- An ingredient is skipped only when its SCDC set is empty (lines 578-579).
  An SCDC without SCDs still appears, with an empty `SCDs` list.
- Records are appended in the order of the `ingredients` dict, which is the
  order of each id's first accepted RXNCONSO row (line 134). The final sort
  is stable, so records with equal lower-cased names keep that order. The
  sibling lists are sorted from sets (lines 577-597), so their ties follow
  set iteration order. The model states neither tie order (see "Left out").

## Model

| member | source | states |
|---|---|---|
| Wrappers.Get | extract_rxnorm_ingredients.py:133 | a dict lookup gives a value exactly when the key is present, and then the stored value |
| Wrappers.GetOr | extract_rxnorm_ingredients.py:561 | a lookup with a default gives the stored value for a present key and the default otherwise |
| Rows.RStripNewlines | extract_rxnorm_ingredients.py:111 | the stripped line is a prefix of the line, does not end in a line feed, and only line feeds were removed |
| Rows.Split | extract_rxnorm_ingredients.py:111 | splitting always yields at least one field |
| Rows.ParseLine | extract_rxnorm_ingredients.py:111 | a line gives at least one field, no field holds a pipe, and joining the fields with pipes gives back the line without its trailing line feeds |
| Rows.SplitJoin | extract_rxnorm_ingredients.py:111 | joining the fields with the delimiter gives back the text that was split |
| Rows.SplitFieldsHaveNoDelimiter | extract_rxnorm_ingredients.py:111 | no field contains the delimiter |
| Rows.SplitFieldCount | extract_rxnorm_ingredients.py:111 | there is one more field than there are delimiters |
| Rows.LengthGuard | extract_rxnorm_ingredients.py:112-113 | a line has at least n fields exactly when its stripped text holds at least n - 1 pipes |
| Names.ChooseName | extract_rxnorm_ingredients.py:49-59 | with no existing pair the candidate is taken; otherwise the result is one of the two; a preferred existing pair is never displaced; a preferred candidate displaces a non-preferred pair; a non-preferred candidate never displaces anything |
| Names.PreferredWinsEitherOrder | extract_rxnorm_ingredients.py:49-59 | a preferred pair beats a non-preferred one whichever comes first |
| Names.BestName | extract_rxnorm_ingredients.py:133-135 | folding the choice over a concept's pairs yields a pair exactly when there is at least one |
| Names.BestNameIsFirstPreferred | extract_rxnorm_ingredients.py:133-135 | the fold keeps the first preferred pair, whatever comes before or after it |
| Names.BestNameWithoutPreferred | extract_rxnorm_ingredients.py:133-135 | with no preferred pair, the fold keeps the first pair |
| Names.NameMap | extract_rxnorm_ingredients.py:186-191 | each name map has the keys of its best-pair map, and each value is that pair's STR |
| Rxnconso.Classify | extract_rxnorm_ingredients.py:126-181 | a TTY is classified only as the category whose code it is, and is left unclassified only when it is no category's code |
| Rxnconso.ClassifyCode | extract_rxnorm_ingredients.py:126-181 | every category's code is classified as that category, so classifying inverts `Code` |
| Rxnconso.ClassifyTests | extract_rxnorm_ingredients.py:126-181 | each string test of the scan (`tty in TARGET_TTYS`, `tty == "SCDC"`, ...) holds exactly when the TTY is classified as that category |
| Rxnconso.IngredientStep | extract_rxnorm_ingredients.py:133-143 | one accepted ingredient row adds exactly its id to the keys of `ing_best_name` and of `ingredients` and to the IN/PIN/MIN sets together; the entry takes the row's TTY |
| Rxnconso.IngredientStepKeepsConsistent | extract_rxnorm_ingredients.py:133-143 | one accepted ingredient row keeps these true: `ingredients` and `ing_best_name` have the same keys, which are the union of the IN/PIN/MIN sets; every entry's name is the best name; every entry's TTY is IN, PIN or MIN |
| Rxnconso.IngredientScan | extract_rxnorm_ingredients.py:109-143 | after the whole scan `ingredients` and `ing_best_name` have the same keys, and these are exactly the ids in the IN, PIN and MIN sets |
| Rxnconso.BucketStep | extract_rxnorm_ingredients.py:145-181 | one product row adds its id to the category's set; the name map gains at most that id, and stays unchanged when the row fails the language filter |
| Rxnconso.BucketScan | extract_rxnorm_ingredients.py:145-181 | after the whole scan every product with a name is in its category's set; a member may lack a name when the language filter drops all its rows |
| Rxnconso.UniiScan | extract_rxnorm_ingredients.py:183-184 | every stored UNII is non-empty and belongs to a non-empty id |
| Rxnconso.RowStep | extract_rxnorm_ingredients.py:111-184 | one row never removes an ingredient entry or a member of a product set, and never changes a UNII already stored |
| Rxnconso.Scan | extract_rxnorm_ingredients.py:109-184 | in each of the six product categories, only members of the set have a name |
| Rxnconso.IngredientScanConsistent | extract_rxnorm_ingredients.py:109-143 | the ingredient tables after the whole scan have the same three properties |
| Rxnconso.ScanAppend | extract_rxnorm_ingredients.py:109-184 | one more row moves every accumulator by its own step, independently of the others |
| Rxnconso.AddIngredientRow | extract_rxnorm_ingredients.py:133-143 | the ingredient block stores the new best name with the row's TTY and adds the id to the set of its TTY |
| Rxnconso.AddProductRow | extract_rxnorm_ingredients.py:145-151 | a product block always adds the id to its set, and offers the name only under the language filter |
| Rxnconso.ScanRow | extract_rxnorm_ingredients.py:111-184 | the loop body applied to one split line has the effect of `RowStep` on all accumulators |
| Rxnconso.ScanRxnconso | extract_rxnorm_ingredients.py:62-211 | the scan returns exactly what the specification folds compute from the rows |
| Rxnconso.IngredientMembership | extract_rxnorm_ingredients.py:126-143 | an id is in the IN (PIN, MIN) set exactly when some row names it with: at least 18 fields, a non-empty RXCUI, SAB RXNORM, SUPPRESS N, LAT ENG under the filter, and that TTY |
| Rxnconso.IngredientTtyIsLast | extract_rxnorm_ingredients.py:134-137 | an id has an `ingredients` entry exactly when some accepted ingredient row names it; the entry's TTY is that of the last such row |
| Rxnconso.IngredientNames | extract_rxnorm_ingredients.py:133-136 | an ingredient's best pair is the name choice folded over its accepted rows' (TS, STR) pairs in file order |
| Rxnconso.ProductMembership | extract_rxnorm_ingredients.py:145-181 | an id is in a product set exactly when some active RxNorm row of that TTY names it, whatever its language |
| Rxnconso.ProductNames | extract_rxnorm_ingredients.py:145-181 | a product's best pair is the choice folded over the pairs of its active rows of that TTY that pass the language filter |
| Rxnconso.UniiFirstWins | extract_rxnorm_ingredients.py:183-184 | an id has a UNII exactly when some row names it with SAB MTHSPL, TTY SU and a non-empty CODE (no SUPPRESS or LAT test); the UNII is the CODE of the first such row |
| Rxnrel.ParentFirst | extract_rxnorm_ingredients.py:241-244 | the orientation test returns a (parent, other) pair built from the two ends, taking `c1` as the parent when both orders fit; it returns nothing exactly when neither order fits |
| Rxnrel.ChildFirst | extract_rxnorm_ingredients.py:277-280 | the same test, tried with `c1` as the other end first |
| Rxnrel.Contribution | extract_rxnorm_ingredients.py:225-251 | only a row with at least 16 fields, SAB RXNORM and both STYPEs CUI contributes, and only to a pre-filled key |
| Rxnrel.EmptyFor | extract_rxnorm_ingredients.py:220 | the pre-filled map has every parent candidate as a key, each with the empty set |
| Rxnrel.Resolve | extract_rxnorm_ingredients.py:220 | a resolver's result has exactly the parent candidates as keys |
| Rxnrel.ResolveMembers | extract_rxnorm_ingredients.py:220-251 | z is related to p exactly when some row contributes z to p |
| Rxnrel.ResolveWithin | extract_rxnorm_ingredients.py:241-251 | a direct resolver relates a parent only to members of its child set; an inheriting one only to what some source concept already has |
| Rxnrel.ResolveComplete | extract_rxnorm_ingredients.py:241-251 | what a row contributes stays in the result; no later row removes it |
| Rxnrel.SkipStep | extract_rxnorm_ingredients.py:225-237 | a row that is too short, not from RxNorm or not between two CUIs changes no resolver's map |
| Rxnrel.PackStep | extract_rxnorm_ingredients.py:318-328 | the effect of one usable row on an SCD → pack map, both orders tested, the first taking precedence |
| Rxnrel.PackRowFeedsBoth | extract_rxnorm_ingredients.py:318-328 | one pack row can add its pack to both the GPCK map and the BPCK map |
| Rxnrel.SbdStep | extract_rxnorm_ingredients.py:331-335 | the effect of one usable row on the SCD → SBD map: only tradename relations count |
| Rxnrel.PinStep | extract_rxnorm_ingredients.py:430-436 | a precise-ingredient row between an IN and a PIN adds the IN's SCDCs to the PIN's set |
| Rxnrel.MinStep | extract_rxnorm_ingredients.py:439-447 | a MIN row adds the SCDCs of a linked IN, or failing that of a linked SCD, with four orientations tested in order |
| Rxnrel.ScanRxnrelForScdc | extract_rxnorm_ingredients.py:213-251 | the ingredient → SCDC resolver equals its rule's fold; it requires every PIN to be a key, as the source does |
| Rxnrel.ScanRxnrelForScds | extract_rxnorm_ingredients.py:254-283 | the SCDC → SCD resolver, over `constitutes` rows only, equals its rule's fold |
| Rxnrel.ScanRxnrelForPacksSbd | extract_rxnorm_ingredients.py:286-337 | the three SCD maps (GPCK, BPCK, SBD) each equal the fold of their own rule |
| Rxnrel.ScanRxnrelForSbdBn | extract_rxnorm_ingredients.py:340-367 | the SBD → BN resolver equals its rule's fold |
| Rxnrel.DerivePinMinScdc | extract_rxnorm_ingredients.py:397-449 | the PIN and MIN propagation maps each equal the fold of their inheritance rule |
| Rxnsat.NdcRow | extract_rxnorm_ingredients.py:382-389 | the row filter of the NDC harvest: at least 13 fields, SAB RXNORM, ATN NDC, SUPPRESS N, non-empty CUI and ATV |
| Rxnsat.NdcScan | extract_rxnorm_ingredients.py:382-390 | the fold of the harvest: every key is a non-empty CUI with a non-empty set of codes |
| Rxnsat.NdcStep | extract_rxnorm_ingredients.py:388-390 | one NDC row adds its ATV to its CUI's set, creating the set if needed; any other row changes nothing |
| Rxnsat.ScanRxnsatNdcRxnorm | extract_rxnorm_ingredients.py:370-394 | a missing file gives the empty map; otherwise the map is the NDC fold of the rows |
| Rxnsat.NdcMembers | extract_rxnorm_ingredients.py:382-390 | a code is listed for a CUI exactly when some row has at least 13 fields, that CUI, that non-empty ATV, ATN NDC, SAB RXNORM and SUPPRESS N |
| Ordering.LexLe | extract_rxnorm_ingredients.py:577 | Python's `<=` on strings: a prefix of a string comes before it |
| Ordering.LexLeReflexive | extract_rxnorm_ingredients.py:577 | string order is reflexive |
| Ordering.LexLeTotal | extract_rxnorm_ingredients.py:577 | any two strings are ordered one way or the other |
| Ordering.LexLeTransitive | extract_rxnorm_ingredients.py:577 | string order is transitive |
| Ordering.LexLeAntisymmetric | extract_rxnorm_ingredients.py:577 | strings ordered both ways are equal |
| Ordering.Lower | extract_rxnorm_ingredients.py:632 | lower-casing keeps the length and lower-cases each ASCII letter on its own |
| Ordering.LowerIdempotent | extract_rxnorm_ingredients.py:632 | a lower-cased name has no upper-case ASCII letter, and lower-casing it again changes nothing |
| Ordering.InsertOn | extract_rxnorm_ingredients.py:632 | inserting into a key-ordered list adds exactly that element and keeps the list ordered |
| Ordering.SortBy | extract_rxnorm_ingredients.py:632 | sorting gives a permutation of the input whose keys never decrease |
| Ordering.ListSet | extract_rxnorm_ingredients.py:559 | iterating a set visits each element exactly once |
| Ordering.SortedIds | extract_rxnorm_ingredients.py:577 | sorting a set of ids gives every id exactly once, in non-decreasing key order |
| Pipeline.Invert | extract_rxnorm_ingredients.py:537-540 | every inverse entry lists only keys of the SCDC → SCD map, and every SCD that map lists is a key of the inverse |
| Pipeline.InvertMembers | extract_rxnorm_ingredients.py:537-540 | an SCD lists an SCDC in the inverse exactly when that SCDC lists the SCD; every inverse entry is non-empty |
| Pipeline.InvertEntry | extract_rxnorm_ingredients.py:539-540 | the inner loop adds one SCDC to the entry of each of its SCDs |
| Pipeline.InvertScdcToScds | extract_rxnorm_ingredients.py:537-540 | the inversion loop builds exactly the inverse of the SCDC → SCD map |
| Pipeline.Effective | extract_rxnorm_ingredients.py:558-570 | a concept in none of the IN, PIN and MIN sets gets no SCDCs |
| Pipeline.EffectiveBounds | extract_rxnorm_ingredients.py:558-570 | an ingredient's SCDCs come only from its entries in the three maps; an IN or PIN keeps all its own, and a PIN that is not an IN keeps all it inherits |
| Pipeline.EffectiveScdcs | extract_rxnorm_ingredients.py:560-570 | one ingredient's SCDCs: its own for an IN (tested first); its own and the inherited ones for a PIN; the derived ones for a MIN; none otherwise |
| Pipeline.UnifyScdcSets | extract_rxnorm_ingredients.py:558-570 | the unification loop gives every ingredient, and nothing else, its effective SCDC set |
| Pipeline.Unified | extract_rxnorm_ingredients.py:558-570 | `cui_to_scdc` has exactly the ingredient ids as keys |
| Pipeline.Extract | extract_rxnorm_ingredients.py:533-632 | the output, from the three inputs in `main`'s order, has exactly one well-formed record per ingredient whose effective SCDC set is non-empty, ordered by lower-cased name |
| Pipeline.LinksStayInCategory | extract_rxnorm_ingredients.py:533-555 | every map the resolvers build relates a concept only to concepts of the category its place in a record demands |
| Pipeline.LinkedScdcsAreScdcs | extract_rxnorm_ingredients.py:558-570 | every SCDC an ingredient is given, whether direct, inherited from an IN or derived for a MIN, is an SCDC concept |
| Pipeline.RecordIsIngredient | extract_rxnorm_ingredients.py:574-576 | a record's TTY is IN, PIN or MIN; some accepted RXNCONSO row names it; its name is the choice folded over those rows |
| Assembly.BuildNdcs | extract_rxnorm_ingredients.py:601-603 | an NDC list is present exactly when the concept has codes, and then lists each once in sorted order |
| Assembly.BuildPacks | extract_rxnorm_ingredients.py:604-616 | a GPCK/BPCK list is present exactly when the SCD has packs of that kind; it lists each once in name order, with name, TTY and its own NDCs |
| Assembly.BuildBns | extract_rxnorm_ingredients.py:595-597 | a BN list is present exactly when the SBD has brand names; it lists each once in name order |
| Assembly.BuildSbds | extract_rxnorm_ingredients.py:589-598 | an SBD list is present exactly when the SCD has SBDs; it lists each once in name order, with its NDCs and BNs |
| Assembly.BuildScd | extract_rxnorm_ingredients.py:599-619 | an SCD object has its name, TTY SCD, optional NDCs, GPCKs, BPCKs and SBDs, each as above |
| Assembly.BuildComponent | extract_rxnorm_ingredients.py:583-620 | an SCDC object has its name, TTY SCDC, and an SCD list that is always present and lists each SCD once in name order |
| Assembly.BuildRecord | extract_rxnorm_ingredients.py:574-630 | an ingredient gets no record exactly when its SCDC set is empty; otherwise the record has the stored name and TTY, each SCDC once in name order, and its UNII when that is non-empty |
| Assembly.RecordIdsPermutation | extract_rxnorm_ingredients.py:632 | reordering the records reorders their ids in the same way |
| Assembly.CollectRecords | extract_rxnorm_ingredients.py:573-630 | the collection loop gives one well-formed record for each ingredient with SCDCs, and no other |
| Assembly.Assemble | extract_rxnorm_ingredients.py:572-632 | the final list holds those records, ordered by lower-cased name |

## Left out

- File reading is not modelled: `open`, UTF-8 decoding with lossy replacement, and line iteration. The scans take the split rows as input, and `Rows.ParseLine` states how one line is split.
- RXNSAT is the only missing file the model covers, as `None`. A missing RXNCONSO or RXNREL ends `main` with a diagnostic, and that path is left out.
- `parse_args`, the path joining in `main` and the diagnostics it writes to standard error are command-line handling, not computation.
- `write_json` and `write_web_split` are the output sink (JSON text and files on disk). A record's absent keys are `None` fields, and the JSON key order is only the order of the datatype's fields.
- Ordering.ListSet: the order in which Python iterates a set or dict is not modelled; any listing of the elements is accepted. In the source, records come in the insertion order of `ingredients` (the first accepted row of each id), and sibling lists in set iteration order. So the model leaves open the relative order of siblings with equal names, and of records with equal lower-cased names.
- Ordering.SortBy: Python's sort is stable, but the contract states only a permutation that is ordered by the key, not stability.
- Rxnrel.ScanRxnrelForScdc: requires every PIN to be in the ingredient set. Without that, a precise-ingredient row linking an SCDC to a PIN outside the ingredient set makes the source raise `KeyError` (lines 247 and 249), and the model has no such error path. `main` passes the keys of `ingredients`, which include every PIN (lines 533-534), so the requirement always holds there.
- Ordering.Lower: lower-casing covers ASCII letters only; Unicode case mapping is not modelled.
