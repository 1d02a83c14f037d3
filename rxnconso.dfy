/**
 * The concept extractor: one pass over RXNCONSO rows that classifies
 * concepts into the ingredient categories (IN, PIN, MIN) and the six
 * product categories (SCDC, SCD, GPCK, BPCK, SBD, BN), keeps one display
 * name per concept and harvests a first-seen UNII code per concept.
 *
 * Each row updates several accumulators that never read one another, so
 * the specification is one left fold per accumulator (`IngredientScan`,
 * `BucketScan`, `UniiScan`), put together by `Scan`, and `RowStep` is
 * the effect of one row on all of them.  `ScanRxnconso` is the single
 * loop of the source, its body the method `ScanRow`, proved equal to
 * `Scan`; the lemmas state what the folds compute without mentioning
 * the folds.
 */
module Rxnconso {
  import opened Wrappers
  import opened Rows
  import opened Names

  // Column positions of the RXNCONSO layout.
  const RXCUI := 0
  const LAT := 1
  const TS := 2
  const SAB := 11
  const TTY := 12
  const CODE := 13
  const STR := 14
  const SUPPRESS := 16
  /** Rows with fewer fields are skipped. */
  const ConsoFields := 18

  const TargetTtys := {"IN", "PIN", "MIN"}

  /** The nine TTY codes the scan classifies. */
  datatype Category = IN | PIN | MIN | SCDC | SCD | GPCK | BPCK | SBD | BN

  predicate IsIngredient(k: Category)
  {
    k.IN? || k.PIN? || k.MIN?
  }

  function Code(k: Category): string
  {
    match k
    case IN => "IN"
    case PIN => "PIN"
    case MIN => "MIN"
    case SCDC => "SCDC"
    case SCD => "SCD"
    case GPCK => "GPCK"
    case BPCK => "BPCK"
    case SBD => "SBD"
    case BN => "BN"
  }

  /** The category a TTY string names, if any. */
  function Classify(tty: string): (k: Option<Category>)
    ensures k.Some? ==> Code(k.value) == tty
    ensures k.None? ==> forall c: Category :: Code(c) != tty
  {
    if tty == "IN" then Some(IN)
    else if tty == "PIN" then Some(PIN)
    else if tty == "MIN" then Some(MIN)
    else if tty == "SCDC" then Some(SCDC)
    else if tty == "SCD" then Some(SCD)
    else if tty == "GPCK" then Some(GPCK)
    else if tty == "BPCK" then Some(BPCK)
    else if tty == "SBD" then Some(SBD)
    else if tty == "BN" then Some(BN)
    else None
  }

  /** Every category's code is classified as that category. */
  lemma ClassifyCode(k: Category)
    ensures Classify(Code(k)) == Some(k)
  {
  }

  /** The string tests of the scan, restated on the classification. */
  lemma ClassifyTests(tty: string)
    ensures (tty in TargetTtys) <==> (Classify(tty).Some? && IsIngredient(Classify(tty).value))
    ensures tty == "IN" <==> Classify(tty) == Some(IN)
    ensures tty == "PIN" <==> Classify(tty) == Some(PIN)
    ensures tty == "MIN" <==> Classify(tty) == Some(MIN)
    ensures tty == "SCDC" <==> Classify(tty) == Some(SCDC)
    ensures tty == "SCD" <==> Classify(tty) == Some(SCD)
    ensures tty == "GPCK" <==> Classify(tty) == Some(GPCK)
    ensures tty == "BPCK" <==> Classify(tty) == Some(BPCK)
    ensures tty == "SBD" <==> Classify(tty) == Some(SBD)
    ensures tty == "BN" <==> Classify(tty) == Some(BN)
  {
  }

  /** What `ingredients[rxcui]` holds: the best name so far and the TTY of the last accepted row. */
  datatype Ingredient = Ingredient(name: string, tty: string)

  /** The ingredient accumulators: `ing_best_name`, `ingredients`, `in_set`, `pin_set`, `min_set`. */
  datatype IngredientTables = IngredientTables(
    best: map<string, NamePair>,
    ingredients: map<string, Ingredient>,
    inSet: set<string>,
    pinSet: set<string>,
    minSet: set<string>)

  /** A product category: its member set and its best-name map (`*_set`, `*_names_best`). */
  datatype Bucket = Bucket(ids: set<string>, best: map<string, NamePair>)

  /** Everything the scan returns. */
  datatype Concepts = Concepts(
    ing: IngredientTables,
    scdc: Bucket,
    scd: Bucket,
    gpck: Bucket,
    bpck: Bucket,
    sbd: Bucket,
    bn: Bucket,
    unii: map<string, string>)

  /** A row that may touch a category: wide enough, with an id, from RxNorm, not suppressed. */
  predicate Active(row: Row)
  {
    |row| >= ConsoFields && row[RXCUI] != "" && row[SAB] == TargetSab && row[SUPPRESS] == "N"
  }

  /** The language filter: every row passes unless `onlyEng`, then only LAT = ENG. */
  predicate Eng(row: Row, onlyEng: bool)
    requires |row| >= ConsoFields
  {
    !onlyEng || row[LAT] == "ENG"
  }

  /** An active row of category k (for a product k, whatever its language). */
  predicate RowOf(row: Row, k: Category)
  {
    Active(row) && Classify(row[TTY]) == Some(k)
  }

  /** A row accepted for the ingredient categories: membership and names alike need the language. */
  predicate IngredientRow(row: Row, onlyEng: bool)
  {
    Active(row) && row[TTY] in TargetTtys && Eng(row, onlyEng)
  }

  predicate IngredientRowFor(row: Row, onlyEng: bool, id: string)
  {
    IngredientRow(row, onlyEng) && row[RXCUI] == id
  }

  /** A product row that also takes part in the name choice. */
  predicate ProductNameRowFor(row: Row, k: Category, onlyEng: bool, id: string)
  {
    RowOf(row, k) && Eng(row, onlyEng) && row[RXCUI] == id
  }

  /** A row that offers a UNII code: MTHSPL source, TTY SU, non-empty CODE; no SUPPRESS or LAT test. */
  predicate UniiRow(row: Row)
  {
    |row| >= ConsoFields && row[RXCUI] != "" && row[SAB] == "MTHSPL" && row[TTY] == "SU" && row[CODE] != ""
  }

  predicate UniiRowFor(row: Row, id: string)
  {
    UniiRow(row) && row[RXCUI] == id
  }

  function Pair(row: Row): NamePair
    requires |row| >= ConsoFields
  {
    NamePair(row[TS], row[STR])
  }

  function AddName(best: map<string, NamePair>, id: string, p: NamePair): map<string, NamePair>
  {
    best[id := ChooseName(Get(best, id), p)]
  }

  /**
   * The ingredient map has exactly the concepts of the three ingredient
   * sets as keys, each with its best name and an ingredient TTY.
   */
  ghost predicate IngredientsConsistent(t: IngredientTables)
  {
    && t.ingredients.Keys == t.best.Keys == t.inSet + t.pinSet + t.minSet
    && forall id :: id in t.ingredients ==>
         t.ingredients[id].name == t.best[id].str && t.ingredients[id].tty in TargetTtys
  }

  /** One accepted ingredient row: fold its name in, record its TTY, add it to its set. */
  function IngredientStep(t: IngredientTables, row: Row): (r: IngredientTables)
    requires |row| >= ConsoFields && row[TTY] in TargetTtys
    ensures r.best.Keys == t.best.Keys + {row[RXCUI]}
    ensures r.ingredients.Keys == t.ingredients.Keys + {row[RXCUI]}
    ensures r.inSet + r.pinSet + r.minSet == t.inSet + t.pinSet + t.minSet + {row[RXCUI]}
    ensures r.ingredients[row[RXCUI]].tty == row[TTY]
  {
    var id, tty := row[RXCUI], row[TTY];
    var best := ChooseName(Get(t.best, id), Pair(row));
    IngredientTables(
      t.best[id := best],
      t.ingredients[id := Ingredient(best.str, tty)],
      if tty == "IN" then t.inSet + {id} else t.inSet,
      if tty == "PIN" then t.pinSet + {id} else t.pinSet,
      if tty == "MIN" then t.minSet + {id} else t.minSet)
  }

  lemma IngredientStepKeepsConsistent(t: IngredientTables, row: Row)
    requires |row| >= ConsoFields && row[TTY] in TargetTtys
    requires IngredientsConsistent(t)
    ensures IngredientsConsistent(IngredientStep(t, row))
  {
  }

  /** The ingredient accumulators after the rows, as a left fold. */
  function IngredientScan(rows: seq<Row>, onlyEng: bool): (r: IngredientTables)
    ensures r.ingredients.Keys == r.best.Keys == r.inSet + r.pinSet + r.minSet
  {
    if rows == [] then IngredientTables(map[], map[], {}, {}, {})
    else
      var before, last := IngredientScan(rows[..|rows| - 1], onlyEng), rows[|rows| - 1];
      if IngredientRow(last, onlyEng) then IngredientStep(before, last) else before
  }

  /** One row of category k: membership always, the name only under the language filter. */
  function BucketStep(b: Bucket, row: Row, onlyEng: bool): (r: Bucket)
    requires |row| >= ConsoFields
    ensures r.ids == b.ids + {row[RXCUI]}
    ensures r.best.Keys <= b.best.Keys + {row[RXCUI]}
    ensures !Eng(row, onlyEng) ==> r.best == b.best
  {
    Bucket(b.ids + {row[RXCUI]},
           if Eng(row, onlyEng) then AddName(b.best, row[RXCUI], Pair(row)) else b.best)
  }

  /** The ingredient tables the scan builds are consistent. */
  lemma {:induction false} IngredientScanConsistent(rows: seq<Row>, onlyEng: bool)
    ensures IngredientsConsistent(IngredientScan(rows, onlyEng))
  {
    if rows != [] {
      IngredientScanConsistent(rows[..|rows| - 1], onlyEng);
      if IngredientRow(rows[|rows| - 1], onlyEng) {
        IngredientStepKeepsConsistent(IngredientScan(rows[..|rows| - 1], onlyEng), rows[|rows| - 1]);
      }
    }
  }

  /** Product category k after the rows, as a left fold. */
  function BucketScan(rows: seq<Row>, k: Category, onlyEng: bool): (r: Bucket)
    ensures r.best.Keys <= r.ids
  {
    if rows == [] then Bucket({}, map[])
    else
      var before, last := BucketScan(rows[..|rows| - 1], k, onlyEng), rows[|rows| - 1];
      if RowOf(last, k) then BucketStep(before, last, onlyEng) else before
  }

  /** The UNII map after the rows, as a left fold (`setdefault`: the first code stays). */
  function UniiScan(rows: seq<Row>): (r: map<string, string>)
    ensures forall id :: id in r ==> id != "" && r[id] != ""
  {
    if rows == [] then map[]
    else
      var before, last := UniiScan(rows[..|rows| - 1]), rows[|rows| - 1];
      if UniiRow(last) && last[RXCUI] !in before then before[last[RXCUI] := last[CODE]] else before
  }

  /** Everything `scan_rxnconso` returns. */
  function Scan(rows: seq<Row>, onlyEng: bool): (r: Concepts)
    ensures && r.scdc.best.Keys <= r.scdc.ids && r.scd.best.Keys <= r.scd.ids
            && r.gpck.best.Keys <= r.gpck.ids && r.bpck.best.Keys <= r.bpck.ids
            && r.sbd.best.Keys <= r.sbd.ids && r.bn.best.Keys <= r.bn.ids
  {
    Concepts(IngredientScan(rows, onlyEng),
             BucketScan(rows, SCDC, onlyEng), BucketScan(rows, SCD, onlyEng),
             BucketScan(rows, GPCK, onlyEng), BucketScan(rows, BPCK, onlyEng),
             BucketScan(rows, SBD, onlyEng), BucketScan(rows, BN, onlyEng),
             UniiScan(rows))
  }

  /** The effect of one row on everything the scan keeps: each fold's step, taken independently. */
  function RowStep(c: Concepts, row: Row, onlyEng: bool): (r: Concepts)
    ensures c.ing.ingredients.Keys <= r.ing.ingredients.Keys
    ensures && c.scdc.ids <= r.scdc.ids && c.scd.ids <= r.scd.ids && c.gpck.ids <= r.gpck.ids
            && c.bpck.ids <= r.bpck.ids && c.sbd.ids <= r.sbd.ids && c.bn.ids <= r.bn.ids
    ensures c.unii.Keys <= r.unii.Keys && forall id :: id in c.unii ==> r.unii[id] == c.unii[id]
  {
    Concepts(
      if IngredientRow(row, onlyEng) then IngredientStep(c.ing, row) else c.ing,
      if RowOf(row, SCDC) then BucketStep(c.scdc, row, onlyEng) else c.scdc,
      if RowOf(row, SCD) then BucketStep(c.scd, row, onlyEng) else c.scd,
      if RowOf(row, GPCK) then BucketStep(c.gpck, row, onlyEng) else c.gpck,
      if RowOf(row, BPCK) then BucketStep(c.bpck, row, onlyEng) else c.bpck,
      if RowOf(row, SBD) then BucketStep(c.sbd, row, onlyEng) else c.sbd,
      if RowOf(row, BN) then BucketStep(c.bn, row, onlyEng) else c.bn,
      if UniiRow(row) && row[RXCUI] !in c.unii then c.unii[row[RXCUI] := row[CODE]] else c.unii)
  }

  /** One more row moves every fold of `Scan` by its own step. */
  lemma ScanAppend(rows: seq<Row>, row: Row, onlyEng: bool)
    ensures Scan(rows + [row], onlyEng) == RowStep(Scan(rows, onlyEng), row, onlyEng)
  {
    assert (rows + [row])[..|rows|] == rows;
  }

  /** The block of the scan for an accepted ingredient row. */
  method AddIngredientRow(t: IngredientTables, row: Row) returns (t': IngredientTables)
    requires |row| >= ConsoFields && row[TTY] in TargetTtys
    ensures t' == IngredientStep(t, row)
  {
    var rxcui, ts, tty, name := row[RXCUI], row[TS], row[TTY], row[STR];
    var ingBestName := t.best[rxcui := ChooseName(Get(t.best, rxcui), NamePair(ts, name))];
    // setdefault followed by overwriting both keys: the entry ends as (best name, this TTY)
    var ingredients := t.ingredients[rxcui := Ingredient(ingBestName[rxcui].str, tty)];
    var inSet, pinSet, minSet := t.inSet, t.pinSet, t.minSet;
    if tty == "IN" {
      inSet := inSet + {rxcui};
    } else if tty == "PIN" {
      pinSet := pinSet + {rxcui};
    } else if tty == "MIN" {
      minSet := minSet + {rxcui};
    }
    t' := IngredientTables(ingBestName, ingredients, inSet, pinSet, minSet);
  }

  /** The block the scan repeats for each product category: add the id, maybe offer the name. */
  method AddProductRow(b: Bucket, row: Row, onlyEng: bool) returns (b': Bucket)
    requires |row| >= ConsoFields
    ensures b' == BucketStep(b, row, onlyEng)
  {
    var rxcui, lat, ts, name := row[RXCUI], row[LAT], row[TS], row[STR];
    var ids, best := b.ids + {rxcui}, b.best;
    if !onlyEng || lat == "ENG" {
      best := best[rxcui := ChooseName(Get(best, rxcui), NamePair(ts, name))];
    }
    b' := Bucket(ids, best);
  }

  /** The body of the scan's loop for one split line; `return` stands for `continue`. */
  method ScanRow(c: Concepts, parts: Row, onlyEng: bool) returns (c': Concepts)
    ensures c' == RowStep(c, parts, onlyEng)
  {
    c' := c;
    if |parts| < ConsoFields {
      return;
    }
    var rxcui, lat, sab, tty := parts[RXCUI], parts[LAT], parts[SAB], parts[TTY];
    var code, suppress := parts[CODE], parts[SUPPRESS];
    if rxcui == "" {
      return;
    }
    ClassifyTests(tty);
    if sab == TargetSab {
      if tty in TargetTtys {
        if suppress != "N" {
          return;
        }
        if onlyEng && lat != "ENG" {
          return;
        }
        var ing := AddIngredientRow(c'.ing, parts);
        c' := c'.(ing := ing);
      } else if tty == "SCDC" {
        if suppress != "N" {
          return;
        }
        var b := AddProductRow(c'.scdc, parts, onlyEng);
        c' := c'.(scdc := b);
      } else if tty == "SCD" {
        if suppress != "N" {
          return;
        }
        var b := AddProductRow(c'.scd, parts, onlyEng);
        c' := c'.(scd := b);
      } else if tty == "GPCK" {
        if suppress != "N" {
          return;
        }
        var b := AddProductRow(c'.gpck, parts, onlyEng);
        c' := c'.(gpck := b);
      } else if tty == "BPCK" {
        if suppress != "N" {
          return;
        }
        var b := AddProductRow(c'.bpck, parts, onlyEng);
        c' := c'.(bpck := b);
      } else if tty == "SBD" {
        if suppress != "N" {
          return;
        }
        var b := AddProductRow(c'.sbd, parts, onlyEng);
        c' := c'.(sbd := b);
      } else if tty == "BN" {
        if suppress != "N" {
          return;
        }
        var b := AddProductRow(c'.bn, parts, onlyEng);
        c' := c'.(bn := b);
      }
    }
    if sab == "MTHSPL" && tty == "SU" && code != "" {
      // setdefault: the first code seen for an id is kept
      if rxcui !in c'.unii {
        c' := c'.(unii := c'.unii[rxcui := code]);
      }
    }
  }

  /**
   * `scan_rxnconso`, the file reading left out: one loop over the split
   * rows; the eighteen accumulators are the fields of one `Concepts` value.
   */
  method ScanRxnconso(rows: seq<Row>, onlyEng: bool) returns (c: Concepts)
    ensures c == Scan(rows, onlyEng)
  {
    c := Concepts(IngredientTables(map[], map[], {}, {}, {}),
                  Bucket({}, map[]), Bucket({}, map[]), Bucket({}, map[]),
                  Bucket({}, map[]), Bucket({}, map[]), Bucket({}, map[]), map[]);
    for i := 0 to |rows|
      invariant c == Scan(rows[..i], onlyEng)
    {
      assert rows[..i + 1] == rows[..i] + [rows[i]];
      ScanAppend(rows[..i], rows[i], onlyEng);
      c := ScanRow(c, rows[i], onlyEng);
    }
    assert rows[..|rows|] == rows;
  }

  // ---------------------------------------------------------------------
  // What the scan computes, stated row by row.

  /** The set of an ingredient category: `in_set`, `pin_set` or `min_set`. */
  function IngredientSet(t: IngredientTables, k: Category): set<string>
    requires IsIngredient(k)
  {
    if k == IN then t.inSet else if k == PIN then t.pinSet else t.minSet
  }

  /** The (TS, STR) pairs the accepted ingredient rows of one concept offer, in file order. */
  function IngredientPairs(rows: seq<Row>, onlyEng: bool, id: string): seq<NamePair>
  {
    if rows == [] then []
    else
      var before, last := IngredientPairs(rows[..|rows| - 1], onlyEng, id), rows[|rows| - 1];
      if IngredientRowFor(last, onlyEng, id) then before + [Pair(last)] else before
  }

  /** The (TS, STR) pairs the rows of one product concept offer under the language filter. */
  function ProductPairs(rows: seq<Row>, k: Category, onlyEng: bool, id: string): seq<NamePair>
  {
    if rows == [] then []
    else
      var before, last := ProductPairs(rows[..|rows| - 1], k, onlyEng, id), rows[|rows| - 1];
      if ProductNameRowFor(last, k, onlyEng, id) then before + [Pair(last)] else before
  }

  /** A concept is in an ingredient set exactly when some accepted row of that TTY names it. */
  lemma {:induction false} IngredientMembership(rows: seq<Row>, onlyEng: bool, k: Category, id: string)
    requires IsIngredient(k)
    ensures id in IngredientSet(IngredientScan(rows, onlyEng), k) <==>
      exists i :: 0 <= i < |rows| && IngredientRowFor(rows[i], onlyEng, id) && Classify(rows[i][TTY]) == Some(k)
  {
    if rows != [] {
      var n := |rows|;
      var front, last := rows[..n - 1], rows[n - 1];
      IngredientMembership(front, onlyEng, k, id);
      assert forall i :: 0 <= i < n - 1 ==> front[i] == rows[i];
      if IngredientRow(last, onlyEng) {
        ClassifyTests(last[TTY]);
      }
    }
  }

  /**
   * A concept has an `ingredients` entry exactly when some accepted row
   * names it; the entry's TTY is that of the last such row.
   */
  lemma {:induction false} IngredientTtyIsLast(rows: seq<Row>, onlyEng: bool, id: string)
    ensures id in IngredientScan(rows, onlyEng).ingredients <==>
      exists i :: 0 <= i < |rows| && IngredientRowFor(rows[i], onlyEng, id)
    ensures id in IngredientScan(rows, onlyEng).ingredients ==>
      exists i :: (0 <= i < |rows| && IngredientRowFor(rows[i], onlyEng, id)
        && IngredientScan(rows, onlyEng).ingredients[id].tty == rows[i][TTY]
        && forall j :: i < j < |rows| ==> !IngredientRowFor(rows[j], onlyEng, id))
  {
    if rows != [] {
      var n := |rows|;
      var front, last := rows[..n - 1], rows[n - 1];
      IngredientTtyIsLast(front, onlyEng, id);
      assert forall i :: 0 <= i < n - 1 ==> front[i] == rows[i];
      if IngredientRowFor(last, onlyEng, id) {
        assert IngredientScan(rows, onlyEng).ingredients[id].tty == last[TTY];
      } else if id in IngredientScan(rows, onlyEng).ingredients {
        assert IngredientScan(rows, onlyEng).ingredients[id] == IngredientScan(front, onlyEng).ingredients[id];
        var i :| 0 <= i < n - 1 && IngredientRowFor(front[i], onlyEng, id)
          && IngredientScan(front, onlyEng).ingredients[id].tty == front[i][TTY]
          && forall j :: i < j < n - 1 ==> !IngredientRowFor(front[j], onlyEng, id);
        assert forall j :: i < j < n ==> !IngredientRowFor(rows[j], onlyEng, id);
      }
    }
  }

  /** An ingredient's best pair is the choice folded over its accepted rows' pairs. */
  lemma {:induction false} IngredientNames(rows: seq<Row>, onlyEng: bool, id: string)
    ensures Get(IngredientScan(rows, onlyEng).best, id) == BestName(IngredientPairs(rows, onlyEng, id))
  {
    if rows != [] {
      var n := |rows|;
      var front, last := rows[..n - 1], rows[n - 1];
      IngredientNames(front, onlyEng, id);
      var pairs := IngredientPairs(rows, onlyEng, id);
      if IngredientRowFor(last, onlyEng, id) {
        assert pairs[..|pairs| - 1] == IngredientPairs(front, onlyEng, id);
      }
    }
  }

  /** A concept is in product bucket k exactly when some active row of category k names it. */
  lemma {:induction false} ProductMembership(rows: seq<Row>, k: Category, onlyEng: bool, id: string)
    ensures id in BucketScan(rows, k, onlyEng).ids <==>
      exists i :: 0 <= i < |rows| && RowOf(rows[i], k) && rows[i][RXCUI] == id
  {
    if rows != [] {
      var n := |rows|;
      ProductMembership(rows[..n - 1], k, onlyEng, id);
      assert forall i :: 0 <= i < n - 1 ==> rows[..n - 1][i] == rows[i];
    }
  }

  /** A product's best pair is the choice folded over the pairs of its rows that pass the language filter. */
  lemma {:induction false} ProductNames(rows: seq<Row>, k: Category, onlyEng: bool, id: string)
    ensures Get(BucketScan(rows, k, onlyEng).best, id) == BestName(ProductPairs(rows, k, onlyEng, id))
  {
    if rows != [] {
      var n := |rows|;
      var front, last := rows[..n - 1], rows[n - 1];
      ProductNames(front, k, onlyEng, id);
      var pairs := ProductPairs(rows, k, onlyEng, id);
      if ProductNameRowFor(last, k, onlyEng, id) {
        assert pairs[..|pairs| - 1] == ProductPairs(front, k, onlyEng, id);
      }
    }
  }

  /** A concept has a UNII exactly when some row offers one; the code kept is the first row's. */
  lemma {:induction false} UniiFirstWins(rows: seq<Row>, id: string)
    ensures id in UniiScan(rows) <==> exists i :: 0 <= i < |rows| && UniiRowFor(rows[i], id)
    ensures id in UniiScan(rows) ==>
      exists i :: (0 <= i < |rows| && UniiRowFor(rows[i], id) && UniiScan(rows)[id] == rows[i][CODE]
        && forall j :: 0 <= j < i ==> !UniiRowFor(rows[j], id))
  {
    if rows != [] {
      var n := |rows|;
      var front, last := rows[..n - 1], rows[n - 1];
      UniiFirstWins(front, id);
      assert forall i :: 0 <= i < n - 1 ==> front[i] == rows[i];
      if id in UniiScan(front) {
        var i :| 0 <= i < n - 1 && UniiRowFor(front[i], id) && UniiScan(front)[id] == front[i][CODE]
          && forall j :: 0 <= j < i ==> !UniiRowFor(front[j], id);
        assert UniiScan(rows)[id] == rows[i][CODE];
      } else if UniiRowFor(last, id) {
        assert UniiScan(rows)[id] == rows[n - 1][CODE];
      }
    }
  }
}
