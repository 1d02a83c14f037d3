/**
 * The relationship resolvers.  Each reads RXNREL rows (RXCUI1, STYPE1,
 * RXCUI2, STYPE2, RELA, SAB) and builds a map from a parent concept to
 * the set of related concepts, with a key for every parent candidate,
 * pre-filled with the empty set.  A row counts only when it is wide
 * enough, comes from RxNorm and joins two concepts (STYPE1 = STYPE2 =
 * CUI); its relation name selects the resolver's rule, and the two ends
 * may come in either order.
 *
 * All resolvers share one specification: a `Rule` says, for one row,
 * which key grows and by which set (`Contribution`), and `Resolve` folds
 * the rows from the left.  Each scan of the source is a method with its
 * own loop, proved equal to `Resolve` of its rule.
 */
module Rxnrel {
  import opened Wrappers
  import opened Rows

  // Column positions of the RXNREL layout.
  const RXCUI1 := 0
  const STYPE1 := 2
  const RXCUI2 := 4
  const STYPE2 := 6
  const RELA := 7
  const RelSab := 10
  /** Rows with fewer fields are skipped. */
  const RelFields := 16

  const IngredientRelas := {"has_ingredient", "ingredient_of"}
  const PreciseRelas := {"has_precise_ingredient", "precise_ingredient_of"}
  const PackRelas := {"contains", "contained_in"}
  const TradenameRelas := {"has_tradename", "tradename_of"}
  /** The relations the MIN propagation follows (note: `ingredient_of` is not among them). */
  const MinRelas := {"has_ingredient", "has_ingredients", "ingredients_of"}

  /** A row the resolvers look at: wide enough, from RxNorm, between two concepts. */
  predicate Usable(row: Row)
  {
    |row| >= RelFields && row[RelSab] == TargetSab && row[STYPE1] == "CUI" && row[STYPE2] == "CUI"
  }

  /**
   * The orientation test that tries "c1 is the parent" first: the pair
   * (parent, other) when one end is in `parents` and the other in `others`.
   */
  function ParentFirst(c1: string, c2: string, parents: set<string>, others: set<string>): (e: Option<(string, string)>)
    ensures e.Some? ==> e.value.0 in parents && e.value.1 in others
    ensures e.Some? ==> e.value == (c1, c2) || e.value == (c2, c1)
    ensures e.None? <==> !(c1 in parents && c2 in others) && !(c2 in parents && c1 in others)
    ensures c1 in parents && c2 in others ==> e == Some((c1, c2))
  {
    if c1 in parents && c2 in others then Some((c1, c2))
    else if c2 in parents && c1 in others then Some((c2, c1))
    else None
  }

  /** The orientation test that tries "c1 is the other end" first. */
  function ChildFirst(c1: string, c2: string, parents: set<string>, others: set<string>): (e: Option<(string, string)>)
    ensures e.Some? ==> e.value.0 in parents && e.value.1 in others
    ensures e.Some? ==> e.value == (c1, c2) || e.value == (c2, c1)
    ensures e.None? <==> !(c1 in parents && c2 in others) && !(c2 in parents && c1 in others)
    ensures c1 in others && c2 in parents ==> e == Some((c2, c1))
  {
    if c1 in others && c2 in parents then Some((c2, c1))
    else if c2 in others && c1 in parents then Some((c1, c2))
    else None
  }

  /** The pair's parent gains the pair's other end. */
  function Single(e: Option<(string, string)>): (c: Option<(string, set<string>)>)
    ensures c.Some? <==> e.Some?
    ensures c.Some? ==> c.value == (e.value.0, {e.value.1})
  {
    if e.Some? then Some((e.value.0, {e.value.1})) else None
  }

  /** What one resolver relates, with the sets (and maps) it is given. */
  datatype Rule =
    | IngredientScdc(ingredients: set<string>, scdcs: set<string>, pins: set<string>)
    | ScdcScd(scdcs: set<string>, scds: set<string>)
    | ScdPack(scds: set<string>, packs: set<string>)
    | ScdSbd(scds: set<string>, sbds: set<string>)
    | SbdBn(sbds: set<string>, bns: set<string>)
    | PinInherit(ins: set<string>, pins: set<string>, ingToScdc: map<string, set<string>>)
    | MinInherit(mins: set<string>, ins: set<string>, scds: set<string>,
                 ingToScdc: map<string, set<string>>, scdToScdc: map<string, set<string>>)

  /** The keys the result is pre-filled with. */
  function Keys(r: Rule): set<string>
  {
    match r
    case IngredientScdc(ingredients, _, _) => ingredients
    case ScdcScd(scdcs, _) => scdcs
    case ScdPack(scds, _) => scds
    case ScdSbd(scds, _) => scds
    case SbdBn(sbds, _) => sbds
    case PinInherit(_, pins, _) => pins
    case MinInherit(mins, _, _, _, _) => mins
  }

  /**
   * The one demand a resolver makes of its caller: the SCDC resolver adds
   * to the entry of a PIN, so every PIN must be a key (otherwise the
   * source fails with a missing key).
   */
  predicate WellFormed(r: Rule)
  {
    r.IngredientScdc? ==> r.pins <= r.ingredients
  }

  /** Which key grows by which set when the resolver reads `row`. */
  function Contribution(r: Rule, row: Row): (c: Option<(string, set<string>)>)
    requires WellFormed(r)
    ensures c.Some? ==> Usable(row) && c.value.0 in Keys(r)
  {
    if !Usable(row) then None
    else
      var c1, c2, rela := row[RXCUI1], row[RXCUI2], row[RELA];
      match r
      case IngredientScdc(ingredients, scdcs, pins) =>
        if rela in IngredientRelas then Single(ParentFirst(c1, c2, ingredients, scdcs))
        else if rela in PreciseRelas then Single(ParentFirst(c1, c2, pins, scdcs))
        else None
      case ScdcScd(scdcs, scds) =>
        if rela == "constitutes" then Single(ChildFirst(c1, c2, scdcs, scds)) else None
      case ScdPack(scds, packs) =>
        if rela in PackRelas then Single(ParentFirst(c1, c2, scds, packs)) else None
      case ScdSbd(scds, sbds) =>
        if rela in TradenameRelas then Single(ParentFirst(c1, c2, scds, sbds)) else None
      case SbdBn(sbds, bns) =>
        if rela in IngredientRelas then Single(ChildFirst(c1, c2, sbds, bns)) else None
      case PinInherit(ins, pins, ingToScdc) =>
        if rela in PreciseRelas then
          var e := ChildFirst(c1, c2, pins, ins);
          if e.Some? then Some((e.value.0, GetOr(ingToScdc, e.value.1, {}))) else None
        else None
      case MinInherit(mins, ins, scds, ingToScdc, scdToScdc) =>
        if rela in MinRelas then
          var e := ParentFirst(c1, c2, mins, ins);
          if e.Some? then Some((e.value.0, GetOr(ingToScdc, e.value.1, {})))
          else
            var d := ParentFirst(c1, c2, mins, scds);
            if d.Some? then Some((d.value.0, GetOr(scdToScdc, d.value.1, {}))) else None
        else None
  }

  /** Every candidate parent, with nothing related yet. */
  function EmptyFor(keys: set<string>): (m: map<string, set<string>>)
    ensures m.Keys == keys
    ensures forall k :: k in m ==> m[k] == {}
  {
    map k | k in keys :: {}
  }

  /** The resolver's map after the rows, as a left fold. */
  function Resolve(r: Rule, rows: seq<Row>): (m: map<string, set<string>>)
    requires WellFormed(r)
    ensures m.Keys == Keys(r)
  {
    if rows == [] then EmptyFor(Keys(r))
    else
      var before, c := Resolve(r, rows[..|rows| - 1]), Contribution(r, rows[|rows| - 1]);
      if c.Some? then before[c.value.0 := before[c.value.0] + c.value.1] else before
  }

  /** Row `row` makes `z` a relative of `p` under rule r. */
  predicate Contributes(r: Rule, row: Row, p: string, z: string)
    requires WellFormed(r)
  {
    var c := Contribution(r, row);
    c.Some? && c.value.0 == p && z in c.value.1
  }

  /** `z` is related to `p` exactly when some row contributes it. */
  lemma {:induction false} ResolveMembers(r: Rule, rows: seq<Row>, p: string, z: string)
    requires WellFormed(r) && p in Keys(r)
    ensures z in Resolve(r, rows)[p] <==> exists i :: 0 <= i < |rows| && Contributes(r, rows[i], p, z)
  {
    if rows != [] {
      var n := |rows|;
      ResolveMembers(r, rows[..n - 1], p, z);
      assert forall i :: 0 <= i < n - 1 ==> rows[..n - 1][i] == rows[i];
    }
  }

  /** Where the related concepts of a rule come from. */
  ghost predicate Within(r: Rule, z: string)
  {
    match r
    case IngredientScdc(_, scdcs, _) => z in scdcs
    case ScdcScd(_, scds) => z in scds
    case ScdPack(_, packs) => z in packs
    case ScdSbd(_, sbds) => z in sbds
    case SbdBn(_, bns) => z in bns
    case PinInherit(ins, _, ingToScdc) => exists x :: x in ins && z in GetOr(ingToScdc, x, {})
    case MinInherit(_, ins, scds, ingToScdc, scdToScdc) =>
      (exists x :: x in ins && z in GetOr(ingToScdc, x, {}))
      || (exists x :: x in scds && z in GetOr(scdToScdc, x, {}))
  }

  /** A direct resolver relates a parent only to concepts of its target set; an inheriting one only to what a source concept has. */
  lemma ResolveWithin(r: Rule, rows: seq<Row>, p: string, z: string)
    requires WellFormed(r) && p in Keys(r) && z in Resolve(r, rows)[p]
    ensures Within(r, z)
  {
    ResolveMembers(r, rows, p, z);
    var i :| 0 <= i < |rows| && Contributes(r, rows[i], p, z);
  }

  /** Whatever a row contributes is in the result: nothing a later row does removes it. */
  lemma ResolveComplete(r: Rule, rows: seq<Row>, i: int)
    requires WellFormed(r) && 0 <= i < |rows| && Contribution(r, rows[i]).Some?
    ensures Contribution(r, rows[i]).value.1 <= Resolve(r, rows)[Contribution(r, rows[i]).value.0]
  {
    var c := Contribution(r, rows[i]).value;
    forall z | z in c.1
      ensures z in Resolve(r, rows)[c.0]
    {
      ResolveMembers(r, rows, c.0, z);
      assert Contributes(r, rows[i], c.0, z);
    }
  }

  /** The pack tests are independent: one pack row can put its pack in both the GPCK and the BPCK map. */
  lemma PackRowFeedsBoth(rows: seq<Row>, scds: set<string>, gpcks: set<string>, bpcks: set<string>, i: int)
    requires 0 <= i < |rows| && Usable(rows[i]) && rows[i][RELA] in PackRelas
    requires rows[i][RXCUI1] in scds && rows[i][RXCUI2] in gpcks && rows[i][RXCUI2] in bpcks
    ensures rows[i][RXCUI2] in Resolve(ScdPack(scds, gpcks), rows)[rows[i][RXCUI1]]
    ensures rows[i][RXCUI2] in Resolve(ScdPack(scds, bpcks), rows)[rows[i][RXCUI1]]
  {
    ResolveComplete(ScdPack(scds, gpcks), rows, i);
    ResolveComplete(ScdPack(scds, bpcks), rows, i);
  }

  /** An unusable row changes no resolver's map. */
  lemma SkipStep(r: Rule, rows: seq<Row>, row: Row)
    requires WellFormed(r) && !Usable(row)
    ensures Resolve(r, rows + [row]) == Resolve(r, rows)
  {
    assert (rows + [row])[..|rows|] == rows;
  }

  /** One usable row, as the pack resolver tests it. */
  lemma PackStep(scds: set<string>, packs: set<string>, rows: seq<Row>, row: Row)
    requires Usable(row)
    ensures var before, c1, c2 := Resolve(ScdPack(scds, packs), rows), row[RXCUI1], row[RXCUI2];
      Resolve(ScdPack(scds, packs), rows + [row]) ==
        if row[RELA] !in PackRelas then before
        else if c1 in scds && c2 in packs then before[c1 := before[c1] + {c2}]
        else if c2 in scds && c1 in packs then before[c2 := before[c2] + {c1}]
        else before
  {
    assert (rows + [row])[..|rows|] == rows;
  }

  /** One usable row, as the brand resolver tests it. */
  lemma SbdStep(scds: set<string>, sbds: set<string>, rows: seq<Row>, row: Row)
    requires Usable(row)
    ensures var before, c1, c2 := Resolve(ScdSbd(scds, sbds), rows), row[RXCUI1], row[RXCUI2];
      Resolve(ScdSbd(scds, sbds), rows + [row]) ==
        if row[RELA] !in TradenameRelas then before
        else if c1 in scds && c2 in sbds then before[c1 := before[c1] + {c2}]
        else if c2 in scds && c1 in sbds then before[c2 := before[c2] + {c1}]
        else before
  {
    assert (rows + [row])[..|rows|] == rows;
  }

  /** One usable row, as the PIN propagation tests it. */
  lemma PinStep(ins: set<string>, pins: set<string>, ingToScdc: map<string, set<string>>, rows: seq<Row>, row: Row)
    requires Usable(row)
    ensures var before, c1, c2 := Resolve(PinInherit(ins, pins, ingToScdc), rows), row[RXCUI1], row[RXCUI2];
      Resolve(PinInherit(ins, pins, ingToScdc), rows + [row]) ==
        if row[RELA] !in PreciseRelas then before
        else if c1 in ins && c2 in pins then before[c2 := before[c2] + GetOr(ingToScdc, c1, {})]
        else if c2 in ins && c1 in pins then before[c1 := before[c1] + GetOr(ingToScdc, c2, {})]
        else before
  {
    assert (rows + [row])[..|rows|] == rows;
  }

  /** One usable row, as the MIN propagation tests it. */
  lemma MinStep(mins: set<string>, ins: set<string>, scds: set<string>,
                ingToScdc: map<string, set<string>>, scdToScdc: map<string, set<string>>, rows: seq<Row>, row: Row)
    requires Usable(row)
    ensures var r := MinInherit(mins, ins, scds, ingToScdc, scdToScdc);
      var before, c1, c2 := Resolve(r, rows), row[RXCUI1], row[RXCUI2];
      Resolve(r, rows + [row]) ==
        if row[RELA] !in MinRelas then before
        else if c1 in mins && c2 in ins then before[c1 := before[c1] + GetOr(ingToScdc, c2, {})]
        else if c2 in mins && c1 in ins then before[c2 := before[c2] + GetOr(ingToScdc, c1, {})]
        else if c1 in mins && c2 in scds then before[c1 := before[c1] + GetOr(scdToScdc, c2, {})]
        else if c2 in mins && c1 in scds then before[c2 := before[c2] + GetOr(scdToScdc, c1, {})]
        else before
  {
    assert (rows + [row])[..|rows|] == rows;
  }

  /** `scan_rxnrel_for_scdc`: ingredient -> SCDCs, over `has_ingredient` and, for PINs, `has_precise_ingredient`. */
  method ScanRxnrelForScdc(rows: seq<Row>, ingredientSet: set<string>, scdcCuiSet: set<string>, pinSet: set<string>)
    returns (ingToScdc: map<string, set<string>>)
    requires pinSet <= ingredientSet
    ensures ingToScdc == Resolve(IngredientScdc(ingredientSet, scdcCuiSet, pinSet), rows)
  {
    ghost var r := IngredientScdc(ingredientSet, scdcCuiSet, pinSet);
    ingToScdc := EmptyFor(ingredientSet);
    for i := 0 to |rows|
      invariant ingToScdc == Resolve(r, rows[..i])
    {
      assert rows[..i + 1][..i] == rows[..i];
      var parts := rows[i];
      if |parts| < RelFields { continue; }
      var c1, st1, c2, st2, rela, sab := parts[0], parts[2], parts[4], parts[6], parts[7], parts[10];
      if sab != TargetSab { continue; }
      if st1 != "CUI" || st2 != "CUI" { continue; }
      if rela in IngredientRelas {
        if c1 in ingredientSet && c2 in scdcCuiSet {
          ingToScdc := ingToScdc[c1 := ingToScdc[c1] + {c2}];
        } else if c2 in ingredientSet && c1 in scdcCuiSet {
          ingToScdc := ingToScdc[c2 := ingToScdc[c2] + {c1}];
        }
      } else if rela in PreciseRelas {
        // a PIN and an SCDC linked by a precise-ingredient relation
        if c1 in pinSet && c2 in scdcCuiSet {
          ingToScdc := ingToScdc[c1 := ingToScdc[c1] + {c2}];
        } else if c2 in pinSet && c1 in scdcCuiSet {
          ingToScdc := ingToScdc[c2 := ingToScdc[c2] + {c1}];
        }
      }
    }
    assert rows[..|rows|] == rows;
  }

  /** `scan_rxnrel_for_scds`: SCDC -> SCDs over `constitutes`, trying "c1 is the SCD" first. */
  method ScanRxnrelForScds(rows: seq<Row>, scdcCuiSet: set<string>, scdCuiSet: set<string>)
    returns (scdcToScds: map<string, set<string>>)
    ensures scdcToScds == Resolve(ScdcScd(scdcCuiSet, scdCuiSet), rows)
  {
    ghost var r := ScdcScd(scdcCuiSet, scdCuiSet);
    scdcToScds := EmptyFor(scdcCuiSet);
    for i := 0 to |rows|
      invariant scdcToScds == Resolve(r, rows[..i])
    {
      assert rows[..i + 1][..i] == rows[..i];
      var parts := rows[i];
      if |parts| < RelFields { continue; }
      var c1, st1, c2, st2, rela, sab := parts[0], parts[2], parts[4], parts[6], parts[7], parts[10];
      if sab != TargetSab { continue; }
      if st1 != "CUI" || st2 != "CUI" { continue; }
      if rela != "constitutes" { continue; }
      if c1 in scdCuiSet && c2 in scdcCuiSet {
        scdcToScds := scdcToScds[c2 := scdcToScds[c2] + {c1}];
      } else if c2 in scdCuiSet && c1 in scdcCuiSet {
        scdcToScds := scdcToScds[c1 := scdcToScds[c1] + {c2}];
      }
    }
    assert rows[..|rows|] == rows;
  }

  /** `scan_rxnrel_for_packs_sbd`: SCD -> GPCKs, BPCKs and SBDs in one pass. */
  method ScanRxnrelForPacksSbd(rows: seq<Row>, scdCuiSet: set<string>, gpckSet: set<string>,
                               bpckSet: set<string>, sbdSet: set<string>)
    returns (scdToGpck: map<string, set<string>>, scdToBpck: map<string, set<string>>,
             scdToSbd: map<string, set<string>>)
    ensures scdToGpck == Resolve(ScdPack(scdCuiSet, gpckSet), rows)
    ensures scdToBpck == Resolve(ScdPack(scdCuiSet, bpckSet), rows)
    ensures scdToSbd == Resolve(ScdSbd(scdCuiSet, sbdSet), rows)
  {
    ghost var gr, br, sr := ScdPack(scdCuiSet, gpckSet), ScdPack(scdCuiSet, bpckSet), ScdSbd(scdCuiSet, sbdSet);
    scdToGpck := EmptyFor(scdCuiSet);
    scdToBpck := EmptyFor(scdCuiSet);
    scdToSbd := EmptyFor(scdCuiSet);
    for i := 0 to |rows|
      invariant scdToGpck == Resolve(gr, rows[..i])
      invariant scdToBpck == Resolve(br, rows[..i])
      invariant scdToSbd == Resolve(sr, rows[..i])
    {
      var parts := rows[i];
      assert rows[..i + 1] == rows[..i] + [parts];
      if |parts| < RelFields {
        SkipStep(gr, rows[..i], parts); SkipStep(br, rows[..i], parts); SkipStep(sr, rows[..i], parts);
        continue;
      }
      var c1, st1, c2, st2, rela, sab := parts[0], parts[2], parts[4], parts[6], parts[7], parts[10];
      if sab != TargetSab || st1 != "CUI" || st2 != "CUI" {
        SkipStep(gr, rows[..i], parts); SkipStep(br, rows[..i], parts); SkipStep(sr, rows[..i], parts);
        continue;
      }
      PackStep(scdCuiSet, gpckSet, rows[..i], parts);
      PackStep(scdCuiSet, bpckSet, rows[..i], parts);
      SbdStep(scdCuiSet, sbdSet, rows[..i], parts);
      // packs: the same row may link an SCD to a GPCK and to a BPCK
      if rela in PackRelas {
        if c1 in scdCuiSet && c2 in gpckSet {
          scdToGpck := scdToGpck[c1 := scdToGpck[c1] + {c2}];
        } else if c2 in scdCuiSet && c1 in gpckSet {
          scdToGpck := scdToGpck[c2 := scdToGpck[c2] + {c1}];
        }
        if c1 in scdCuiSet && c2 in bpckSet {
          scdToBpck := scdToBpck[c1 := scdToBpck[c1] + {c2}];
        } else if c2 in scdCuiSet && c1 in bpckSet {
          scdToBpck := scdToBpck[c2 := scdToBpck[c2] + {c1}];
        }
      }
      // brands
      if rela in TradenameRelas {
        if c1 in scdCuiSet && c2 in sbdSet {
          scdToSbd := scdToSbd[c1 := scdToSbd[c1] + {c2}];
        } else if c2 in scdCuiSet && c1 in sbdSet {
          scdToSbd := scdToSbd[c2 := scdToSbd[c2] + {c1}];
        }
      }
    }
    assert rows[..|rows|] == rows;
  }

  /** `scan_rxnrel_for_sbd_bn`: SBD -> BNs over `has_ingredient`, trying "c1 is the BN" first. */
  method ScanRxnrelForSbdBn(rows: seq<Row>, sbdSet: set<string>, bnSet: set<string>)
    returns (sbdToBn: map<string, set<string>>)
    ensures sbdToBn == Resolve(SbdBn(sbdSet, bnSet), rows)
  {
    ghost var r := SbdBn(sbdSet, bnSet);
    sbdToBn := EmptyFor(sbdSet);
    for i := 0 to |rows|
      invariant sbdToBn == Resolve(r, rows[..i])
    {
      assert rows[..i + 1][..i] == rows[..i];
      var parts := rows[i];
      if |parts| < RelFields { continue; }
      var c1, st1, c2, st2, rela, sab := parts[0], parts[2], parts[4], parts[6], parts[7], parts[10];
      if sab != TargetSab || st1 != "CUI" || st2 != "CUI" { continue; }
      if rela !in IngredientRelas { continue; }
      // an ingredient relation between a brand name and an SBD, either way round
      if c1 in bnSet && c2 in sbdSet {
        sbdToBn := sbdToBn[c2 := sbdToBn[c2] + {c1}];
      } else if c2 in bnSet && c1 in sbdSet {
        sbdToBn := sbdToBn[c1 := sbdToBn[c1] + {c2}];
      }
    }
    assert rows[..|rows|] == rows;
  }

  /**
   * `derive_pin_min_scdc`: a PIN inherits the SCDCs of the INs it is the
   * precise ingredient of; a MIN inherits those of its INs, or, failing an
   * IN at the other end, those of a related SCD.
   */
  method DerivePinMinScdc(rows: seq<Row>, inSet: set<string>, pinSet: set<string>, minSet: set<string>,
                          ingToScdc: map<string, set<string>>, scdSet: set<string>,
                          scdToScdc: map<string, set<string>>)
    returns (pinToScdc: map<string, set<string>>, minToScdc: map<string, set<string>>)
    ensures pinToScdc == Resolve(PinInherit(inSet, pinSet, ingToScdc), rows)
    ensures minToScdc == Resolve(MinInherit(minSet, inSet, scdSet, ingToScdc, scdToScdc), rows)
  {
    ghost var pr := PinInherit(inSet, pinSet, ingToScdc);
    ghost var mr := MinInherit(minSet, inSet, scdSet, ingToScdc, scdToScdc);
    pinToScdc := EmptyFor(pinSet);
    minToScdc := EmptyFor(minSet);
    for i := 0 to |rows|
      invariant pinToScdc == Resolve(pr, rows[..i])
      invariant minToScdc == Resolve(mr, rows[..i])
    {
      var parts := rows[i];
      assert rows[..i + 1] == rows[..i] + [parts];
      if |parts| < RelFields {
        SkipStep(pr, rows[..i], parts); SkipStep(mr, rows[..i], parts);
        continue;
      }
      var c1, st1, c2, st2, rela, sab := parts[0], parts[2], parts[4], parts[6], parts[7], parts[10];
      if sab != TargetSab || st1 != "CUI" || st2 != "CUI" {
        SkipStep(pr, rows[..i], parts); SkipStep(mr, rows[..i], parts);
        continue;
      }
      PinStep(inSet, pinSet, ingToScdc, rows[..i], parts);
      MinStep(minSet, inSet, scdSet, ingToScdc, scdToScdc, rows[..i], parts);
      // a PIN inherits the SCDCs of an IN it is linked to
      if rela in PreciseRelas {
        if c1 in inSet && c2 in pinSet {
          pinToScdc := pinToScdc[c2 := pinToScdc[c2] + GetOr(ingToScdc, c1, {})];
        } else if c2 in inSet && c1 in pinSet {
          pinToScdc := pinToScdc[c1 := pinToScdc[c1] + GetOr(ingToScdc, c2, {})];
        }
      }
      // MIN via IN, or failing that via SCD
      if rela in MinRelas {
        if c1 in minSet && c2 in inSet {
          minToScdc := minToScdc[c1 := minToScdc[c1] + GetOr(ingToScdc, c2, {})];
        } else if c2 in minSet && c1 in inSet {
          minToScdc := minToScdc[c2 := minToScdc[c2] + GetOr(ingToScdc, c1, {})];
        } else if c1 in minSet && c2 in scdSet {
          minToScdc := minToScdc[c1 := minToScdc[c1] + GetOr(scdToScdc, c2, {})];
        } else if c2 in minSet && c1 in scdSet {
          minToScdc := minToScdc[c2 := minToScdc[c2] + GetOr(scdToScdc, c1, {})];
        }
      }
    }
    assert rows[..|rows|] == rows;
  }
}
