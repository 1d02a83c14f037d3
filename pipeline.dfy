/**
 * The computation `main` performs between reading the three RRF files
 * and writing the JSON: the scans with the language filter on, the
 * inversion of SCDC -> SCDs, the unified ingredient -> SCDC map, and the
 * record assembly.
 */
module Pipeline {
  import opened Wrappers
  import opened Rows
  import opened Names
  import opened Ordering
  import Rxnconso
  import Rxnrel
  import Rxnsat
  import opened Assembly

  /** `main` always scans with the English-only filter on. */
  const OnlyEng := true

  // ---------------------------------------------------------------------
  // SCD -> SCDCs

  /** Every concept listed under some key of `m`. */
  function Targets(m: map<string, set<string>>): set<string>
  {
    set c, a | c in m && a in m[c] :: a
  }

  /** `m` read backwards: each listed concept maps to the keys listing it. */
  function Invert(m: map<string, set<string>>): (r: map<string, set<string>>)
    ensures forall a :: a in r ==> r[a] <= m.Keys
    ensures forall c :: c in m ==> m[c] <= r.Keys
  {
    map a | a in Targets(m) :: set c | c in m && a in m[c]
  }

  /** Reading backwards twice: `b` lists `a` in `Invert(m)` exactly when `a` lists `b` in `m`. */
  lemma InvertMembers(m: map<string, set<string>>, a: string, c: string)
    ensures (a in Invert(m) && c in Invert(m)[a]) <==> (c in m && a in m[c])
    ensures a in Invert(m) ==> Invert(m)[a] != {}
  {
    if c in m && a in m[c] {
      assert a in Targets(m);
    }
    if a in Invert(m) {
      var c', a' :| c' in m && a' in m[c'] && a' == a;
      assert c' in Invert(m)[a];
    }
  }

  /**
   * The inversion loop so far: the keys in `done` are fully read, and of
   * key `b` the concepts in `partial`.
   */
  ghost predicate Inverts(acc: map<string, set<string>>, m: map<string, set<string>>,
                          done: set<string>, b: string, partial: set<string>)
  {
    && (forall a :: a in acc ==> acc[a] != {})
    && forall a, c :: (a in acc && c in acc[a]) <==> ((c in done && c in m && a in m[c]) || (c == b && a in partial))
  }

  lemma InvertsAdd(acc: map<string, set<string>>, m: map<string, set<string>>,
                   done: set<string>, b: string, partial: set<string>, a: string)
    requires Inverts(acc, m, done, b, partial)
    ensures Inverts(acc[a := GetOr(acc, a, {}) + {b}], m, done, b, partial + {a})
  {
  }

  lemma InvertsClose(acc: map<string, set<string>>, m: map<string, set<string>>,
                     done: set<string>, b: string, b': string)
    requires b in m && Inverts(acc, m, done, b, m[b])
    ensures Inverts(acc, m, done + {b}, b', {})
  {
  }

  lemma InvertsAll(acc: map<string, set<string>>, m: map<string, set<string>>, b: string)
    requires Inverts(acc, m, m.Keys, b, {})
    ensures acc == Invert(m)
  {
    forall a | a in acc
      ensures a in Invert(m)
    {
      var c :| c in acc[a];
      InvertMembers(m, a, c);
    }
    forall a | a in Invert(m)
      ensures a in acc && acc[a] == Invert(m)[a]
    {
      InvertMembers(m, a, "");
      var c :| c in Invert(m)[a];
      InvertMembers(m, a, c);
      forall c' ensures c' in acc[a] <==> c' in Invert(m)[a]
      {
        InvertMembers(m, a, c');
      }
    }
  }

  /** The inner loop: every SCD listed under `scdc` gets `scdc` added to its entry. */
  method InvertEntry(acc: map<string, set<string>>, ghost m: map<string, set<string>>, ghost done: set<string>,
                     scdc: string, scds: set<string>)
    returns (acc': map<string, set<string>>)
    requires scdc in m && scds == m[scdc] && Inverts(acc, m, done, "", {})
    ensures Inverts(acc', m, done + {scdc}, "", {})
  {
    var order := ListSet(scds);
    ListsDistinct(order, scds);
    acc' := acc;
    ghost var partial: set<string> := {};
    for l := 0 to |order|
      invariant Lists(order[..l], partial)
      invariant Inverts(acc', m, done, scdc, partial)
    {
      var scd := order[l];
      ListsExtend(order, l, partial);
      InvertsAdd(acc', m, done, scdc, partial, scd);
      acc' := acc'[scd := GetOr(acc', scd, {}) + {scdc}];
      partial := partial + {scd};
    }
    assert order[..|order|] == order;
    ListsSame(order, partial, m[scdc]);
    InvertsClose(acc', m, done, scdc, "");
  }

  /** The loop of `main` that turns SCDC -> SCDs into SCD -> SCDCs. */
  method InvertScdcToScds(scdcToScds: map<string, set<string>>) returns (scdToScdc: map<string, set<string>>)
    ensures scdToScdc == Invert(scdcToScds)
  {
    var keys := ListSet(scdcToScds.Keys);
    ListsDistinct(keys, scdcToScds.Keys);
    scdToScdc := map[];
    ghost var done: set<string> := {};
    for k := 0 to |keys|
      invariant Lists(keys[..k], done)
      invariant Inverts(scdToScdc, scdcToScds, done, "", {})
    {
      var scdc := keys[k];
      ListsExtend(keys, k, done);
      scdToScdc := InvertEntry(scdToScdc, scdcToScds, done, scdc, scdcToScds[scdc]);
      done := done + {scdc};
    }
    assert keys[..|keys|] == keys;
    ListsSame(keys, done, scdcToScds.Keys);
    InvertsAll(scdToScdc, scdcToScds, "");
  }

  // ---------------------------------------------------------------------
  // ingredient -> SCDCs

  /**
   * The SCDCs of one ingredient: an IN has its own, a PIN its own and the
   * ones inherited from its IN, a MIN the ones derived for it; any other
   * concept has none.
   */
  function Effective(cui: string, inSet: set<string>, pinSet: set<string>, minSet: set<string>,
                     ingToScdc: map<string, set<string>>, pinToScdc: map<string, set<string>>,
                     minToScdc: map<string, set<string>>): (r: set<string>)
    ensures cui !in inSet && cui !in pinSet && cui !in minSet ==> r == {}
  {
    if cui in inSet then GetOr(ingToScdc, cui, {})
    else if cui in pinSet then GetOr(ingToScdc, cui, {}) + GetOr(pinToScdc, cui, {})
    else if cui in minSet then GetOr(minToScdc, cui, {})
    else {}
  }

  /**
   * An ingredient's SCDCs come only from its three entries; an IN or PIN
   * keeps all its own, and a PIN that is not also an IN all it inherits.
   */
  lemma EffectiveBounds(cui: string, inSet: set<string>, pinSet: set<string>, minSet: set<string>,
                        ingToScdc: map<string, set<string>>, pinToScdc: map<string, set<string>>,
                        minToScdc: map<string, set<string>>)
    ensures var r := Effective(cui, inSet, pinSet, minSet, ingToScdc, pinToScdc, minToScdc);
      && r <= GetOr(ingToScdc, cui, {}) + GetOr(pinToScdc, cui, {}) + GetOr(minToScdc, cui, {})
      && (cui in inSet || cui in pinSet ==> GetOr(ingToScdc, cui, {}) <= r)
      && (cui in pinSet && cui !in inSet ==> GetOr(pinToScdc, cui, {}) <= r)
  {
  }

  /** `cui_to_scdc` as a whole. */
  function Unified(ingSet: set<string>, inSet: set<string>, pinSet: set<string>, minSet: set<string>,
                   ingToScdc: map<string, set<string>>, pinToScdc: map<string, set<string>>,
                   minToScdc: map<string, set<string>>): (r: map<string, set<string>>)
    ensures r.Keys == ingSet
  {
    map cui | cui in ingSet :: Effective(cui, inSet, pinSet, minSet, ingToScdc, pinToScdc, minToScdc)
  }

  /** The branch of the unification loop for one ingredient. */
  method EffectiveScdcs(cui: string, inSet: set<string>, pinSet: set<string>, minSet: set<string>,
                        ingToScdc: map<string, set<string>>, pinToScdc: map<string, set<string>>,
                        minToScdc: map<string, set<string>>)
    returns (scdcs: set<string>)
    ensures scdcs == Effective(cui, inSet, pinSet, minSet, ingToScdc, pinToScdc, minToScdc)
  {
    if cui in inSet {
      scdcs := GetOr(ingToScdc, cui, {});
    } else if cui in pinSet {
      scdcs := {};
      scdcs := scdcs + GetOr(ingToScdc, cui, {});  // the PIN's own SCDCs
      scdcs := scdcs + GetOr(pinToScdc, cui, {});  // the SCDCs it inherits from its IN
    } else if cui in minSet {
      scdcs := GetOr(minToScdc, cui, {});
    } else {
      scdcs := {};
    }
  }

  lemma UnifiedByEntries(m: map<string, set<string>>, ingSet: set<string>, inSet: set<string>, pinSet: set<string>, minSet: set<string>,
                         ingToScdc: map<string, set<string>>, pinToScdc: map<string, set<string>>,
                         minToScdc: map<string, set<string>>)
    requires m.Keys == ingSet
    requires forall c :: c in m ==> m[c] == Effective(c, inSet, pinSet, minSet, ingToScdc, pinToScdc, minToScdc)
    ensures m == Unified(ingSet, inSet, pinSet, minSet, ingToScdc, pinToScdc, minToScdc)
  {
  }

  /** The unification loop of `main`. */
  method UnifyScdcSets(ingSet: set<string>, inSet: set<string>, pinSet: set<string>, minSet: set<string>,
                       ingToScdc: map<string, set<string>>, pinToScdc: map<string, set<string>>,
                       minToScdc: map<string, set<string>>)
    returns (cuiToScdc: map<string, set<string>>)
    ensures cuiToScdc == Unified(ingSet, inSet, pinSet, minSet, ingToScdc, pinToScdc, minToScdc)
  {
    var cuis := ListSet(ingSet);
    ListsDistinct(cuis, ingSet);
    cuiToScdc := map[];
    ghost var listed: set<string> := {};
    for k := 0 to |cuis|
      invariant Lists(cuis[..k], listed)
      invariant cuiToScdc.Keys == listed
      invariant forall c :: c in cuiToScdc ==>
        cuiToScdc[c] == Effective(c, inSet, pinSet, minSet, ingToScdc, pinToScdc, minToScdc)
    {
      var cui := cuis[k];
      var scdcs := EffectiveScdcs(cui, inSet, pinSet, minSet, ingToScdc, pinToScdc, minToScdc);
      ListsExtend(cuis, k, listed);
      cuiToScdc := cuiToScdc[cui := scdcs];
      listed := listed + {cui};
    }
    assert cuis[..|cuis|] == cuis;
    ListsSame(cuis, listed, ingSet);
    UnifiedByEntries(cuiToScdc, ingSet, inSet, pinSet, minSet, ingToScdc, pinToScdc, minToScdc);
  }

  // ---------------------------------------------------------------------
  // The whole computation

  /** The scan results for the three files, as the specification folds give them. */
  datatype Links = Links(
    concepts: Rxnconso.Concepts,
    ingToScdc: map<string, set<string>>,
    scdcToScds: map<string, set<string>>,
    scdToScdc: map<string, set<string>>,
    pinToScdc: map<string, set<string>>,
    minToScdc: map<string, set<string>>,
    scdToGpck: map<string, set<string>>,
    scdToBpck: map<string, set<string>>,
    scdToSbd: map<string, set<string>>,
    cuiToNdcs: map<string, set<string>>,
    sbdToBn: map<string, set<string>>,
    cuiToScdc: map<string, set<string>>)

  function SpecLinks(conso: seq<Row>, rel: seq<Row>, sat: Option<seq<Row>>): Links
  {
    var c := Rxnconso.Scan(conso, OnlyEng);
    var g := c.ing;
    var ingSet := g.ingredients.Keys;
    Rxnconso.IngredientScanConsistent(conso, OnlyEng);
    var ingToScdc := Rxnrel.Resolve(Rxnrel.IngredientScdc(ingSet, c.scdc.ids, g.pinSet), rel);
    var scdcToScds := Rxnrel.Resolve(Rxnrel.ScdcScd(c.scdc.ids, c.scd.ids), rel);
    var scdToScdc := Invert(scdcToScds);
    var pinToScdc := Rxnrel.Resolve(Rxnrel.PinInherit(g.inSet, g.pinSet, ingToScdc), rel);
    var minToScdc := Rxnrel.Resolve(Rxnrel.MinInherit(g.minSet, g.inSet, c.scd.ids, ingToScdc, scdToScdc), rel);
    Links(c, ingToScdc, scdcToScds, scdToScdc, pinToScdc, minToScdc,
          Rxnrel.Resolve(Rxnrel.ScdPack(c.scd.ids, c.gpck.ids), rel),
          Rxnrel.Resolve(Rxnrel.ScdPack(c.scd.ids, c.bpck.ids), rel),
          Rxnrel.Resolve(Rxnrel.ScdSbd(c.scd.ids, c.sbd.ids), rel),
          if sat.Some? then Rxnsat.NdcScan(sat.value) else map[],
          Rxnrel.Resolve(Rxnrel.SbdBn(c.sbd.ids, c.bn.ids), rel),
          Unified(ingSet, g.inSet, g.pinSet, g.minSet, ingToScdc, pinToScdc, minToScdc))
  }

  /** What the assembly reads, from the scan results. */
  function TablesOf(l: Links): Tables
  {
    var c := l.concepts;
    Tables(c.ing.ingredients, c.unii, l.cuiToScdc,
           NameMap(c.scdc.best), NameMap(c.scd.best), NameMap(c.gpck.best),
           NameMap(c.bpck.best), NameMap(c.sbd.best), NameMap(c.bn.best),
           l.scdcToScds, l.scdToGpck, l.scdToBpck, l.scdToSbd, l.sbdToBn, l.cuiToNdcs)
  }

  /** The full extraction; `sat` is None when RXNSAT is missing. */
  method Extract(conso: seq<Row>, rel: seq<Row>, sat: Option<seq<Row>>) returns (out: seq<Record>)
    ensures Assembled(out, TablesOf(SpecLinks(conso, rel, sat)))
  {
    var c := Rxnconso.ScanRxnconso(conso, OnlyEng);
    var g := c.ing;
    var ingSet := g.ingredients.Keys;
    Rxnconso.IngredientScanConsistent(conso, OnlyEng);
    var ingToScdc := Rxnrel.ScanRxnrelForScdc(rel, ingSet, c.scdc.ids, g.pinSet);
    var scdcToScds := Rxnrel.ScanRxnrelForScds(rel, c.scdc.ids, c.scd.ids);
    var scdToScdc := InvertScdcToScds(scdcToScds);
    var pinToScdc, minToScdc := Rxnrel.DerivePinMinScdc(rel, g.inSet, g.pinSet, g.minSet, ingToScdc, c.scd.ids, scdToScdc);
    var scdToGpck, scdToBpck, scdToSbd := Rxnrel.ScanRxnrelForPacksSbd(rel, c.scd.ids, c.gpck.ids, c.bpck.ids, c.sbd.ids);
    var cuiToNdcs := Rxnsat.ScanRxnsatNdcRxnorm(sat);
    var sbdToBn := Rxnrel.ScanRxnrelForSbdBn(rel, c.sbd.ids, c.bn.ids);
    var cuiToScdc := UnifyScdcSets(ingSet, g.inSet, g.pinSet, g.minSet, ingToScdc, pinToScdc, minToScdc);
    ghost var l := Links(c, ingToScdc, scdcToScds, scdToScdc, pinToScdc, minToScdc,
                         scdToGpck, scdToBpck, scdToSbd, cuiToNdcs, sbdToBn, cuiToScdc);
    assert l == SpecLinks(conso, rel, sat);
    var t := Tables(g.ingredients, c.unii, cuiToScdc,
                    NameMap(c.scdc.best), NameMap(c.scd.best), NameMap(c.gpck.best),
                    NameMap(c.bpck.best), NameMap(c.sbd.best), NameMap(c.bn.best),
                    scdcToScds, scdToGpck, scdToBpck, scdToSbd, sbdToBn, cuiToNdcs);
    out := Assemble(t);
  }

  // ---------------------------------------------------------------------
  // What the output is made of

  /** A resolver whose sources all lie in `target` relates concepts only to members of `target`. */
  lemma ResolvedInto(r: Rxnrel.Rule, rows: seq<Row>, target: set<string>)
    requires Rxnrel.WellFormed(r) && forall z :: Rxnrel.Within(r, z) ==> z in target
    ensures forall x :: GetOr(Rxnrel.Resolve(r, rows), x, {}) <= target
  {
    forall x, z | z in GetOr(Rxnrel.Resolve(r, rows), x, {})
      ensures z in target
    {
      Rxnrel.ResolveWithin(r, rows, x, z);
    }
  }

  /** The direct maps relate each concept only to concepts of the category its place in a record says. */
  lemma LinksStayInCategory(conso: seq<Row>, rel: seq<Row>, sat: Option<seq<Row>>, x: string)
    ensures var l, c := SpecLinks(conso, rel, sat), Rxnconso.Scan(conso, OnlyEng);
      && GetOr(l.ingToScdc, x, {}) <= c.scdc.ids
      && GetOr(l.scdcToScds, x, {}) <= c.scd.ids
      && GetOr(l.scdToScdc, x, {}) <= c.scdc.ids
      && GetOr(l.scdToGpck, x, {}) <= c.gpck.ids
      && GetOr(l.scdToBpck, x, {}) <= c.bpck.ids
      && GetOr(l.scdToSbd, x, {}) <= c.sbd.ids
      && GetOr(l.sbdToBn, x, {}) <= c.bn.ids
  {
    var l, c := SpecLinks(conso, rel, sat), Rxnconso.Scan(conso, OnlyEng);
    var g := c.ing;
    Rxnconso.IngredientScanConsistent(conso, OnlyEng);
    ResolvedInto(Rxnrel.IngredientScdc(g.ingredients.Keys, c.scdc.ids, g.pinSet), rel, c.scdc.ids);
    ResolvedInto(Rxnrel.ScdcScd(c.scdc.ids, c.scd.ids), rel, c.scd.ids);
    ResolvedInto(Rxnrel.ScdPack(c.scd.ids, c.gpck.ids), rel, c.gpck.ids);
    ResolvedInto(Rxnrel.ScdPack(c.scd.ids, c.bpck.ids), rel, c.bpck.ids);
    ResolvedInto(Rxnrel.ScdSbd(c.scd.ids, c.sbd.ids), rel, c.sbd.ids);
    ResolvedInto(Rxnrel.SbdBn(c.sbd.ids, c.bn.ids), rel, c.bn.ids);
    forall z | z in GetOr(l.scdToScdc, x, {})
      ensures z in c.scdc.ids
    {
      InvertMembers(l.scdcToScds, x, z);
    }
  }

  /**
   * Every SCDC an ingredient's record lists, whether found directly,
   * inherited from an IN or derived for a MIN, is an SCDC concept.
   */
  lemma LinkedScdcsAreScdcs(conso: seq<Row>, rel: seq<Row>, sat: Option<seq<Row>>, id: string)
    ensures GetOr(SpecLinks(conso, rel, sat).cuiToScdc, id, {}) <= Rxnconso.Scan(conso, OnlyEng).scdc.ids
  {
    var c := Rxnconso.Scan(conso, OnlyEng);
    var g := c.ing;
    var scdcs := c.scdc.ids;
    Rxnconso.IngredientScanConsistent(conso, OnlyEng);
    var rIng := Rxnrel.IngredientScdc(g.ingredients.Keys, scdcs, g.pinSet);
    var ingToScdc := Rxnrel.Resolve(rIng, rel);
    ResolvedInto(rIng, rel, scdcs);
    var scdcToScds := Rxnrel.Resolve(Rxnrel.ScdcScd(scdcs, c.scd.ids), rel);
    var scdToScdc := Invert(scdcToScds);
    forall x, z | z in GetOr(scdToScdc, x, {})
      ensures z in scdcs
    {
      InvertMembers(scdcToScds, x, z);
    }
    var rPin := Rxnrel.PinInherit(g.inSet, g.pinSet, ingToScdc);
    ResolvedInto(rPin, rel, scdcs);
    var rMin := Rxnrel.MinInherit(g.minSet, g.inSet, c.scd.ids, ingToScdc, scdToScdc);
    ResolvedInto(rMin, rel, scdcs);
    UnifiedWithin(g.ingredients.Keys, g.inSet, g.pinSet, g.minSet,
                  ingToScdc, Rxnrel.Resolve(rPin, rel), Rxnrel.Resolve(rMin, rel), scdcs, id);
  }

  /** Unification draws an ingredient's SCDCs only from its three entries. */
  lemma UnifiedWithin(ingSet: set<string>, inSet: set<string>, pinSet: set<string>, minSet: set<string>,
                      ingToScdc: map<string, set<string>>, pinToScdc: map<string, set<string>>,
                      minToScdc: map<string, set<string>>, target: set<string>, id: string)
    requires GetOr(ingToScdc, id, {}) <= target && GetOr(pinToScdc, id, {}) <= target
    requires GetOr(minToScdc, id, {}) <= target
    ensures GetOr(Unified(ingSet, inSet, pinSet, minSet, ingToScdc, pinToScdc, minToScdc), id, {}) <= target
  {
  }

  /**
   * A record is an ingredient concept that some accepted RXNCONSO row
   * names: its TTY is IN, PIN or MIN, and its name is the choice folded
   * over its rows' (TS, STR) pairs.
   */
  lemma RecordIsIngredient(conso: seq<Row>, t: Tables, r: Record)
    requires t.ingredients == Rxnconso.IngredientScan(conso, OnlyEng).ingredients && RecordOk(r, t)
    ensures r.tty in Rxnconso.TargetTtys
    ensures exists j :: 0 <= j < |conso| && Rxnconso.IngredientRowFor(conso[j], OnlyEng, r.rxcui)
    ensures var best := BestName(Rxnconso.IngredientPairs(conso, OnlyEng, r.rxcui));
      best.Some? && r.name == best.value.str
  {
    Rxnconso.IngredientScanConsistent(conso, OnlyEng);
    Rxnconso.IngredientTtyIsLast(conso, OnlyEng, r.rxcui);
    Rxnconso.IngredientNames(conso, OnlyEng, r.rxcui);
  }
}
