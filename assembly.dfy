/**
 * Record assembly: for every ingredient with at least one SCDC, a record
 * that nests its SCDCs, their SCDs, and each SCD's packs, branded drugs,
 * brand names and NDC codes.  Every list is ordered by display name
 * (NDCs by the code itself); optional members are present exactly when
 * they would be non-empty; the records are ordered by lower-cased name.
 *
 * The ghost predicates below say what each object must contain, level by
 * level; each builder method is proved to produce an object meeting its
 * level's predicate.
 */
module Assembly {
  import opened Wrappers
  import opened Ordering
  import Rxnconso

  /** A brand name entry: Name, RXCUI, TTY. */
  datatype Concept = Concept(name: string, rxcui: string, tty: string)

  /** A GPCK or BPCK entry, with its optional NDC list. */
  datatype Pack = Pack(name: string, rxcui: string, tty: string, ndcs: Option<seq<string>>)

  /** An SBD entry, with optional NDCs and brand names. */
  datatype BrandedDrug = BrandedDrug(name: string, rxcui: string, tty: string,
                                     ndcs: Option<seq<string>>, bns: Option<seq<Concept>>)

  /** An SCD entry, with optional NDCs, generic packs, branded packs and branded drugs. */
  datatype ClinicalDrug = ClinicalDrug(name: string, rxcui: string, tty: string,
                                       ndcs: Option<seq<string>>, gpcks: Option<seq<Pack>>,
                                       bpcks: Option<seq<Pack>>, sbds: Option<seq<BrandedDrug>>)

  /** An SCDC entry; its SCD list is always present. */
  datatype Component = Component(name: string, rxcui: string, tty: string, scds: seq<ClinicalDrug>)

  /** One output record: an ingredient, its SCDCs, and its UNII when it has one. */
  datatype Record = Record(name: string, rxcui: string, tty: string, scdcs: seq<Component>, unii: Option<string>)

  /** Everything the assembly reads. */
  datatype Tables = Tables(
    ingredients: map<string, Rxnconso.Ingredient>,
    unii: map<string, string>,
    cuiToScdc: map<string, set<string>>,
    scdcNames: map<string, string>,
    scdNames: map<string, string>,
    gpckNames: map<string, string>,
    bpckNames: map<string, string>,
    sbdNames: map<string, string>,
    bnNames: map<string, string>,
    scdcToScds: map<string, set<string>>,
    scdToGpck: map<string, set<string>>,
    scdToBpck: map<string, set<string>>,
    scdToSbd: map<string, set<string>>,
    sbdToBn: map<string, set<string>>,
    cuiToNdcs: map<string, set<string>>)

  function ConceptIds(cs: seq<Concept>): (ids: seq<string>)
    ensures |ids| == |cs| && forall i :: 0 <= i < |cs| ==> ids[i] == cs[i].rxcui
  {
    seq(|cs|, i requires 0 <= i < |cs| => cs[i].rxcui)
  }

  function PackIds(ps: seq<Pack>): (ids: seq<string>)
    ensures |ids| == |ps| && forall i :: 0 <= i < |ps| ==> ids[i] == ps[i].rxcui
  {
    seq(|ps|, i requires 0 <= i < |ps| => ps[i].rxcui)
  }

  function BrandedIds(bs: seq<BrandedDrug>): (ids: seq<string>)
    ensures |ids| == |bs| && forall i :: 0 <= i < |bs| ==> ids[i] == bs[i].rxcui
  {
    seq(|bs|, i requires 0 <= i < |bs| => bs[i].rxcui)
  }

  function ClinicalIds(ds: seq<ClinicalDrug>): (ids: seq<string>)
    ensures |ids| == |ds| && forall i :: 0 <= i < |ds| ==> ids[i] == ds[i].rxcui
  {
    seq(|ds|, i requires 0 <= i < |ds| => ds[i].rxcui)
  }

  function ComponentIds(cs: seq<Component>): (ids: seq<string>)
    ensures |ids| == |cs| && forall i :: 0 <= i < |cs| ==> ids[i] == cs[i].rxcui
  {
    seq(|cs|, i requires 0 <= i < |cs| => cs[i].rxcui)
  }

  function RecordIds(rs: seq<Record>): (ids: seq<string>)
    ensures |ids| == |rs| && forall i :: 0 <= i < |rs| ==> ids[i] == rs[i].rxcui
  {
    seq(|rs|, i requires 0 <= i < |rs| => rs[i].rxcui)
  }

  // ---------------------------------------------------------------------
  // What each object must be.

  /** `ids` lists the set once each, in non-decreasing key order. */
  ghost predicate ListedBy(ids: seq<string>, s: set<string>, o: Order)
  {
    Lists(ids, s) && SortedByKey(ids, o)
  }

  /** An "NDCs" member: present exactly when the concept has codes, then all of them in order. */
  ghost predicate NdcsOk(o: Option<seq<string>>, id: string, t: Tables)
  {
    var s := GetOr(t.cuiToNdcs, id, {});
    if s == {} then o.None? else o.Some? && ListedBy(o.value, s, Natural)
  }

  ghost predicate BnOk(c: Concept, t: Tables)
  {
    c == Concept(GetOr(t.bnNames, c.rxcui, ""), c.rxcui, "BN")
  }

  /** A "BNs" member of SBD `sbd`. */
  ghost predicate BnsOk(o: Option<seq<Concept>>, sbd: string, t: Tables)
  {
    var s := GetOr(t.sbdToBn, sbd, {});
    if s == {} then o.None?
    else o.Some? && ListedBy(ConceptIds(o.value), s, ByName(t.bnNames))
         && forall i :: 0 <= i < |o.value| ==> BnOk(o.value[i], t)
  }

  ghost predicate SbdOk(b: BrandedDrug, t: Tables)
  {
    && b.name == GetOr(t.sbdNames, b.rxcui, "") && b.tty == "SBD"
    && NdcsOk(b.ndcs, b.rxcui, t) && BnsOk(b.bns, b.rxcui, t)
  }

  /** An "SBDs" member of SCD `scd`. */
  ghost predicate SbdsOk(o: Option<seq<BrandedDrug>>, scd: string, t: Tables)
  {
    var s := GetOr(t.scdToSbd, scd, {});
    if s == {} then o.None?
    else o.Some? && ListedBy(BrandedIds(o.value), s, ByName(t.sbdNames))
         && forall i :: 0 <= i < |o.value| ==> SbdOk(o.value[i], t)
  }

  ghost predicate PackOk(p: Pack, tty: string, names: map<string, string>, t: Tables)
  {
    p.name == GetOr(names, p.rxcui, "") && p.tty == tty && NdcsOk(p.ndcs, p.rxcui, t)
  }

  /** A "GPCKs" or "BPCKs" member of SCD `scd`, from the SCD-to-pack map `rel`. */
  ghost predicate PacksOk(o: Option<seq<Pack>>, scd: string, rel: map<string, set<string>>,
                          names: map<string, string>, tty: string, t: Tables)
  {
    var s := GetOr(rel, scd, {});
    if s == {} then o.None?
    else o.Some? && ListedBy(PackIds(o.value), s, ByName(names))
         && forall i :: 0 <= i < |o.value| ==> PackOk(o.value[i], tty, names, t)
  }

  ghost predicate ScdOk(d: ClinicalDrug, t: Tables)
  {
    && d.name == GetOr(t.scdNames, d.rxcui, "") && d.tty == "SCD"
    && NdcsOk(d.ndcs, d.rxcui, t)
    && PacksOk(d.gpcks, d.rxcui, t.scdToGpck, t.gpckNames, "GPCK", t)
    && PacksOk(d.bpcks, d.rxcui, t.scdToBpck, t.bpckNames, "BPCK", t)
    && SbdsOk(d.sbds, d.rxcui, t)
  }

  ghost predicate ComponentOk(c: Component, t: Tables)
  {
    && c.name == GetOr(t.scdcNames, c.rxcui, "") && c.tty == "SCDC"
    && ListedBy(ClinicalIds(c.scds), GetOr(t.scdcToScds, c.rxcui, {}), ByName(t.scdNames))
    && forall i :: 0 <= i < |c.scds| ==> ScdOk(c.scds[i], t)
  }

  /** The record of an ingredient: its name and TTY, its SCDCs (at least one), its UNII if non-empty. */
  ghost predicate RecordOk(r: Record, t: Tables)
  {
    && r.rxcui in t.ingredients
    && r.name == t.ingredients[r.rxcui].name && r.tty == t.ingredients[r.rxcui].tty
    && GetOr(t.cuiToScdc, r.rxcui, {}) != {}
    && ListedBy(ComponentIds(r.scdcs), GetOr(t.cuiToScdc, r.rxcui, {}), ByName(t.scdcNames))
    && (forall i :: 0 <= i < |r.scdcs| ==> ComponentOk(r.scdcs[i], t))
    && r.unii == (if r.rxcui in t.unii && t.unii[r.rxcui] != "" then Some(t.unii[r.rxcui]) else None)
  }

  /** The ingredients that get a record: those with a non-empty SCDC set. */
  ghost function Emitted(t: Tables): set<string>
  {
    set id | id in t.ingredients && GetOr(t.cuiToScdc, id, {}) != {}
  }

  /** The whole output: one record per emitted ingredient, ordered by lower-cased name. */
  ghost predicate Assembled(out: seq<Record>, t: Tables)
  {
    && (forall i :: 0 <= i < |out| ==> RecordOk(out[i], t))
    && Lists(RecordIds(out), Emitted(t))
    && forall i, j :: 0 <= i < j < |out| ==> LexLe(Lower(out[i].name), Lower(out[j].name))
  }

  // ---------------------------------------------------------------------
  // The builders.

  /** The sorted NDCs of a concept, attached only when there are any. */
  method BuildNdcs(id: string, t: Tables) returns (o: Option<seq<string>>)
    ensures NdcsOk(o, id, t)
  {
    var s := GetOr(t.cuiToNdcs, id, {});
    var ndcs := SortedIds(s, Natural);
    ListsDistinct(ndcs, s);
    if ndcs != [] {
      o := Some(ndcs);
    } else {
      o := None;
    }
  }

  /** The GPCK or BPCK list of SCD `scd`: entries in name order, then their NDCs. */
  method BuildPacks(scd: string, rel: map<string, set<string>>, names: map<string, string>, tty: string, t: Tables)
    returns (o: Option<seq<Pack>>)
    ensures PacksOk(o, scd, rel, names, tty, t)
  {
    var s := GetOr(rel, scd, {});
    var ids := SortedIds(s, ByName(names));
    ListsDistinct(ids, s);
    var packs: seq<Pack> := [];
    for k := 0 to |ids|
      invariant |packs| == k
      invariant forall j :: 0 <= j < k ==> packs[j] == Pack(GetOr(names, ids[j], ""), ids[j], tty, None)
    {
      packs := packs + [Pack(GetOr(names, ids[k], ""), ids[k], tty, None)];
    }
    if packs == [] {
      o := None;
      return;
    }
    // each pack gets its NDC list when it has codes
    for k := 0 to |packs|
      invariant |packs| == |ids|
      invariant forall j :: 0 <= j < |packs| ==>
        packs[j].rxcui == ids[j] && packs[j].name == GetOr(names, ids[j], "") && packs[j].tty == tty
      invariant forall j :: 0 <= j < k ==> NdcsOk(packs[j].ndcs, ids[j], t)
    {
      var ndcs := BuildNdcs(packs[k].rxcui, t);
      packs := packs[k := packs[k].(ndcs := ndcs)];
    }
    assert PackIds(packs) == ids;
    o := Some(packs);
  }

  /** The brand names of SBD `sbd`, in name order, attached only when there are any. */
  method BuildBns(sbd: string, t: Tables) returns (o: Option<seq<Concept>>)
    ensures BnsOk(o, sbd, t)
  {
    var s := GetOr(t.sbdToBn, sbd, {});
    var bnIds := SortedIds(s, ByName(t.bnNames));
    ListsDistinct(bnIds, s);
    if bnIds == [] {
      o := None;
      return;
    }
    var bns: seq<Concept> := [];
    for k := 0 to |bnIds|
      invariant |bns| == k
      invariant forall j :: 0 <= j < k ==> bns[j] == Concept(GetOr(t.bnNames, bnIds[j], ""), bnIds[j], "BN")
    {
      bns := bns + [Concept(GetOr(t.bnNames, bnIds[k], ""), bnIds[k], "BN")];
    }
    assert ConceptIds(bns) == bnIds;
    o := Some(bns);
  }

  /** The SBD list of SCD `scd`, each entry with its NDCs and brand names. */
  method BuildSbds(scd: string, t: Tables) returns (o: Option<seq<BrandedDrug>>)
    ensures SbdsOk(o, scd, t)
  {
    var s := GetOr(t.scdToSbd, scd, {});
    var ids := SortedIds(s, ByName(t.sbdNames));
    ListsDistinct(ids, s);
    var sbds: seq<BrandedDrug> := [];
    for k := 0 to |ids|
      invariant |sbds| == k
      invariant forall j :: 0 <= j < k ==> sbds[j].rxcui == ids[j] && SbdOk(sbds[j], t)
    {
      var b := ids[k];
      var ndcs := BuildNdcs(b, t);
      var bns := BuildBns(b, t);
      sbds := sbds + [BrandedDrug(GetOr(t.sbdNames, b, ""), b, "SBD", ndcs, bns)];
    }
    assert BrandedIds(sbds) == ids;
    if sbds != [] {
      o := Some(sbds);
    } else {
      o := None;
    }
  }

  /** One SCD entry. */
  method BuildScd(s: string, t: Tables) returns (d: ClinicalDrug)
    ensures d.rxcui == s && ScdOk(d, t)
  {
    var gpcks := BuildPacks(s, t.scdToGpck, t.gpckNames, "GPCK", t);
    var bpcks := BuildPacks(s, t.scdToBpck, t.bpckNames, "BPCK", t);
    var sbds := BuildSbds(s, t);
    var ndcs := BuildNdcs(s, t);
    d := ClinicalDrug(GetOr(t.scdNames, s, ""), s, "SCD", ndcs, gpcks, bpcks, sbds);
  }

  /** One SCDC entry with all its SCDs in name order. */
  method BuildComponent(sc: string, t: Tables) returns (c: Component)
    ensures c.rxcui == sc && ComponentOk(c, t)
  {
    var s := GetOr(t.scdcToScds, sc, {});
    var scdIds := SortedIds(s, ByName(t.scdNames));
    var scds: seq<ClinicalDrug> := [];
    for k := 0 to |scdIds|
      invariant |scds| == k
      invariant forall j :: 0 <= j < k ==> scds[j].rxcui == scdIds[j] && ScdOk(scds[j], t)
    {
      var d := BuildScd(scdIds[k], t);
      scds := scds + [d];
    }
    assert ClinicalIds(scds) == scdIds;
    c := Component(GetOr(t.scdcNames, sc, ""), sc, "SCDC", scds);
  }

  /** The record of ingredient `cui`, or None when it has no SCDC. */
  method BuildRecord(cui: string, t: Tables) returns (r: Option<Record>)
    requires cui in t.ingredients
    ensures r.None? <==> GetOr(t.cuiToScdc, cui, {}) == {}
    ensures r.Some? ==> r.value.rxcui == cui && RecordOk(r.value, t)
  {
    var meta := t.ingredients[cui];
    var s := GetOr(t.cuiToScdc, cui, {});
    var scdcIds := SortedIds(s, ByName(t.scdcNames));
    ListsDistinct(scdcIds, s);
    if scdcIds == [] {
      // an ingredient with an empty SCDC set gets no record
      return None;
    }
    var scdcs: seq<Component> := [];
    for k := 0 to |scdcIds|
      invariant |scdcs| == k
      invariant forall j :: 0 <= j < k ==> scdcs[j].rxcui == scdcIds[j] && ComponentOk(scdcs[j], t)
    {
      var c := BuildComponent(scdcIds[k], t);
      scdcs := scdcs + [c];
    }
    assert ComponentIds(scdcs) == scdcIds;
    var unii := Get(t.unii, cui);
    var u: Option<string> := if unii.Some? && unii.value != "" then unii else None;
    r := Some(Record(meta.name, cui, meta.tty, scdcs, u));
  }

  lemma RecordIdsConcat(a: seq<Record>, b: seq<Record>)
    ensures RecordIds(a + b) == RecordIds(a) + RecordIds(b)
  {
  }

  lemma RemoveAt<T>(b: seq<T>, k: int)
    requires 0 <= k < |b|
    ensures multiset(b[..k] + b[k + 1..]) == multiset(b) - multiset{b[k]}
  {
    assert b == b[..k] + [b[k]] + b[k + 1..];
  }

  lemma RecordIdsRemoveAt(b: seq<Record>, k: int)
    requires 0 <= k < |b|
    ensures multiset(RecordIds(b)) == multiset(RecordIds(b[..k] + b[k + 1..])) + multiset{b[k].rxcui}
  {
    var pre, post := b[..k], b[k + 1..];
    assert b == pre + [b[k]] + post;
    RecordIdsConcat(pre + [b[k]], post);
    RecordIdsConcat(pre, [b[k]]);
    RecordIdsConcat(pre, post);
    assert RecordIds(b) == RecordIds(pre) + [b[k].rxcui] + RecordIds(post);
    assert RecordIds(pre + post) == RecordIds(pre) + RecordIds(post);
  }

  /** Reordering the records reorders their ids the same way. */
  lemma {:induction false} RecordIdsPermutation(a: seq<Record>, b: seq<Record>)
    requires multiset(a) == multiset(b)
    ensures multiset(RecordIds(a)) == multiset(RecordIds(b))
    decreases |a|
  {
    if a == [] {
      assert |multiset(b)| == 0;
    } else {
      var n := |a| - 1;
      assert a[n] in multiset(b);
      var k :| 0 <= k < |b| && b[k] == a[n];
      RemoveAt(a, n);
      RemoveAt(b, k);
      assert a[..n] + a[n + 1..] == a[..n];
      RecordIdsPermutation(a[..n], b[..k] + b[k + 1..]);
      RecordIdsRemoveAt(a, n);
      RecordIdsRemoveAt(b, k);
    }
  }

  /** Every record in `output` is well formed. */
  ghost predicate AllOk(output: seq<Record>, t: Tables)
  {
    forall i :: 0 <= i < |output| ==> RecordOk(output[i], t)
  }

  lemma AllOkAppend(output: seq<Record>, r: Record, t: Tables)
    requires AllOk(output, t) && RecordOk(r, t)
    ensures AllOk(output + [r], t)
  {
    var output' := output + [r];
    assert forall i :: 0 <= i < |output| ==> output'[i] == output[i];
  }

  /** The loop over the ingredient map after the first k ingredients of `cuis`. */
  ghost predicate Collected(output: seq<Record>, emitted: set<string>, cuis: seq<string>, k: int, t: Tables)
    requires 0 <= k <= |cuis|
  {
    && AllOk(output, t)
    && Lists(RecordIds(output), emitted)
    && EmittedSoFar(emitted, cuis, k, t)
  }

  lemma CollectedSkip(output: seq<Record>, emitted: set<string>, cuis: seq<string>, k: int, t: Tables)
    requires 0 <= k < |cuis| && Collected(output, emitted, cuis, k, t)
    requires GetOr(t.cuiToScdc, cuis[k], {}) == {}
    ensures Collected(output, emitted, cuis, k + 1, t)
  {
    assert cuis[..k + 1] == cuis[..k] + [cuis[k]];
  }

  /** The ids of the records collected so far: the emitted ones among the first k of `cuis`. */
  ghost predicate EmittedSoFar(emitted: set<string>, cuis: seq<string>, k: int, t: Tables)
    requires 0 <= k <= |cuis|
  {
    forall id :: id in emitted <==> id in cuis[..k] && id in Emitted(t)
  }

  lemma EmittedSoFarAdd(emitted: set<string>, cuis: seq<string>, k: int, t: Tables)
    requires 0 <= k < |cuis| && EmittedSoFar(emitted, cuis, k, t)
    requires cuis[k] in Emitted(t)
    ensures EmittedSoFar(emitted + {cuis[k]}, cuis, k + 1, t)
  {
    assert cuis[..k + 1] == cuis[..k] + [cuis[k]];
  }

  lemma IdsAdd(output: seq<Record>, emitted: set<string>, cuis: seq<string>, k: int, r: Record)
    requires 0 <= k < |cuis| && Lists(RecordIds(output), emitted)
    requires forall id :: id in emitted ==> id in cuis[..k]
    requires forall i, j :: 0 <= i < j < |cuis| ==> cuis[i] != cuis[j]
    requires r.rxcui == cuis[k]
    ensures Lists(RecordIds(output + [r]), emitted + {cuis[k]})
  {
    assert cuis[k] !in emitted;
    RecordIdsConcat(output, [r]);
    ListsAppend(RecordIds(output), emitted, cuis[k]);
  }

  lemma CollectedAdd(output: seq<Record>, emitted: set<string>, cuis: seq<string>, k: int, r: Record, t: Tables)
    requires 0 <= k < |cuis| && Collected(output, emitted, cuis, k, t)
    requires forall i, j :: 0 <= i < j < |cuis| ==> cuis[i] != cuis[j]
    requires r.rxcui == cuis[k] && AllOk(output + [r], t) && cuis[k] in Emitted(t)
    ensures Collected(output + [r], emitted + {cuis[k]}, cuis, k + 1, t)
  {
    EmittedSoFarAdd(emitted, cuis, k, t);
    IdsAdd(output, emitted, cuis, k, r);
  }

  /** The loop over the ingredient map: the record of every ingredient that has an SCDC. */
  method CollectRecords(t: Tables) returns (output: seq<Record>)
    ensures AllOk(output, t)
    ensures Lists(RecordIds(output), Emitted(t))
  {
    // the ingredient map is iterated in an order the model leaves open
    var cuis := ListSet(t.ingredients.Keys);
    ListsDistinct(cuis, t.ingredients.Keys);
    output := [];
    ghost var emitted: set<string> := {};
    for k := 0 to |cuis|
      invariant Collected(output, emitted, cuis, k, t)
    {
      var r := BuildRecord(cuis[k], t);
      if r.None? {
        CollectedSkip(output, emitted, cuis, k, t);
      } else {
        AllOkAppend(output, r.value, t);
        CollectedAdd(output, emitted, cuis, k, r.value, t);
        output := output + [r.value];
        emitted := emitted + {cuis[k]};
      }
    }
    assert cuis[..|cuis|] == cuis;
    forall id | id in Emitted(t)
      ensures id in emitted
    {
      assert id in multiset(cuis);
    }
  }

  /** All records, one per emitted ingredient, sorted by lower-cased name. */
  method Assemble(t: Tables) returns (out: seq<Record>)
    ensures Assembled(out, t)
  {
    var output := CollectRecords(t);
    out := SortBy(output, (r: Record) => Lower(r.name));
    RecordIdsPermutation(out, output);
    forall i | 0 <= i < |out|
      ensures RecordOk(out[i], t)
    {
      assert out[i] in multiset(output);
    }
  }
}
