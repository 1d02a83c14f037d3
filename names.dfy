/**
 * Display-name preference.  Every concept keeps one (TS, STR) pair: the
 * first pair whose term status TS is "P" (preferred), or else the first
 * pair seen.
 */
module Names {
  import opened Wrappers

  /** A (TS, STR) pair: term status and the name string. */
  datatype NamePair = NamePair(ts: string, str: string)

  predicate Preferred(p: NamePair)
  {
    p.ts == "P"
  }

  /**
   * `_choose_name`: keep the existing pair unless there is none, or the
   * existing one is not preferred while the candidate is.
   */
  function ChooseName(existing: Option<NamePair>, candidate: NamePair): (r: NamePair)
    ensures existing.None? ==> r == candidate
    ensures existing.Some? ==> r == existing.value || r == candidate
    // a preferred pair is never displaced
    ensures existing.Some? && Preferred(existing.value) ==> r == existing.value
    // a preferred candidate displaces a pair that is not preferred
    ensures existing.Some? && !Preferred(existing.value) && Preferred(candidate) ==> r == candidate
    // nothing else displaces the existing pair
    ensures existing.Some? && !Preferred(candidate) ==> r == existing.value
  {
    if existing.None? then candidate
    else if existing.value.ts == "P" then existing.value
    else if candidate.ts == "P" then candidate
    else existing.value
  }

  /** ChooseName folded over the pairs of one concept, in the order the rows come. */
  function BestName(pairs: seq<NamePair>): (r: Option<NamePair>)
    ensures r.Some? <==> pairs != []
  {
    if pairs == [] then None
    else Some(ChooseName(BestName(pairs[..|pairs| - 1]), pairs[|pairs| - 1]))
  }

  /** A preferred pair beats a non-preferred one whichever of the two comes first. */
  lemma PreferredWinsEitherOrder(a: NamePair, b: NamePair)
    requires Preferred(a) && !Preferred(b)
    ensures ChooseName(Some(a), b) == a && ChooseName(Some(b), a) == a
  {
  }

  /** With no preferred pair, the first pair seen survives. */
  lemma {:induction false} BestNameWithoutPreferred(pairs: seq<NamePair>)
    requires pairs != [] && forall i :: 0 <= i < |pairs| ==> !Preferred(pairs[i])
    ensures BestName(pairs) == Some(pairs[0])
  {
    var n := |pairs|;
    if n > 1 {
      var front := pairs[..n - 1];
      assert forall i :: 0 <= i < n - 1 ==> front[i] == pairs[i];
      BestNameWithoutPreferred(front);
    }
  }

  /** The first preferred pair survives, whatever comes before or after it. */
  lemma {:induction false} BestNameIsFirstPreferred(pairs: seq<NamePair>, i: int)
    requires 0 <= i < |pairs| && Preferred(pairs[i])
    requires forall j :: 0 <= j < i ==> !Preferred(pairs[j])
    ensures BestName(pairs) == Some(pairs[i])
  {
    var n := |pairs|;
    var front := pairs[..n - 1];
    assert forall j :: 0 <= j < n - 1 ==> front[j] == pairs[j];
    if i < n - 1 {
      BestNameIsFirstPreferred(front, i);
    } else if n > 1 {
      BestNameWithoutPreferred(front);
    }
  }

  /** The name maps the scan returns: the name string of each concept's best pair. */
  function NameMap(best: map<string, NamePair>): (names: map<string, string>)
    ensures names.Keys == best.Keys
    ensures forall id :: id in names ==> names[id] == best[id].str
  {
    map id | id in best :: best[id].str
  }
}
