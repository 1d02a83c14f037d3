/**
 * The orders the output is sorted in.  Strings compare as Python compares
 * them, code point by code point with a proper prefix first; record
 * names compare after lower-casing.  `sorted` and `list.sort` are a
 * stable sort, here an insertion sort; the result is specified as a
 * permutation of the input that is ordered by the key.
 */
module Ordering {

  /** Python's `a <= b` on strings. */
  predicate LexLe(a: string, b: string)
    ensures a <= b ==> LexLe(a, b)
  {
    a == [] || (b != [] && (a[0] < b[0] || (a[0] == b[0] && LexLe(a[1..], b[1..]))))
  }

  lemma {:induction false} LexLeReflexive(a: string)
    ensures LexLe(a, a)
  {
    if a != [] {
      LexLeReflexive(a[1..]);
    }
  }

  lemma {:induction false} LexLeTotal(a: string, b: string)
    ensures LexLe(a, b) || LexLe(b, a)
  {
    if a != [] && b != [] && a[0] == b[0] {
      LexLeTotal(a[1..], b[1..]);
    }
  }

  lemma {:induction false} LexLeTransitive(a: string, b: string, c: string)
    requires LexLe(a, b) && LexLe(b, c)
    ensures LexLe(a, c)
  {
    if a != [] && b != [] && c != [] && a[0] == b[0] && b[0] == c[0] {
      LexLeTransitive(a[1..], b[1..], c[1..]);
    }
  }

  lemma {:induction false} LexLeAntisymmetric(a: string, b: string)
    requires LexLe(a, b) && LexLe(b, a)
    ensures a == b
  {
    if a != [] && b != [] {
      LexLeAntisymmetric(a[1..], b[1..]);
      assert a == [a[0]] + a[1..] && b == [b[0]] + b[1..];
    }
  }

  /** `str.lower()` on ASCII letters; every other character is kept. */
  function LowerChar(c: char): char
  {
    if 'A' <= c <= 'Z' then (c as int + 32) as char else c
  }

  function Lower(s: string): (r: string)
    ensures |r| == |s|
    ensures forall i :: 0 <= i < |s| ==> r[i] == LowerChar(s[i])
  {
    seq(|s|, i requires 0 <= i < |s| => LowerChar(s[i]))
  }

  /** Lower-casing leaves no upper-case ASCII letter, so doing it twice changes nothing. */
  lemma LowerIdempotent(s: string)
    ensures forall i :: 0 <= i < |s| ==> !('A' <= Lower(s)[i] <= 'Z')
    ensures Lower(Lower(s)) == Lower(s)
  {
  }

  /** The keys along `xs` never decrease. */
  ghost predicate SortedOn<T>(xs: seq<T>, key: T -> string)
  {
    forall i, j :: 0 <= i < j < |xs| ==> LexLe(key(xs[i]), key(xs[j]))
  }

  /** `xs` lists the set's elements, each exactly once. */
  ghost predicate Lists<T>(xs: seq<T>, s: set<T>)
  {
    multiset(xs) == multiset(s)
  }

  /** Listing one more element. */
  lemma ListsAppend<T>(xs: seq<T>, s: set<T>, x: T)
    requires Lists(xs, s) && x !in s
    ensures Lists(xs + [x], s + {x})
  {
    assert multiset(s + {x}) == multiset(s) + multiset{x};
  }

  /** Walking a list without repeats: after the first k elements, the (k+1)-th is new. */
  lemma ListsExtend<T>(xs: seq<T>, k: int, s: set<T>)
    requires 0 <= k < |xs| && Lists(xs[..k], s)
    requires forall i, j :: 0 <= i < j < |xs| ==> xs[i] != xs[j]
    ensures xs[k] !in s
    ensures Lists(xs[..k + 1], s + {xs[k]})
  {
    assert xs[..k + 1] == xs[..k] + [xs[k]];
    assert forall j :: 0 <= j < k ==> xs[..k][j] != xs[k];
    assert xs[k] !in multiset(xs[..k]);
    ListsAppend(xs[..k], s, xs[k]);
  }

  /** One listing, one set. */
  lemma ListsSame<T>(xs: seq<T>, s: set<T>, s': set<T>)
    requires Lists(xs, s) && Lists(xs, s')
    ensures s == s'
  {
    forall x
      ensures x in s <==> x in s'
    {
      assert x in s <==> x in multiset(s);
    }
  }

  /** An element at two positions occurs twice. */
  lemma RepeatCounts<T>(xs: seq<T>, i: int, j: int)
    requires 0 <= i < j < |xs|
    ensures xs[i] == xs[j] ==> multiset(xs)[xs[i]] >= 2
  {
    assert xs == xs[..i] + [xs[i]] + xs[i + 1..j] + [xs[j]] + xs[j + 1..];
  }

  /** A listing has no repeated element and nothing outside the set. */
  lemma ListsDistinct<T>(xs: seq<T>, s: set<T>)
    requires Lists(xs, s)
    ensures forall i, j :: 0 <= i < j < |xs| ==> xs[i] != xs[j]
    ensures forall i :: 0 <= i < |xs| ==> xs[i] in s
    ensures |xs| == |s|
  {
    forall i, j | 0 <= i < j < |xs|
      ensures xs[i] != xs[j]
    {
      RepeatCounts(xs, i, j);
    }
    forall i | 0 <= i < |xs|
      ensures xs[i] in s
    {
      assert xs[i] in multiset(xs);
    }
    assert |multiset(xs)| == |multiset(s)|;
  }

  /** Put `x` after every element whose key is not greater: the stable insertion step. */
  method InsertOn<T>(ys: seq<T>, x: T, key: T -> string) returns (zs: seq<T>)
    requires SortedOn(ys, key)
    ensures multiset(zs) == multiset(ys) + multiset{x}
    ensures SortedOn(zs, key)
  {
    var k := 0;
    while k < |ys| && LexLe(key(ys[k]), key(x))
      invariant 0 <= k <= |ys|
      invariant forall j :: 0 <= j < k ==> LexLe(key(ys[j]), key(x))
    {
      k := k + 1;
    }
    if k < |ys| {
      LexLeTotal(key(ys[k]), key(x));
      forall j | k <= j < |ys|
        ensures LexLe(key(x), key(ys[j]))
      {
        if j > k {
          LexLeTransitive(key(x), key(ys[k]), key(ys[j]));
        }
      }
    }
    zs := ys[..k] + [x] + ys[k..];
    assert ys == ys[..k] + ys[k..];
    assert forall i :: 0 <= i < k ==> zs[i] == ys[i];
    assert forall i :: k < i < |zs| ==> zs[i] == ys[i - 1];
    forall i, j | 0 <= i < j < |zs|
      ensures LexLe(key(zs[i]), key(zs[j]))
    {
      if i < k < j {
        LexLeTransitive(key(zs[i]), key(x), key(zs[j]));
      }
    }
  }

  /** `sorted(xs, key=key)`: a permutation of `xs` whose keys never decrease. */
  method SortBy<T>(xs: seq<T>, key: T -> string) returns (ys: seq<T>)
    ensures multiset(ys) == multiset(xs)
    ensures SortedOn(ys, key)
  {
    ys := [];
    for i := 0 to |xs|
      invariant multiset(ys) == multiset(xs[..i])
      invariant SortedOn(ys, key)
    {
      assert xs[..i + 1] == xs[..i] + [xs[i]];
      ys := InsertOn(ys, xs[i], key);
    }
    assert xs[..|xs|] == xs;
  }

  /** Iterating a set: every element once, in an order the model leaves open. */
  method ListSet<T>(s: set<T>) returns (xs: seq<T>)
    ensures Lists(xs, s)
  {
    xs := [];
    var rest := s;
    while rest != {}
      invariant rest <= s
      invariant multiset(xs) + multiset(rest) == multiset(s)
      decreases |rest|
    {
      var x :| x in rest;
      assert multiset(rest) == multiset(rest - {x}) + multiset{x};
      xs := xs + [x];
      rest := rest - {x};
    }
  }

  /** How ids are ordered: by their display name (missing names sort as ""), or by themselves. */
  datatype Order = ByName(names: map<string, string>) | Natural

  function Key(o: Order, x: string): string
  {
    match o
    case ByName(names) => if x in names then names[x] else ""
    case Natural => x
  }

  /** The keys of the ids along `xs` never decrease. */
  ghost predicate SortedByKey(xs: seq<string>, o: Order)
  {
    forall i, j :: 0 <= i < j < |xs| ==> LexLe(Key(o, xs[i]), Key(o, xs[j]))
  }

  /** `sorted(s, key=...)` on a set of ids. */
  method SortedIds(s: set<string>, o: Order) returns (xs: seq<string>)
    ensures Lists(xs, s)
    ensures SortedByKey(xs, o)
  {
    var listed := ListSet(s);
    xs := SortBy(listed, x => Key(o, x));
  }
}
