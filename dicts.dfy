/**
 * Python's insertion-ordered `dict` with string keys: assigning a new key appends it,
 * assigning an existing key replaces its value and keeps its position.
 */
module Dicts {

  /** `keys` lists every key once, in first-insertion order; `items` holds the values. */
  datatype Dict<V> = Dict(keys: seq<string>, items: map<string, V>)

  predicate Distinct(s: seq<string>) {
    forall i, j :: 0 <= i < j < |s| ==> s[i] != s[j]
  }

  ghost predicate Valid<V>(d: Dict<V>) {
    Distinct(d.keys) && forall k :: k in d.items <==> k in d.keys
  }

  /** `{}` */
  function Empty<V>(): (d: Dict<V>)
    ensures Valid(d) && d.keys == [] && d.items == map[]
  {
    Dict([], map[])
  }

  /** `d[k] = v` */
  function Put<V>(d: Dict<V>, k: string, v: V): (r: Dict<V>)
    requires Valid(d)
    ensures Valid(r)
    ensures r.items == d.items[k := v]
    ensures r.keys == if k in d.items then d.keys else d.keys + [k]
  {
    Dict(if k in d.items then d.keys else d.keys + [k], d.items[k := v])
  }

  /** The dictionary that assigning the pairs one after the other, from an empty
      dictionary, builds. */
  function FromPairs<V>(ps: seq<(string, V)>): (d: Dict<V>)
    ensures Valid(d)
  {
    if ps == [] then Empty() else Put(FromPairs(ps[..|ps| - 1]), ps[|ps| - 1].0, ps[|ps| - 1].1)
  }

  /** The keys of the pairs, in order, repetitions included. */
  function Firsts<V>(ps: seq<(string, V)>): (r: seq<string>)
    ensures |r| == |ps| && forall i :: 0 <= i < |ps| ==> r[i] == ps[i].0
  {
    seq(|ps|, i requires 0 <= i < |ps| => ps[i].0)
  }

  /** The elements of `s`, each once, in the order of their first occurrence. */
  function Dedup(s: seq<string>): (r: seq<string>)
    ensures Distinct(r)
    ensures forall x :: x in r <==> x in s
  {
    if s == [] then []
    else
      var p := Dedup(s[..|s| - 1]);
      if s[|s| - 1] in p then p else p + [s[|s| - 1]]
  }

  /** The position of the last occurrence of `x` in `s`. */
  function LastIndex(s: seq<string>, x: string): (i: nat)
    requires x in s
    ensures i < |s| && s[i] == x
    ensures forall j :: i < j < |s| ==> s[j] != x
  {
    if s[|s| - 1] == x then |s| - 1 else LastIndex(s[..|s| - 1], x)
  }

  /** Assigning the first i+1 pairs is assigning the first i, then the next one. */
  lemma FromPairsSnoc<V>(ps: seq<(string, V)>, i: nat)
    requires i < |ps|
    ensures FromPairs(ps[..i + 1]) == Put(FromPairs(ps[..i]), ps[i].0, ps[i].1)
  {
    assert ps[..i + 1][..i] == ps[..i];
  }

  /** The dictionary holds each key of the pairs once, in first-assignment order. */
  lemma {:induction false} FromPairsKeys<V>(ps: seq<(string, V)>)
    ensures FromPairs(ps).keys == Dedup(Firsts(ps))
    ensures forall k :: k in FromPairs(ps).items <==> k in Firsts(ps)
  {
    if ps != [] {
      var n := |ps| - 1;
      assert Firsts(ps[..n]) == Firsts(ps)[..n];
      FromPairsKeys(ps[..n]);
    }
  }

  /** The value under a key is the one its last assignment gave it. */
  lemma {:induction false} FromPairsLookup<V>(ps: seq<(string, V)>, k: string)
    requires k in Firsts(ps)
    ensures k in FromPairs(ps).items
    ensures FromPairs(ps).items[k] == ps[LastIndex(Firsts(ps), k)].1
  {
    var n := |ps| - 1;
    assert Firsts(ps[..n]) == Firsts(ps)[..n];
    if ps[n].0 != k {
      FromPairsLookup(ps[..n], k);
    }
  }

  /** Everything the dictionary built from the pairs is, in one statement. */
  lemma FromPairsFacts<V>(ps: seq<(string, V)>)
    ensures FromPairs(ps).keys == Dedup(Firsts(ps))
    ensures forall k :: k in FromPairs(ps).items <==> k in Firsts(ps)
    ensures forall k :: k in Firsts(ps) ==> FromPairs(ps).items[k] == ps[LastIndex(Firsts(ps), k)].1
  {
    FromPairsKeys(ps);
    forall k | k in Firsts(ps) ensures FromPairs(ps).items[k] == ps[LastIndex(Firsts(ps), k)].1 {
      FromPairsLookup(ps, k);
    }
  }

  /** Without repeated keys, assignment order is key order. */
  lemma {:induction false} DedupDistinct(s: seq<string>)
    requires Distinct(s)
    ensures Dedup(s) == s
  {
    if s != [] {
      DedupDistinct(s[..|s| - 1]);
    }
  }
}
