/** Optional values and exact integer sums shared by the other modules. */
module Wrappers {

  /** JavaScript's `T | null | undefined`: a value, or nothing. */
  datatype Option<+T> = None | Some(value: T)

  /** `storage.getItem(key)`: the stored value, or None when the key is absent. */
  function Lookup<K, V>(m: map<K, V>, key: K): (r: Option<V>)
    ensures r.Some? <==> key in m
    ensures r.Some? ==> r.value == m[key]
  {
    if key in m then Some(m[key]) else None
  }

  /** The exact (bigint) sum of a sequence, added left to right as `reduce((s, v) => s + v, 0n)` does. */
  function Sum(xs: seq<int>): int
  {
    if xs == [] then 0 else Sum(xs[..|xs| - 1]) + xs[|xs| - 1]
  }

  lemma {:induction false} SumAppend(xs: seq<int>, ys: seq<int>)
    ensures Sum(xs + ys) == Sum(xs) + Sum(ys)
    decreases |ys|
  {
    if ys == [] {
      assert xs + ys == xs;
    } else {
      var ys' := ys[..|ys| - 1];
      assert (xs + ys)[..|xs + ys| - 1] == xs + ys';
      SumAppend(xs, ys');
    }
  }

  lemma {:induction false} SumNonNegative(xs: seq<int>)
    requires forall i :: 0 <= i < |xs| ==> xs[i] >= 0
    ensures Sum(xs) >= 0
    decreases |xs|
  {
    if xs != [] {
      SumNonNegative(xs[..|xs| - 1]);
    }
  }

  /** For non-negative amounts every prefix sums to at most the whole. */
  lemma {:induction false} SumPrefixBound(xs: seq<int>, k: nat)
    requires k <= |xs|
    requires forall i :: 0 <= i < |xs| ==> xs[i] >= 0
    ensures Sum(xs[..k]) <= Sum(xs)
  {
    assert xs == xs[..k] + xs[k..];
    SumAppend(xs[..k], xs[k..]);
    SumNonNegative(xs[k..]);
  }

  lemma SumPair(x: int, y: int)
    ensures Sum([x]) == x
    ensures Sum([x, y]) == x + y
  {
    assert [x, y][..1] == [x];
    assert [x][..0] == [];
  }
}
