/** Dictionaries that are walked in insertion order. */
module Dicts {
  type Id = nat

  datatype Dict<V> = Dict(keys: seq<Id>, at: map<Id, V>)

  /** Each key is listed once. */
  predicate Ok<V>(d: Dict<V>) {
    && (forall i, j | 0 <= i < j < |d.keys| :: d.keys[i] != d.keys[j])
    && (forall i | 0 <= i < |d.keys| :: d.keys[i] in d.at)
    && (forall k | k in d.at :: k in d.keys)
  }

  function Empty<V>(): Dict<V> { Dict([], map[]) }

  function Get<V>(d: Dict<V>, k: Id, otherwise: V): V {
    if k in d.at then d.at[k] else otherwise
  }

  function Put<V>(d: Dict<V>, k: Id, v: V): Dict<V> {
    Dict(if k in d.at then d.keys else d.keys + [k], d.at[k := v])
  }

  lemma PutKeepsOk<V>(d: Dict<V>, k: Id, v: V)
    requires Ok(d)
    ensures Ok(Put(d, k, v))
  {
  }

  /** The sum of the values of the first n keys. */
  function SumTo(d: Dict<int>, n: nat): int
    requires n <= |d.keys|
  {
    if n == 0 then 0 else SumTo(d, n - 1) + Get(d, d.keys[n - 1], 0)
  }

  function Sum(d: Dict<int>): int { SumTo(d, |d.keys|) }

  lemma {:induction false} SumToPut(d: Dict<int>, k: Id, more: int, n: nat)
    requires Ok(d) && n <= |d.keys|
    ensures SumTo(Put(d, k, Get(d, k, 0) + more), n) == SumTo(d, n) + if k in d.keys[..n] then more else 0
  {
    if n > 0 {
      SumToPut(d, k, more, n - 1);
      assert d.keys[..n] == d.keys[..n - 1] + [d.keys[n - 1]];
    }
  }

  /** Adding to one value adds to the sum. */
  lemma SumPut(d: Dict<int>, k: Id, more: int)
    requires Ok(d)
    ensures Sum(Put(d, k, Get(d, k, 0) + more)) == Sum(d) + more
  {
    SumToPut(d, k, more, |d.keys|);
    assert d.keys[..|d.keys|] == d.keys;
  }
}
