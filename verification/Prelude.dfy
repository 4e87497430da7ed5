/** Shared vocabulary: options, results, machine integers and finite sums. */
module Prelude {

  datatype Option<+T> = None | Some(value: T)

  datatype Result<+T, +E> = Ok(value: T) | Err(error: E)

  const MAX_INT64: int := 0x7FFF_FFFF_FFFF_FFFF
  const MIN_INT64: int := -0x8000_0000_0000_0000

  type int64 = x: int | MIN_INT64 <= x <= MAX_INT64

  const WORD: int := 0x1_0000_0000_0000_0000

  /** Two's-complement wrap-around of a 64-bit result. */
  function Wrap64(x: int): (r: int64)
    ensures MIN_INT64 <= x <= MAX_INT64 ==> r == x
  {
    if x % WORD <= MAX_INT64 then x % WORD else x % WORD - WORD
  }

  /** Wrapping changes a number by a whole multiple of the word. */
  lemma WrapByWords(x: int) returns (k: int)
    ensures Wrap64(x) == x - k * WORD
  {
    k := if x % WORD <= MAX_INT64 then x / WORD else x / WORD + 1;
  }

  /** Integer division as the source language does it: the quotient is cut toward zero. */
  function TruncDiv(x: int, y: int): (q: int)
    requires y > 0
  {
    if x >= 0 then x / y else -((-x) / y)
  }

  /** Sum of the values of a finite map. */
  ghost function Total<K>(m: map<K, nat>): nat
    decreases |m|
  {
    if m == map[] then 0
    else
      var k :| k in m;
      m[k] + Total(m - {k})
  }

  lemma {:induction false} TotalRemove<K>(m: map<K, nat>, k: K)
    requires k in m
    ensures Total(m) == m[k] + Total(m - {k})
    decreases |m|
  {
    var j :| j in m && Total(m) == m[j] + Total(m - {j});
    if j != k {
      TotalRemove(m - {j}, k);
      TotalRemove(m - {k}, j);
      assert (m - {j}) - {k} == (m - {k}) - {j};
    }
  }

  lemma TotalPut<K>(m: map<K, nat>, k: K, v: nat)
    ensures Total(m[k := v]) == Total(m - {k}) + v
    ensures Total(m) == Total(m - {k}) + (if k in m then m[k] else 0)
  {
    TotalRemove(m[k := v], k);
    assert m[k := v] - {k} == m - {k};
    if k in m {
      TotalRemove(m, k);
    } else {
      assert m - {k} == m;
    }
  }

  /** Lowering some of the values cannot raise the sum. */
  lemma {:induction false} TotalMonotone<K>(low: map<K, nat>, high: map<K, nat>)
    requires low.Keys <= high.Keys
    requires forall k :: k in low ==> low[k] <= high[k]
    ensures Total(low) <= Total(high)
    decreases |high|
  {
    if high != map[] {
      var k :| k in high;
      TotalPut(low, k, 0);
      TotalPut(high, k, 0);
      TotalMonotone(low - {k}, high - {k});
    } else {
      assert low == map[];
    }
  }

  /** Sum of a sequence of integers. */
  function Sum(s: seq<int>): int {
    if s == [] then 0 else Sum(s[..|s| - 1]) + s[|s| - 1]
  }

  lemma SumAppend(s: seq<int>, x: int)
    ensures Sum(s + [x]) == Sum(s) + x
  {
    assert (s + [x])[..|s|] == s;
  }
}
