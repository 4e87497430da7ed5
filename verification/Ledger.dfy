/** Append-only ledgers whose lines carry a running balance per owner: nextLedgerBalance and the ledger inserts of
    internal/repository/finance_repository.go. */
module Ledger {
  /** `after` is the balance the line claims for its owner; lines are in commit order. */
  datatype Line<K(==), N> = Line(owner: K, delta: int, after: int, note: N)

  /** What the lines of an owner add up to. */
  function Balance<K(==), N>(lines: seq<Line<K, N>>, k: K): int {
    if lines == [] then 0
    else
      var last := lines[|lines| - 1];
      Balance(lines[..|lines| - 1], k) + if last.owner == k then last.delta else 0
  }

  /** What the newest line of an owner claims, and nothing without one. */
  function Latest<K(==), N>(lines: seq<Line<K, N>>, k: K): int {
    if lines == [] then 0
    else
      var last := lines[|lines| - 1];
      if last.owner == k then last.after else Latest(lines[..|lines| - 1], k)
  }

  /** Every claim is the sum of the owner's lines up to it. */
  predicate Running<K(==), N>(lines: seq<Line<K, N>>) {
    forall n :: 0 <= n < |lines| ==> lines[n].after == Balance(lines[..n + 1], lines[n].owner)
  }

  lemma BalanceAppend<K, N>(lines: seq<Line<K, N>>, line: Line<K, N>, k: K)
    ensures Balance(lines + [line], k) == Balance(lines, k) + if line.owner == k then line.delta else 0
  {
    assert (lines + [line])[..|lines|] == lines;
  }

  lemma RunningAppend<K, N>(lines: seq<Line<K, N>>, line: Line<K, N>)
    requires Running(lines) && line.after == Balance(lines, line.owner) + line.delta
    ensures Running(lines + [line])
  {
    var longer := lines + [line];
    BalanceAppend(lines, line, line.owner);
    forall n | 0 <= n < |longer|
      ensures longer[n].after == Balance(longer[..n + 1], longer[n].owner)
    {
      if n < |lines| {
        assert longer[..n + 1] == lines[..n + 1];
      } else {
        assert longer[..n + 1] == longer;
      }
    }
  }

  /** In a running ledger the newest claim is the balance. */
  lemma {:induction false} LatestIsBalance<K, N>(lines: seq<Line<K, N>>, k: K)
    requires Running(lines)
    ensures Latest(lines, k) == Balance(lines, k)
  {
    if lines != [] {
      var front := lines[..|lines| - 1];
      assert lines[..|lines|] == lines;
      forall n | 0 <= n < |front|
        ensures front[n].after == Balance(front[..n + 1], front[n].owner)
      {
        assert front[..n + 1] == lines[..n + 1];
      }
      LatestIsBalance(front, k);
    }
  }

  /** Posting as the source does: one step past the newest claim. */
  function Posted<K(==), N>(lines: seq<Line<K, N>>, k: K, delta: int, note: N): seq<Line<K, N>> {
    lines + [Line(k, delta, Latest(lines, k) + delta, note)]
  }

  lemma PostedKeepsRunning<K, N>(lines: seq<Line<K, N>>, k: K, delta: int, note: N)
    requires Running(lines)
    ensures Running(Posted(lines, k, delta, note))
  {
    LatestIsBalance(lines, k);
    RunningAppend(lines, Line(k, delta, Latest(lines, k) + delta, note));
  }

  /** Reads the newest claim of an owner, from the end. */
  method LatestBalance<K(==), N>(lines: seq<Line<K, N>>, k: K) returns (balance: int)
    ensures balance == Latest(lines, k)
  {
    var n := |lines|;
    assert lines[..n] == lines;
    while n > 0
      invariant 0 <= n <= |lines| && Latest(lines, k) == Latest(lines[..n], k)
    {
      assert lines[..n][..n - 1] == lines[..n - 1];
      if lines[n - 1].owner == k {
        return lines[n - 1].after;
      }
      n := n - 1;
    }
    return 0;
  }
}
