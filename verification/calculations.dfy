/**
 * Balance arithmetic (`calculateBalance`, `recalculateAllBalances`): the
 * balance of line i is the starting balance plus the net movement of lines
 * 0..i, in ledger order.
 */
module Calculations {
  import opened Types

  /** Net movement of the first `n` lines of `es`. */
  function SumNet(es: seq<Entry>, n: nat): (r: real)
    requires n <= |es|
  {
    if n == 0 then 0.0 else SumNet(es, n - 1) + Net(es[n - 1])
  }

  /** The running-balance invariant: every stored balance is its prefix sum. */
  predicate Consistent(es: seq<Entry>, startingBalance: real) {
    forall i :: 0 <= i < |es| ==> es[i].balance == startingBalance + SumNet(es, i + 1)
  }

  /** The same invariant, stated line by line as a recurrence. */
  predicate Steps(es: seq<Entry>, startingBalance: real) {
    && (|es| > 0 ==> es[0].balance == startingBalance + Net(es[0]))
    && (forall i :: 1 <= i < |es| ==> es[i].balance == es[i - 1].balance + Net(es[i]))
  }

  /**
   * `calculateBalance(entries, index, startingBalance)`. Index 0 takes a
   * shortcut that reads the first line directly; otherwise a loop adds up
   * lines 0..index. An index past the end reads a missing line, which the
   * source does not guard, hence the precondition; a negative index runs
   * the loop zero times.
   */
  method CalculateBalance(es: seq<Entry>, index: int, startingBalance: real) returns (b: real)
    requires index < |es|
    ensures index >= 0 ==> b == startingBalance + SumNet(es, index + 1)
    ensures index == 0 ==> b == startingBalance + es[0].quantityIn - es[0].quantityOut
    ensures index < 0 ==> b == startingBalance
  {
    if index == 0 {
      var e := es[0];
      return startingBalance + e.quantityIn - e.quantityOut;
    }
    b := startingBalance;
    var i := 0;
    while i <= index
      invariant 0 <= i <= (if index < 0 then 0 else index + 1)
      invariant b == startingBalance + SumNet(es, i)
    {
      var e := es[i];
      b := b + (e.quantityIn - e.quantityOut);
      i := i + 1;
    }
  }

  /** Prefix sums only read `quantityIn - quantityOut`. */
  lemma {:induction false} SumNetSameNets(a: seq<Entry>, b: seq<Entry>, n: nat)
    requires n <= |a| && n <= |b|
    requires forall k :: 0 <= k < n ==> Net(a[k]) == Net(b[k])
    ensures SumNet(a, n) == SumNet(b, n)
    decreases n
  {
    if n > 0 {
      SumNetSameNets(a, b, n - 1);
    }
  }

  /**
   * `recalculateAllBalances(entries, startingBalance)`: every line keeps all
   * of its fields except `balance`, which becomes its running balance.
   */
  function RecalculateAllBalances(es: seq<Entry>, startingBalance: real): (r: seq<Entry>)
    ensures |r| == |es|
    ensures forall i :: 0 <= i < |es| ==> SameButBalance(es[i], r[i])
    ensures Consistent(r, startingBalance)
  {
    var r := seq(|es|, i requires 0 <= i < |es| => es[i].(balance := startingBalance + SumNet(es, i + 1)));
    assert forall i :: 0 <= i <= |es| ==> SumNet(r, i) == SumNet(es, i) by {
      forall i | 0 <= i <= |es| {
        SumNetSameNets(r, es, i);
      }
    }
    r
  }

  /** The invariant and the recurrence are two readings of one property. */
  lemma ConsistentIffSteps(es: seq<Entry>, startingBalance: real)
    ensures Consistent(es, startingBalance) <==> Steps(es, startingBalance)
  {
    if Steps(es, startingBalance) {
      forall i | 0 <= i < |es|
        ensures es[i].balance == startingBalance + SumNet(es, i + 1)
      {
        StepsGivePrefixSum(es, startingBalance, i);
      }
    }
    if Consistent(es, startingBalance) {
      if |es| > 0 {
        assert es[0].balance == startingBalance + SumNet(es, 1);
      }
      forall i | 1 <= i < |es|
        ensures es[i].balance == es[i - 1].balance + Net(es[i])
      {
        assert es[i - 1].balance == startingBalance + SumNet(es, i);
      }
    }
  }

  lemma {:induction false} StepsGivePrefixSum(es: seq<Entry>, startingBalance: real, i: nat)
    requires Steps(es, startingBalance)
    requires i < |es|
    ensures es[i].balance == startingBalance + SumNet(es, i + 1)
    decreases i
  {
    if i > 0 {
      StepsGivePrefixSum(es, startingBalance, i - 1);
    }
  }

  /**
   * Two ledgers that agree on everything but balances and both satisfy the
   * invariant for the same starting balance are equal.
   */
  lemma ConsistentDeterminesBalances(a: seq<Entry>, b: seq<Entry>, startingBalance: real)
    requires |a| == |b|
    requires forall i :: 0 <= i < |a| ==> SameButBalance(a[i], b[i])
    requires Consistent(a, startingBalance) && Consistent(b, startingBalance)
    ensures a == b
  {
    forall i | 0 <= i < |a|
      ensures a[i] == b[i]
    {
      SumNetSameNets(a, b, i + 1);
    }
  }

  /** Recalculation changes nothing exactly when the invariant already holds. */
  lemma RecalculateFixpoint(es: seq<Entry>, startingBalance: real)
    ensures RecalculateAllBalances(es, startingBalance) == es <==> Consistent(es, startingBalance)
  {
    if Consistent(es, startingBalance) {
      var r := RecalculateAllBalances(es, startingBalance);
      ConsistentDeterminesBalances(r, es, startingBalance);
    }
  }

  /** Recalculating twice is the same as recalculating once. */
  lemma RecalculateIdempotent(es: seq<Entry>, startingBalance: real)
    ensures var r := RecalculateAllBalances(es, startingBalance);
            RecalculateAllBalances(r, startingBalance) == r
  {
    RecalculateFixpoint(RecalculateAllBalances(es, startingBalance), startingBalance);
  }

  /** Raising the starting balance by `d` raises every balance by exactly `d`. */
  lemma RecalculateShift(es: seq<Entry>, startingBalance: real, d: real)
    ensures var r := RecalculateAllBalances(es, startingBalance);
            var r' := RecalculateAllBalances(es, startingBalance + d);
            forall i :: 0 <= i < |es| ==> r'[i].balance == r[i].balance + d
  {
    var r := RecalculateAllBalances(es, startingBalance);
    var r' := RecalculateAllBalances(es, startingBalance + d);
    forall i | 0 <= i < |es|
      ensures r'[i].balance == r[i].balance + d
    {
      SumNetSameNets(r, r', i + 1);
    }
  }

  /**
   * The balance of a line depends only on the lines before it: two ledgers
   * whose first `j` lines have the same movements get the same first `j`
   * balances.
   */
  lemma RecalculatePrefixIndependent(a: seq<Entry>, b: seq<Entry>, startingBalance: real, j: nat)
    requires j <= |a| && j <= |b|
    requires forall k :: 0 <= k < j ==> Net(a[k]) == Net(b[k])
    ensures var ra := RecalculateAllBalances(a, startingBalance);
            var rb := RecalculateAllBalances(b, startingBalance);
            forall k :: 0 <= k < j ==> ra[k].balance == rb[k].balance
  {
    var ra := RecalculateAllBalances(a, startingBalance);
    var rb := RecalculateAllBalances(b, startingBalance);
    forall k | 0 <= k < j
      ensures ra[k].balance == rb[k].balance
    {
      SumNetSameNets(ra, rb, k + 1);
    }
  }

  /** Editing the quantities of line `j` leaves the balances before `j` alone. */
  lemma EditQuantitiesKeepsEarlierBalances(es: seq<Entry>, startingBalance: real, j: nat, qIn: real, qOut: real)
    requires j < |es|
    ensures var es' := es[j := es[j].(quantityIn := qIn, quantityOut := qOut)];
            var r := RecalculateAllBalances(es, startingBalance);
            var r' := RecalculateAllBalances(es', startingBalance);
            forall k :: 0 <= k < j ==> r'[k].balance == r[k].balance
  {
    var es' := es[j := es[j].(quantityIn := qIn, quantityOut := qOut)];
    RecalculatePrefixIndependent(es, es', startingBalance, j);
  }

  /** Appending lines never changes the recalculated lines already there. */
  lemma RecalculateAppend(es: seq<Entry>, more: seq<Entry>, startingBalance: real)
    ensures RecalculateAllBalances(es + more, startingBalance)[..|es|]
         == RecalculateAllBalances(es, startingBalance)
  {
    var r := RecalculateAllBalances(es + more, startingBalance);
    var r0 := RecalculateAllBalances(es, startingBalance);
    forall k | 0 <= k < |es|
      ensures r[k] == r0[k]
    {
      SumNetSameNets(r, r0, k + 1);
    }
  }
}
