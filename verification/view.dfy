/**
 * The read-only views the hook derives on every render: the filtered lines
 * and the summary figures over them.
 */
module View {
  import opened Types
  import opened Calculations
  import Js
  import Seqs

  /** Case-insensitive search on notes or sign. */
  predicate MatchesSearch(e: Entry, searchTerm: string) {
    || Js.Includes(Js.Lower(e.notes), Js.Lower(searchTerm))
    || Js.Includes(Js.Lower(e.sign), Js.Lower(searchTerm))
  }

  /** Inclusive date range, compared as strings; an empty bound is no bound. */
  predicate MatchesDateRange(e: Entry, startDate: string, endDate: string) {
    && (startDate == "" || Js.LexLe(startDate, e.date))
    && (endDate == "" || Js.LexLe(e.date, endDate))
  }

  /** The predicate passed to `state.entries.filter`. */
  predicate Matches(f: FilterState, e: Entry) {
    MatchesSearch(e, f.searchTerm) && MatchesDateRange(e, f.startDate, f.endDate)
  }

  /** `filteredEntries`: the matching lines, in ledger order. */
  function FilteredEntries(s: State, f: FilterState): (r: seq<Entry>)
    ensures |r| <= |s.entries|
    ensures forall e :: e in r <==> e in s.entries && Matches(f, e)
  {
    Seqs.Filter(s.entries, e => Matches(f, e))
  }

  /** The filter with nothing entered keeps every line. */
  lemma EmptyFilterKeepsAll(s: State)
    ensures FilteredEntries(s, FilterState("", "", "")) == s.entries
  {
    var f := FilterState("", "", "");
    forall i | 0 <= i < |s.entries|
      ensures ((e: Entry) => Matches(f, e))(s.entries[i])
    {
      Js.IncludesEmpty(Js.Lower(s.entries[i].notes));
    }
    Seqs.FilterKeepsAll(s.entries, e => Matches(f, e));
  }

  /** Filtering two halves of a ledger separately and concatenating gives the same lines. */
  lemma FilteredEntriesKeepOrder(a: seq<Entry>, b: seq<Entry>, s: State, f: FilterState)
    requires s.entries == a + b
    ensures FilteredEntries(s, f) == FilteredEntries(s.(entries := a), f) + FilteredEntries(s.(entries := b), f)
  {
    Seqs.FilterConcat(a, b, e => Matches(f, e));
  }

  /** `reduce((sum, entry) => sum + entry.in, 0)` */
  function SumIn(es: seq<Entry>): (r: real) {
    if |es| == 0 then 0.0 else SumIn(es[..|es| - 1]) + es[|es| - 1].quantityIn
  }

  /** `reduce((sum, entry) => sum + entry.out, 0)` */
  function SumOut(es: seq<Entry>): (r: real) {
    if |es| == 0 then 0.0 else SumOut(es[..|es| - 1]) + es[|es| - 1].quantityOut
  }

  /** Total in minus total out is the net movement used for balances. */
  lemma {:induction false} SumInOutIsSumNet(es: seq<Entry>)
    ensures SumIn(es) - SumOut(es) == SumNet(es, |es|)
    decreases |es|
  {
    if |es| > 0 {
      var init := es[..|es| - 1];
      SumInOutIsSumNet(init);
      SumNetSameNets(es, init, |es| - 1);
    }
  }

  /**
   * `summaryStats`: totals and count over the filtered lines; the current
   * balance is the stored balance of the last filtered line, or the
   * starting balance when nothing matches.
   */
  function Summary(s: State, f: FilterState): (r: SummaryStats)
    ensures r.entryCount == |FilteredEntries(s, f)|
    ensures r.totalIn == SumIn(FilteredEntries(s, f)) && r.totalOut == SumOut(FilteredEntries(s, f))
    ensures forall k :: 0 <= k < |s.entries| && Matches(f, s.entries[k])
                        && (forall j :: k < j < |s.entries| ==> !Matches(f, s.entries[j])) ==>
              r.currentBalance == s.entries[k].balance
    ensures (forall k :: 0 <= k < |s.entries| ==> !Matches(f, s.entries[k])) ==>
              r.currentBalance == s.startingBalance && r.entryCount == 0
  {
    var fe := FilteredEntries(s, f);
    var r := SummaryStats(
      SumIn(fe),
      SumOut(fe),
      if |fe| > 0 then fe[|fe| - 1].balance else s.startingBalance,
      |fe|);
    assert forall k :: 0 <= k < |s.entries| && Matches(f, s.entries[k])
                       && (forall j :: k < j < |s.entries| ==> !Matches(f, s.entries[j])) ==>
             r.currentBalance == s.entries[k].balance by {
      forall k | 0 <= k < |s.entries| && Matches(f, s.entries[k])
                 && (forall j :: k < j < |s.entries| ==> !Matches(f, s.entries[j]))
        ensures r.currentBalance == s.entries[k].balance
      {
        Seqs.FilterLast(s.entries, e => Matches(f, e), k);
      }
    }
    assert (forall k :: 0 <= k < |s.entries| ==> !Matches(f, s.entries[k])) ==> |fe| == 0 by {
      if forall k :: 0 <= k < |s.entries| ==> !Matches(f, s.entries[k]) {
        Seqs.FilterKeepsNone(s.entries, e => Matches(f, e));
      }
    }
    r
  }

  /**
   * Without a filter, on a consistent ledger, the current balance is the
   * starting balance plus total in minus total out.
   */
  lemma UnfilteredSummaryBalances(s: State)
    requires Consistent(s.entries, s.startingBalance)
    ensures var r := Summary(s, FilterState("", "", ""));
            && r.entryCount == |s.entries|
            && r.currentBalance == s.startingBalance + r.totalIn - r.totalOut
  {
    EmptyFilterKeepsAll(s);
    SumInOutIsSumNet(s.entries);
  }

  /** With an empty search term only the date range decides. */
  lemma EmptySearchMatchesDateRange(f: FilterState, e: Entry)
    requires f.searchTerm == ""
    ensures Matches(f, e) <==> MatchesDateRange(e, f.startDate, f.endDate)
  {
    Js.IncludesEmpty(Js.Lower(e.notes));
  }
}
