/** What both detail pages' charts share: the 24-point window and the choice of the
    forecasts to plot. */
module Chart {
  import opened Wrappers
  import opened Seqs

  /** `slice(-24)` and `slice(0, 24)`. */
  const Window: nat := 24

  /** `fs.sort(byKey).slice(0, 24)`: at most 24 of the forecasts, in non-decreasing key
      order, none of them taken more often than it was fetched. */
  function Upcoming<F>(fs: seq<F>, key: F -> int): (up: seq<F>)
    ensures |up| == Min(Window, |fs|)
    ensures SortedBy(up, key)
    ensures multiset(up) <= multiset(fs)
  {
    var sorted := SortBy(fs, key);
    var up := First(sorted, Window);
    SortedSplit(sorted, |up|, key);
    up
  }

  /** The window holds the earliest forecasts: none of the forecasts left out is
      earlier than one that was kept. */
  lemma UpcomingIsEarliest<F>(fs: seq<F>, key: F -> int)
    ensures var up := Upcoming(fs, key);
            forall x, j :: x in multiset(fs) - multiset(up) && 0 <= j < |up| ==> key(up[j]) <= key(x)
  {
    var sorted := SortBy(fs, key);
    SortedSplit(sorted, |Upcoming(fs, key)|, key);
  }

  /** Cutting a sorted list in two: the front part is sorted, the two parts together
      hold what the list holds, and every element behind the cut has a key at least
      that of every element in front of it. */
  lemma SortedSplit<F>(sorted: seq<F>, n: nat, key: F -> int)
    requires SortedBy(sorted, key) && n <= |sorted|
    ensures SortedBy(sorted[..n], key)
    ensures multiset(sorted[..n]) <= multiset(sorted)
    ensures multiset(sorted) - multiset(sorted[..n]) == multiset(sorted[n..])
    ensures forall x, j :: x in multiset(sorted[n..]) && 0 <= j < n ==> key(sorted[j]) <= key(x)
  {
    assert sorted == sorted[..n] + sorted[n..];
    assert multiset(sorted) == multiset(sorted[..n]) + multiset(sorted[n..]);
    assert SortedBy(sorted[..n], key) by {
      forall i, j | 0 <= i < j < n ensures key(sorted[..n][i]) <= key(sorted[..n][j]) {
        assert sorted[..n][i] == sorted[i] && sorted[..n][j] == sorted[j];
      }
    }
    forall x, j | x in multiset(sorted[n..]) && 0 <= j < n ensures key(sorted[j]) <= key(x) {
      var k :| 0 <= k < |sorted[n..]| && sorted[n..][k] == x;
      assert sorted[n..][k] == sorted[n + k];
    }
  }

  /** `measurements.slice(-10).reverse()`: the table of the newest (at most 10)
      measurements, newest first. */
  const TableWindow: nat := 10

  function RecentRows<M>(ms: seq<M>): (rows: seq<M>)
    ensures |rows| == Min(TableWindow, |ms|)
    ensures forall i :: 0 <= i < |rows| ==> rows[i] == ms[|ms| - 1 - i]
  {
    NewestFirst(ms, TableWindow)
  }
}
