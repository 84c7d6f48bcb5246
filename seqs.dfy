/** The array operations the pages apply to fetched lists: `Array.prototype.slice`
    with its negative-index rules, `reverse`, and a stable `sort` by an integer key. */
module Seqs {
  import opened Wrappers

  /** How `slice` turns a relative index into an absolute one:
      a negative index counts from the end, and the result is clamped to [0, len]. */
  function RelativeIndex(len: nat, i: int): (k: nat)
    ensures k <= len
    ensures 0 <= i <= len ==> k == i
    ensures i < 0 && -i <= len ==> k == len + i
    ensures (i < 0 && -i > len ==> k == 0) && (i > len ==> k == len)
  {
    if i < 0 then (if len + i < 0 then 0 else len + i)
    else if i > len then len
    else i
  }

  /** `s.slice(start, end)`: the contiguous run of `s` from the resolved `start` up to
      the resolved `end`, empty when `end` does not lie beyond `start`. */
  function Slice<T>(s: seq<T>, start: int, end: int): (r: seq<T>)
    ensures |r| == Max(0, RelativeIndex(|s|, end) - RelativeIndex(|s|, start))
    ensures forall i :: 0 <= i < |r| ==> r[i] == s[RelativeIndex(|s|, start) + i]
  {
    var from := RelativeIndex(|s|, start);
    var to := RelativeIndex(|s|, end);
    if from < to then s[from..to] else []
  }

  /** `s.slice(-n)` for a positive `n`: the last at most `n` elements, in their order. */
  function Last<T>(s: seq<T>, n: nat): (r: seq<T>)
    requires n > 0
    ensures |r| == Min(n, |s|)
    ensures forall i :: 0 <= i < |r| ==> r[i] == s[|s| - |r| + i]
  {
    Slice(s, -(n as int), |s|)
  }

  /** `s.slice(0, n)`: the first at most `n` elements, in their order. */
  function First<T>(s: seq<T>, n: nat): (r: seq<T>)
    ensures |r| == Min(n, |s|)
    ensures r == s[..|r|]
  {
    Slice(s, 0, n)
  }

  /** `s.reverse()`, as a value. */
  function Reverse<T>(s: seq<T>): (r: seq<T>)
    ensures |r| == |s|
    ensures forall i :: 0 <= i < |s| ==> r[i] == s[|s| - 1 - i]
  {
    if s == [] then [] else [s[|s| - 1]] + Reverse(s[..|s| - 1])
  }

  /** `s.slice(-n).reverse()`: the newest at most `n` entries of a list kept
      oldest first, newest first. */
  function NewestFirst<T>(s: seq<T>, n: nat): (r: seq<T>)
    requires n > 0
    ensures |r| == Min(n, |s|)
    ensures forall i :: 0 <= i < |r| ==> r[i] == s[|s| - 1 - i]
  {
    Reverse(Last(s, n))
  }

  /** `key` never decreases along `s`. */
  ghost predicate SortedBy<T>(s: seq<T>, key: T -> int)
  {
    forall i, j :: 0 <= i < j < |s| ==> key(s[i]) <= key(s[j])
  }

  /** Every key in `s` is at least `k`. */
  ghost predicate KeysAtLeast<T>(k: int, s: seq<T>, key: T -> int)
  {
    forall i :: 0 <= i < |s| ==> k <= key(s[i])
  }

  lemma ConsSorted<T>(x: T, s: seq<T>, key: T -> int)
    requires SortedBy(s, key) && KeysAtLeast(key(x), s, key)
    ensures SortedBy([x] + s, key)
  {
    forall i, j | 0 <= i < j < |s| + 1 ensures key(([x] + s)[i]) <= key(([x] + s)[j]) {
      if i > 0 {
        assert ([x] + s)[i] == s[i - 1];
      }
      assert ([x] + s)[j] == s[j - 1];
    }
  }

  /** A lower bound on the keys carries over to any rearrangement. */
  lemma KeysAtLeastPermutation<T>(k: int, a: seq<T>, b: seq<T>, key: T -> int)
    requires multiset(a) == multiset(b) && KeysAtLeast(k, b, key)
    ensures KeysAtLeast(k, a, key)
  {
    forall i | 0 <= i < |a| ensures k <= key(a[i]) {
      assert a[i] in multiset(a);
      assert a[i] in multiset(b);
      var j :| 0 <= j < |b| && b[j] == a[i];
    }
  }

  /** An element whose key is at most the first key can go in front of a sorted list. */
  lemma InsertFrontSorted<T>(x: T, s: seq<T>, key: T -> int)
    requires SortedBy(s, key) && (s == [] || key(x) <= key(s[0]))
    ensures SortedBy([x] + s, key)
  {
    assert KeysAtLeast(key(x), s, key) by {
      forall i | 0 <= i < |s| ensures key(x) <= key(s[i]) {
        assert key(s[0]) <= key(s[i]) || i == 0;
      }
    }
    ConsSorted(x, s, key);
  }

  /** The head of a sorted list stays in front of any sorted rearrangement of its tail
      with an element of a larger key added. */
  lemma InsertBehindSorted<T>(x: T, s: seq<T>, rest: seq<T>, key: T -> int)
    requires s != [] && key(s[0]) < key(x) && SortedBy(s, key)
    requires SortedBy(rest, key) && multiset(rest) == multiset(s[1..]) + multiset{x}
    ensures SortedBy([s[0]] + rest, key)
  {
    assert KeysAtLeast(key(s[0]), s[1..] + [x], key) by {
      forall i | 0 <= i < |s| ensures key(s[0]) <= key((s[1..] + [x])[i]) {
        if i < |s| - 1 {
          assert (s[1..] + [x])[i] == s[i + 1];
        }
      }
    }
    assert multiset(rest) == multiset(s[1..] + [x]);
    KeysAtLeastPermutation(key(s[0]), rest, s[1..] + [x], key);
    ConsSorted(s[0], rest, key);
  }

  /** Inserts `x` in front of the first element whose key is not smaller,
      so that `x` stays ahead of the elements with an equal key. */
  function Insert<T>(x: T, s: seq<T>, key: T -> int): (r: seq<T>)
    ensures |r| == |s| + 1
    ensures multiset(r) == multiset(s) + multiset{x}
    ensures SortedBy(s, key) ==> SortedBy(r, key)
  {
    if s == [] || key(x) <= key(s[0]) then
      assert SortedBy(s, key) ==> SortedBy([x] + s, key) by {
        if SortedBy(s, key) {
          InsertFrontSorted(x, s, key);
        }
      }
      [x] + s
    else
      var rest := Insert(x, s[1..], key);
      assert s == [s[0]] + s[1..];
      assert SortedBy(s, key) ==> SortedBy(s[1..], key) by {
        if SortedBy(s, key) {
          forall i, j | 0 <= i < j < |s| - 1 ensures key(s[1..][i]) <= key(s[1..][j]) {
            assert s[1..][i] == s[i + 1] && s[1..][j] == s[j + 1];
          }
        }
      }
      assert SortedBy(s, key) ==> SortedBy([s[0]] + rest, key) by {
        if SortedBy(s, key) {
          InsertBehindSorted(x, s, rest, key);
        }
      }
      [s[0]] + rest
  }

  /** `s.sort((a, b) => key(a) - key(b))`, as a value: an insertion sort. It is stable
      by construction, as ECMAScript requires of `sort`, but stability is not among the
      properties proved here. */
  function SortBy<T>(s: seq<T>, key: T -> int): (r: seq<T>)
    ensures |r| == |s|
    ensures multiset(r) == multiset(s)
    ensures SortedBy(r, key)
  {
    if s == [] then []
    else
      assert s == [s[0]] + s[1..];
      var sortedRest := SortBy(s[1..], key);
      assert multiset(s) == multiset(s[1..]) + multiset{s[0]};
      Insert(s[0], sortedRest, key)
  }

  /** A sorted list is its own sort, so sorting state that is already sorted changes nothing. */
  lemma {:induction false} SortSortedIsIdentity<T>(s: seq<T>, key: T -> int)
    requires SortedBy(s, key)
    ensures SortBy(s, key) == s
  {
    if s != [] {
      assert SortedBy(s[1..], key) by {
        forall i, j | 0 <= i < j < |s| - 1 ensures key(s[1..][i]) <= key(s[1..][j]) {
          assert s[1..][i] == s[i + 1] && s[1..][j] == s[j + 1];
        }
      }
      SortSortedIsIdentity(s[1..], key);
      assert s == [s[0]] + s[1..];
    }
  }

}
