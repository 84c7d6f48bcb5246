/** The per-page asset list and the three ways the CRUD handlers change it after a
    successful request: append the created record, replace the edited record by id
    (`prev.map(t => t.id === id ? updated : t)`), and drop the deleted id
    (`prev.filter(t => t.id !== id)`). The id projection is a parameter, because the
    solar and wind records keep their id in different record types. */
module Collection {

  /** `s.filter(x => idOf(x) !== id)`. */
  function RemoveById<T, K(==)>(s: seq<T>, id: K, idOf: T -> K): (r: seq<T>)
    ensures |r| <= |s|
    ensures forall i :: 0 <= i < |r| ==> idOf(r[i]) != id
    ensures forall i :: 0 <= i < |r| ==> r[i] in s
    ensures forall i :: 0 <= i < |s| && idOf(s[i]) != id ==> s[i] in r
  {
    if s == [] then []
    else if idOf(s[0]) == id then RemoveById(s[1..], id, idOf)
    else [s[0]] + RemoveById(s[1..], id, idOf)
  }

  /** Removal works element by element, so the kept elements stay in their order:
      removing from a concatenation is concatenating the removals. */
  lemma {:induction false} RemoveByIdConcat<T, K>(a: seq<T>, b: seq<T>, id: K, idOf: T -> K)
    ensures RemoveById(a + b, id, idOf) == RemoveById(a, id, idOf) + RemoveById(b, id, idOf)
  {
    if a != [] {
      assert (a + b)[1..] == a[1..] + b;
      RemoveByIdConcat(a[1..], b, id, idOf);
    } else {
      assert a + b == b;
    }
  }

  /** Removing an id that no element carries leaves the list as it was. */
  lemma {:induction false} RemoveAbsentId<T, K>(s: seq<T>, id: K, idOf: T -> K)
    requires forall i :: 0 <= i < |s| ==> idOf(s[i]) != id
    ensures RemoveById(s, id, idOf) == s
  {
    if s != [] {
      RemoveAbsentId(s[1..], id, idOf);
    }
  }

  /** `s.map(x => idOf(x) === id ? y : x)`. */
  function ReplaceById<T, K(==)>(s: seq<T>, id: K, y: T, idOf: T -> K): (r: seq<T>)
    ensures |r| == |s|
    ensures forall i :: 0 <= i < |s| ==> r[i] == if idOf(s[i]) == id then y else s[i]
  {
    if s == [] then []
    else [if idOf(s[0]) == id then y else s[0]] + ReplaceById(s[1..], id, y, idOf)
  }

  /** No two elements share an id. */
  ghost predicate UniqueIds<T, K>(s: seq<T>, idOf: T -> K)
  {
    forall i, j :: 0 <= i < j < |s| ==> idOf(s[i]) != idOf(s[j])
  }

  /** Deleting keeps the ids of a list unique. */
  lemma {:induction false} RemoveKeepsUnique<T, K>(s: seq<T>, id: K, idOf: T -> K)
    requires UniqueIds(s, idOf)
    ensures UniqueIds(RemoveById(s, id, idOf), idOf)
  {
    if s != [] {
      var tail := s[1..];
      assert UniqueIds(tail, idOf) by {
        forall i, j | 0 <= i < j < |tail| ensures idOf(tail[i]) != idOf(tail[j]) {
          assert tail[i] == s[i + 1] && tail[j] == s[j + 1];
        }
      }
      RemoveKeepsUnique(tail, id, idOf);
      if idOf(s[0]) != id {
        var rest := RemoveById(tail, id, idOf);
        var r := [s[0]] + rest;
        forall i, j | 0 <= i < j < |r| ensures idOf(r[i]) != idOf(r[j]) {
          if i == 0 {
            assert r[j] == rest[j - 1];
            assert rest[j - 1] in tail;
            var k :| 0 <= k < |tail| && tail[k] == rest[j - 1];
            assert tail[k] == s[k + 1];
          } else {
            assert r[i] == rest[i - 1] && r[j] == rest[j - 1];
          }
        }
      }
    }
  }

  /** Appending a record whose id is new keeps the ids unique. */
  lemma AppendKeepsUnique<T, K>(s: seq<T>, y: T, idOf: T -> K)
    requires UniqueIds(s, idOf)
    requires forall i :: 0 <= i < |s| ==> idOf(s[i]) != idOf(y)
    ensures UniqueIds(s + [y], idOf)
  {
    var r := s + [y];
    forall i, j | 0 <= i < j < |r| ensures idOf(r[i]) != idOf(r[j]) {
      assert r[i] == s[i];
      if j < |s| {
        assert r[j] == s[j];
      }
    }
  }

  /** Replacing by id with a record that keeps that id keeps the ids unique, and in a
      list with unique ids it changes at most one position. */
  lemma ReplaceKeepsUnique<T, K>(s: seq<T>, id: K, y: T, idOf: T -> K)
    requires UniqueIds(s, idOf) && idOf(y) == id
    ensures UniqueIds(ReplaceById(s, id, y, idOf), idOf)
    ensures forall i, j :: 0 <= i < j < |s| && ReplaceById(s, id, y, idOf)[i] != s[i]
              ==> ReplaceById(s, id, y, idOf)[j] == s[j]
  {
    var r := ReplaceById(s, id, y, idOf);
    assert forall i :: 0 <= i < |s| ==> idOf(r[i]) == idOf(s[i]);
  }
}
