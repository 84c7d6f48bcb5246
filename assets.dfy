/** What the list and detail pages compute over assets that carry a rated power
    and a status: the total rated power of the active ones
    (`items.filter(x => x.status === "Активна").reduce((sum, x) => sum + parseFloat(x.power || 0), 0)`). */
module Assets {
  import opened Wrappers

  /** The status value that marks an asset as working. */
  const ActiveStatus: string := "Активна"

  /** `items.filter(x => statusOf(x) === "Активна")`. */
  function ActiveOnly<T>(items: seq<T>, statusOf: T -> string): (r: seq<T>)
    ensures |r| <= |items|
    ensures forall i :: 0 <= i < |r| ==> statusOf(r[i]) == ActiveStatus
  {
    if items == [] then []
    else if statusOf(items[0]) == ActiveStatus then [items[0]] + ActiveOnly(items[1..], statusOf)
    else ActiveOnly(items[1..], statusOf)
  }

  /** `items.reduce((sum, x) => sum + (powerOf(x) || 0), 0)`, summing from the left. */
  function SumPower<T>(items: seq<T>, powerOf: T -> Option<real>): real
  {
    if items == [] then 0.0
    else SumPower(items[..|items| - 1], powerOf) + OrZero(powerOf(items[|items| - 1]))
  }

  function TotalActivePower<T>(items: seq<T>, statusOf: T -> string, powerOf: T -> Option<real>): real
  {
    SumPower(ActiveOnly(items, statusOf), powerOf)
  }

  lemma {:induction false} ActiveOnlyAppend<T>(items: seq<T>, x: T, statusOf: T -> string)
    ensures ActiveOnly(items + [x], statusOf)
         == ActiveOnly(items, statusOf) + (if statusOf(x) == ActiveStatus then [x] else [])
  {
    if items == [] {
      assert items + [x] == [x];
    } else {
      assert (items + [x])[1..] == items[1..] + [x];
      ActiveOnlyAppend(items[1..], x, statusOf);
    }
  }

  lemma SumPowerAppend<T>(items: seq<T>, x: T, powerOf: T -> Option<real>)
    ensures SumPower(items + [x], powerOf) == SumPower(items, powerOf) + OrZero(powerOf(x))
  {
    assert (items + [x])[..|items + [x]| - 1] == items;
  }

  /** A new asset adds its power (a missing power counting as 0) to the total exactly
      when it is active; appending an inactive asset leaves the total as it was. */
  lemma TotalActivePowerAppend<T>(items: seq<T>, x: T, statusOf: T -> string, powerOf: T -> Option<real>)
    ensures TotalActivePower(items + [x], statusOf, powerOf)
         == TotalActivePower(items, statusOf, powerOf)
            + (if statusOf(x) == ActiveStatus then OrZero(powerOf(x)) else 0.0)
  {
    ActiveOnlyAppend(items, x, statusOf);
    if statusOf(x) == ActiveStatus {
      SumPowerAppend(ActiveOnly(items, statusOf), x, powerOf);
    } else {
      assert ActiveOnly(items, statusOf) + [] == ActiveOnly(items, statusOf);
    }
  }

  /** With no negative rated power the total is never negative. */
  lemma {:induction false} TotalActivePowerNonNegative<T>(items: seq<T>, statusOf: T -> string, powerOf: T -> Option<real>)
    requires forall i :: 0 <= i < |items| ==> OrZero(powerOf(items[i])) >= 0.0
    ensures TotalActivePower(items, statusOf, powerOf) >= 0.0
  {
    if items != [] {
      var init := items[..|items| - 1];
      var last := items[|items| - 1];
      assert items == init + [last];
      TotalActivePowerNonNegative(init, statusOf, powerOf);
      TotalActivePowerAppend(init, last, statusOf, powerOf);
    }
  }
}
