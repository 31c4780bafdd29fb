/**
 * Specification functions over the registry's lists of cars and rentals, and
 * the facts about them that the registry's operations rely on. Rentals refer
 * to cars by reference, so two cars with the same id are still told apart.
 */
module RentalLists {
  import opened Entities

  /** How many rentals in `rs` refer to `car`. */
  function RentalCount(rs: seq<Rental>, car: Car): (n: nat)
    ensures n <= |rs|
    ensures n == 0 <==> forall i :: 0 <= i < |rs| ==> rs[i].car != car
  {
    if rs == [] then 0
    else (if rs[0].car == car then 1 else 0) + RentalCount(rs[1..], car)
  }

  /** Index of the first rental that refers to `car`, or `|rs|` when there is none. */
  function FirstRentalIndex(rs: seq<Rental>, car: Car): (k: nat)
    ensures k <= |rs|
    ensures k < |rs| ==> rs[k].car == car
    ensures forall i :: 0 <= i < k ==> rs[i].car != car
  {
    if rs == [] then 0
    else if rs[0].car == car then 0
    else 1 + FirstRentalIndex(rs[1..], car)
  }

  /** `s` without its element at index `k`, the others kept in order. */
  function RemoveAt<T>(s: seq<T>, k: nat): (r: seq<T>)
    requires k < |s|
    ensures |r| == |s| - 1
    ensures forall i :: 0 <= i < k ==> r[i] == s[i]
    ensures forall i :: k <= i < |r| ==> r[i] == s[i + 1]
    ensures multiset(r) + multiset{s[k]} == multiset(s)
  {
    assert s == s[..k] + [s[k]] + s[k + 1..];
    s[..k] + s[k + 1..]
  }

  /** Appending a rental adds one to the count of its own car and leaves every other count alone. */
  lemma {:induction false} RentalCountAppend(rs: seq<Rental>, r: Rental, car: Car)
    ensures RentalCount(rs + [r], car) == RentalCount(rs, car) + (if r.car == car then 1 else 0)
  {
    if rs != [] {
      assert (rs + [r])[1..] == rs[1..] + [r];
      RentalCountAppend(rs[1..], r, car);
    }
  }

  /** Removing one rental subtracts one from the count of its car and leaves every other count alone. */
  lemma {:induction false} RentalCountRemoveAt(rs: seq<Rental>, k: nat, car: Car)
    requires k < |rs|
    ensures RentalCount(RemoveAt(rs, k), car) == RentalCount(rs, car) - (if rs[k].car == car then 1 else 0)
  {
    if k == 0 {
      assert RemoveAt(rs, k) == rs[1..];
    } else {
      assert RemoveAt(rs, k)[1..] == RemoveAt(rs[1..], k - 1);
      RentalCountRemoveAt(rs[1..], k - 1, car);
    }
  }

  /** A rental refers to `car` exactly when the count for `car` is positive. */
  lemma FirstRentalIndexFound(rs: seq<Rental>, car: Car)
    ensures FirstRentalIndex(rs, car) < |rs| <==> RentalCount(rs, car) > 0
  {
  }

  /**
   * Renting a car that no rental refers to and then removing its first rental
   * gives back the rentals as they were.
   */
  lemma RentThenReturnRestores(rs: seq<Rental>, r: Rental)
    requires RentalCount(rs, r.car) == 0
    ensures FirstRentalIndex(rs + [r], r.car) == |rs|
    ensures RemoveAt(rs + [r], |rs|) == rs
  {
  }

  /** The menu's test for a car: its id equals `carId` and its availability is `available`. */
  predicate CarMatches(c: Car, carId: string, available: bool)
    reads c
  {
    c.carId == carId && c.isAvailable == available
  }

  /** Index of the first car in `cs` that matches, or `|cs|` when none does. */
  function FirstCarIndex(cs: seq<Car>, carId: string, available: bool): (k: nat)
    reads cs
    ensures k <= |cs|
    ensures k < |cs| ==> CarMatches(cs[k], carId, available)
    ensures forall i :: 0 <= i < k ==> !CarMatches(cs[i], carId, available)
  {
    if cs == [] then 0
    else if CarMatches(cs[0], carId, available) then 0
    else 1 + FirstCarIndex(cs[1..], carId, available)
  }

  /** The available cars of `cs`, in the order of `cs`. */
  function AvailableIn(cs: seq<Car>): (r: seq<Car>)
    reads cs
    ensures |r| <= |cs|
    ensures forall i :: 0 <= i < |r| ==> r[i] in cs && r[i].isAvailable
    ensures forall i :: 0 <= i < |cs| && cs[i].isAvailable ==> cs[i] in r
  {
    if cs == [] then []
    else (if cs[0].isAvailable then [cs[0]] else []) + AvailableIn(cs[1..])
  }

  /** Filtering a fleet with one more car at the end lists that car last, when it is available. */
  lemma {:induction false} AvailableInAppend(cs: seq<Car>, c: Car)
    ensures AvailableIn(cs + [c]) == AvailableIn(cs) + (if c.isAvailable then [c] else [])
  {
    if cs != [] {
      assert (cs + [c])[1..] == cs[1..] + [c];
      AvailableInAppend(cs[1..], c);
    }
  }

  /** When every car is available, the listing is the whole fleet. */
  lemma {:induction false} AvailableInAllAvailable(cs: seq<Car>)
    requires forall i :: 0 <= i < |cs| ==> cs[i].isAvailable
    ensures AvailableIn(cs) == cs
  {
    if cs != [] {
      AvailableInAllAvailable(cs[1..]);
    }
  }
}
