/**
 * Driver matching of rides/views.py: the eligibility filter shared by
 * `book_ride_view` (auto mode) and `get_qualified_drivers_view`, and the
 * ranking by the key `(0 if AVAILABLE else 1, -average_rating)` under
 * Python's stable sort.
 */
module Matching {
  import opened Wrappers
  import opened Profiles

  type DriverId = nat
  type UserId = nat
  type CustomerId = nat
  type VehicleId = nat

  /** DriverProfile.DriverStatus. */
  datatype DriverStatus = Offline | Available | Busy

  /** A DriverProfile row as the views read it; `rating` is only ever compared. */
  datatype Driver = Driver(
    id: DriverId,
    user: UserId,
    isVerified: bool,
    licenseCategory: string,
    licenseScore: int,
    capability: Capability,
    status: DriverStatus,
    rating: real)

  /** A CustomerVehicle row. */
  datatype Vehicle = Vehicle(owner: CustomerId, transmission: Transmission, category: string, requiredScore: int)

  /** DriverProfile.save on a row: the licence score is derived again from the category. */
  function SavedDriver(d: Driver): (r: Driver)
    ensures r.licenseScore == DriverLicenseScore(d.licenseCategory)
    ensures r.(licenseScore := d.licenseScore) == d
  {
    d.(licenseScore := DriverLicenseScore(d.licenseCategory))
  }

  /** The eligibility filter: verified, score high enough, not offline, and able to drive a manual car if needed. */
  predicate Eligible(d: Driver, v: Vehicle) {
    && d.isVerified
    && d.licenseScore >= v.requiredScore
    && d.status != Offline
    && (v.transmission == Manual ==> d.capability == ManualAndAutomatic)
  }

  /** The filtered queryset, in the order the database yields the rows. */
  function Qualified(table: seq<Driver>, v: Vehicle): (r: seq<Driver>)
    ensures forall i :: 0 <= i < |r| ==> Eligible(r[i], v) && r[i] in table
    ensures forall d :: d in table && Eligible(d, v) ==> d in r
    ensures |r| <= |table|
  {
    if table == [] then []
    else if Eligible(table[0], v) then [table[0]] + Qualified(table[1..], v)
    else Qualified(table[1..], v)
  }
  /** Filtering works piece by piece, so the qualified drivers keep the order the rows come in. */
  lemma {:induction false} QualifiedAppend(a: seq<Driver>, b: seq<Driver>, v: Vehicle)
    ensures Qualified(a + b, v) == Qualified(a, v) + Qualified(b, v)
  {
    if a == [] {
      assert a + b == b;
    } else if Eligible(a[0], v) {
      calc {
        Qualified(a + b, v);
        == { assert (a + b)[0] == a[0] && (a + b)[1..] == a[1..] + b; }
        [a[0]] + Qualified(a[1..] + b, v);
        == { QualifiedAppend(a[1..], b, v); }
        [a[0]] + (Qualified(a[1..], v) + Qualified(b, v));
        ==
        ([a[0]] + Qualified(a[1..], v)) + Qualified(b, v);
      }
    } else {
      calc {
        Qualified(a + b, v);
        == { assert (a + b)[0] == a[0] && (a + b)[1..] == a[1..] + b; }
        Qualified(a[1..] + b, v);
        == { QualifiedAppend(a[1..], b, v); }
        Qualified(a[1..], v) + Qualified(b, v);
      }
    }
  }

  /** A single row passes the filter exactly when it is eligible. */
  lemma QualifiedOfOne(d: Driver, v: Vehicle)
    ensures Qualified([d], v) == if Eligible(d, v) then [d] else []
  {
    assert [d][1..] == [];
  }


  /** The sort key of a driver, as Python compares it: the status group, then the negated rating. */
  datatype Key = Key(group: int, negRating: real)

  function KeyOf(d: Driver): (k: Key) {
    Key(if d.status == Available then 0 else 1, -d.rating)
  }

  /** Lexicographic tuple order. */
  predicate KeyLe(a: Key, b: Key) {
    a.group < b.group || (a.group == b.group && a.negRating <= b.negRating)
  }

  /** Ordered by key: what `sort(key=...)` guarantees. */
  ghost predicate Ranked(s: seq<Driver>) {
    forall i, j :: 0 <= i < j < |s| ==> KeyLe(KeyOf(s[i]), KeyOf(s[j]))
  }

  /** Puts `d` before the first driver whose key is not smaller, so equal keys keep their order. */
  function Insert(d: Driver, s: seq<Driver>): (r: seq<Driver>) {
    if s == [] then [d]
    else if KeyLe(KeyOf(d), KeyOf(s[0])) then [d] + s
    else [s[0]] + Insert(d, s[1..])
  }

  /** Inserting adds exactly the one driver. */
  lemma {:induction false} InsertAddsOne(d: Driver, s: seq<Driver>)
    ensures multiset(Insert(d, s)) == multiset(s) + multiset{d}
  {
    if s != [] && !KeyLe(KeyOf(d), KeyOf(s[0])) {
      InsertAddsOne(d, s[1..]);
      assert s == [s[0]] + s[1..];
    }
  }

  lemma {:induction false} InsertMembers(d: Driver, s: seq<Driver>, x: Driver)
    ensures x in Insert(d, s) <==> x == d || x in s
  {
    if s != [] && !KeyLe(KeyOf(d), KeyOf(s[0])) {
      InsertMembers(d, s[1..], x);
      assert s == [s[0]] + s[1..];
    }
  }

  /** Inserting into a ranked list keeps it ranked. */
  lemma {:induction false} InsertKeepsRanked(d: Driver, s: seq<Driver>)
    requires Ranked(s)
    ensures Ranked(Insert(d, s))
  {
    if s != [] && !KeyLe(KeyOf(d), KeyOf(s[0])) {
      var tail := Insert(d, s[1..]);
      InsertKeepsRanked(d, s[1..]);
      var r := [s[0]] + tail;
      forall j | 0 <= j < |tail| ensures KeyLe(KeyOf(s[0]), KeyOf(tail[j])) {
        InsertMembers(d, s[1..], tail[j]);
        if tail[j] != d {
          var m :| 0 <= m < |s[1..]| && s[1..][m] == tail[j];
          assert s[m + 1] == tail[j];
        }
      }
      assert Insert(d, s) == r;
    }
  }

  /** A stable sort by key (insertion sort). */
  function Rank(s: seq<Driver>): (r: seq<Driver>)
    ensures multiset(r) == multiset(s)
    ensures Ranked(r)
  {
    if s == [] then []
    else
      assert s == [s[0]] + s[1..];
      assert multiset(s) == multiset{s[0]} + multiset(s[1..]);
      var rest := Rank(s[1..]);
      InsertAddsOne(s[0], rest);
      InsertKeepsRanked(s[0], rest);
      Insert(s[0], rest)
  }

  /** The drivers of `s` whose key is `k`, in order. */
  function WithKey(s: seq<Driver>, k: Key): (r: seq<Driver>) {
    if s == [] then []
    else if KeyOf(s[0]) == k then [s[0]] + WithKey(s[1..], k)
    else WithKey(s[1..], k)
  }

  lemma WithKeyCons(x: Driver, s: seq<Driver>, k: Key)
    ensures WithKey([x] + s, k) == (if KeyOf(x) == k then [x] else []) + WithKey(s, k)
  {
    assert ([x] + s)[1..] == s;
  }

  lemma {:induction false} InsertKeepsKeyGroups(d: Driver, s: seq<Driver>, k: Key)
    ensures WithKey(Insert(d, s), k) == (if KeyOf(d) == k then [d] else []) + WithKey(s, k)
  {
    if s == [] || KeyLe(KeyOf(d), KeyOf(s[0])) {
      WithKeyCons(d, s, k);
    } else {
      InsertKeepsKeyGroups(d, s[1..], k);
      WithKeyCons(s[0], Insert(d, s[1..]), k);
      WithKeyCons(s[0], s[1..], k);
      assert s == [s[0]] + s[1..];
    }
  }

  /** Stability: every group of equal keys comes out in its input order. */
  lemma {:induction false} RankKeepsKeyGroups(s: seq<Driver>, k: Key)
    ensures WithKey(Rank(s), k) == WithKey(s, k)
  {
    if s != [] {
      RankKeepsKeyGroups(s[1..], k);
      InsertKeepsKeyGroups(s[0], Rank(s[1..]), k);
    }
  }

  lemma {:induction false} WithKeyMembers(s: seq<Driver>, k: Key, x: Driver)
    ensures x in WithKey(s, k) <==> x in s && KeyOf(x) == k
  {
    if s != [] {
      WithKeyMembers(s[1..], k, x);
    }
  }

  lemma WithKeyOfHead(s: seq<Driver>)
    ensures s != [] ==> WithKey(s, KeyOf(s[0])) != []
  {
  }

  /**
   * Python's sort is stable, and a stable sort has only one possible outcome:
   * two ranked sequences with the same key groups are equal.
   */
  lemma {:induction false} RankedWithSameGroupsAreEqual(t: seq<Driver>, u: seq<Driver>)
    requires Ranked(t) && Ranked(u)
    requires forall k :: WithKey(t, k) == WithKey(u, k)
    ensures t == u
  {
    WithKeyOfHead(t);
    WithKeyOfHead(u);
    if t != [] && u != [] {
      var k0, k1 := KeyOf(t[0]), KeyOf(u[0]);
      assert WithKey(t, k1) == WithKey(u, k1) && WithKey(u, k1)[0] == u[0];
      WithKeyMembers(t, k1, u[0]);
      WithKeyMembers(u, k0, t[0]);
      assert KeyLe(k0, k1) by {
        var i :| 0 <= i < |t| && t[i] == u[0];
        if i > 0 { assert KeyLe(KeyOf(t[0]), KeyOf(t[i])); }
      }
      assert KeyLe(k1, k0) by {
        var i :| 0 <= i < |u| && u[i] == t[0];
        if i > 0 { assert KeyLe(KeyOf(u[0]), KeyOf(u[i])); }
      }
      assert k0 == k1;
      assert t[0] == WithKey(t, k0)[0] == WithKey(u, k0)[0] == u[0];
      forall k ensures WithKey(t[1..], k) == WithKey(u[1..], k) {
        assert WithKey(t, k) == WithKey(u, k);
        if KeyOf(t[0]) == k {
          assert WithKey(t[1..], k) == WithKey(t, k)[1..];
          assert WithKey(u[1..], k) == WithKey(u, k)[1..];
        }
      }
      RankedWithSameGroupsAreEqual(t[1..], u[1..]);
      assert t == [t[0]] + t[1..] && u == [u[0]] + u[1..];
    }
  }

  /** Rank is Python's `sorted` by that key: the one ranked permutation that keeps each key group in order. */
  lemma RankIsTheStableSort(s: seq<Driver>, t: seq<Driver>)
    requires Ranked(t) && forall k :: WithKey(t, k) == WithKey(s, k)
    ensures t == Rank(s)
  {
    forall k ensures WithKey(t, k) == WithKey(Rank(s), k) {
      RankKeepsKeyGroups(s, k);
    }
    RankedWithSameGroupsAreEqual(t, Rank(s));
  }

  /** In a ranked list every AVAILABLE driver precedes every other, and ratings do not rise within a group. */
  lemma RankedOrder(s: seq<Driver>, i: nat, j: nat)
    requires Ranked(s) && i < j < |s|
    ensures s[j].status == Available ==> s[i].status == Available
    ensures (s[i].status == Available) == (s[j].status == Available) ==> s[i].rating >= s[j].rating
  {
    assert KeyLe(KeyOf(s[i]), KeyOf(s[j]));
  }

  /** Auto mode's choice: the head of the ranked qualified drivers, if any. */
  function BestDriver(table: seq<Driver>, v: Vehicle): (r: Option<Driver>)
    ensures r.None? <==> forall d :: d in table ==> !Eligible(d, v)
    ensures r.Some? ==> r.value in table && Eligible(r.value, v)
  {
    var ranked := Rank(Qualified(table, v));
    if ranked == [] then
      assert forall d :: d in table && Eligible(d, v) ==> d in multiset(ranked);
      None
    else
      assert ranked[0] in multiset(Qualified(table, v));
      Some(ranked[0])
  }

  /**
   * The auto-selected driver outranks or ties every eligible driver, and
   * among the eligible drivers with its key it is the first in the order the rows are yielded.
   */
  lemma BestDriverIsBest(table: seq<Driver>, v: Vehicle)
    requires BestDriver(table, v).Some?
    ensures var b := BestDriver(table, v).value;
      && (forall d :: d in table && Eligible(d, v) ==> KeyLe(KeyOf(b), KeyOf(d)))
      && WithKey(Qualified(table, v), KeyOf(b)) != []
      && WithKey(Qualified(table, v), KeyOf(b))[0] == b
  {
    var q := Qualified(table, v);
    var ranked := Rank(q);
    var b := ranked[0];
    forall d | d in table && Eligible(d, v) ensures KeyLe(KeyOf(b), KeyOf(d)) {
      assert d in multiset(ranked);
      var i :| 0 <= i < |ranked| && ranked[i] == d;
      if i > 0 { assert KeyLe(KeyOf(ranked[0]), KeyOf(ranked[i])); }
    }
    RankKeepsKeyGroups(q, KeyOf(b));
    assert WithKey(ranked, KeyOf(b))[0] == b;
  }

  /** Why get_qualified_drivers_view answers without a list. */
  datatype LookupError = VehicleIdRequired | NoCustomerProfile | VehicleNotFound

  /**
   * get_qualified_drivers_view: looks up the caller's vehicle, collects the
   * qualified drivers one by one, then sorts the list by the ranking key.
   */
  method QualifiedDriversFor(
    table: seq<Driver>, vehicles: map<VehicleId, Vehicle>,
    vehicleId: Option<VehicleId>, customer: Option<CustomerId>)
    returns (r: Result<seq<Driver>, LookupError>)
    ensures vehicleId.None? ==> r == Err(VehicleIdRequired)
    ensures vehicleId.Some? && customer.None? ==> r == Err(NoCustomerProfile)
    ensures vehicleId.Some? && customer.Some? &&
      !(vehicleId.value in vehicles && vehicles[vehicleId.value].owner == customer.value)
      ==> r == Err(VehicleNotFound)
    ensures vehicleId.Some? && customer.Some? ==>
      (r.Err? <==> !(vehicleId.value in vehicles && vehicles[vehicleId.value].owner == customer.value))
    ensures r.Ok? ==> vehicleId.Some? && vehicleId.value in vehicles
    ensures r.Ok? ==> var v := vehicles[vehicleId.value];
      && Ranked(r.value)
      && (forall d :: d in r.value <==> d in table && Eligible(d, v))
      && multiset(r.value) == multiset(Qualified(table, v))
      && (forall k :: WithKey(r.value, k) == WithKey(Qualified(table, v), k))
  {
    if vehicleId.None? {
      return Err(VehicleIdRequired);
    }
    if customer.None? {
      return Err(NoCustomerProfile);
    }
    if !(vehicleId.value in vehicles && vehicles[vehicleId.value].owner == customer.value) {
      return Err(VehicleNotFound);
    }
    var v := vehicles[vehicleId.value];
    var drivers := Qualified(table, v);
    var list: seq<Driver> := [];
    for i := 0 to |drivers|
      invariant list == drivers[..i]
    {
      list := list + [drivers[i]];
    }
    assert list == drivers;
    list := Rank(list);
    forall k ensures WithKey(list, k) == WithKey(drivers, k) {
      RankKeepsKeyGroups(drivers, k);
    }
    forall d ensures d in list <==> d in table && Eligible(d, v) {
      assert d in list <==> d in multiset(drivers);
    }
    return Ok(list);
  }
}
