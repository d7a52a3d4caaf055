/**
 * The dashboard's only computation: the derived center allocation.
 *
 * For every day of a demand forecast the dashboard shows how many
 * enrolment centers would be needed if each center handled `capacity`
 * enrolments: the ceiling of demand / capacity.  The allocation is the
 * forecast with that count added to each entry; the "Optimal Centers"
 * headline is the count of the first entry, or 0 when there is none.
 */
module Allocation {

  /** Capacity of one center (enrolments per center); the slider never gives 0. */
  type Capacity = c: int | c > 0 witness 500

  /** The backend labels a forecast day either by name or by number. */
  datatype Day = Named(name: string) | Numbered(index: int)

  /** One entry of the forecast, as received from the backend. */
  datatype ForecastEntry = ForecastEntry(day: Day, demand: nat)

  /** One entry of the allocation: the forecast entry's fields plus the center count. */
  datatype AllocEntry = AllocEntry(day: Day, demand: nat, centers: nat)

  /** n centers of `capacity` cover `demand`, and n - 1 centers would not. */
  ghost predicate IsCeiling(demand: nat, capacity: Capacity, n: nat)
  {
    demand <= n * capacity && (n > 0 ==> (n - 1) * capacity < demand)
  }

  /** Number of centers needed for one day's demand: the ceiling of demand / capacity. */
  function Centers(demand: nat, capacity: Capacity): (n: nat)
    ensures IsCeiling(demand, capacity, n)
    ensures n == 0 <==> demand == 0
    ensures demand > 0 ==> n >= 1
  {
    var q, rem := demand / capacity, demand % capacity;
    assert demand == q * capacity + rem;
    if rem == 0 then q
    else
      assert (q + 1) * capacity == q * capacity + capacity;
      q + 1
  }

  /** Any count that covers the demand is at least the computed one: Centers is the least such count. */
  lemma CentersIsLeast(demand: nat, capacity: Capacity, n: nat)
    requires demand <= n * capacity
    ensures Centers(demand, capacity) <= n
  {
    var k := Centers(demand, capacity);
    if k > n {
      assert n <= k - 1;
      assert n * capacity <= (k - 1) * capacity by {
        MulMonotone(n, k - 1, capacity);
      }
    }
  }

  /** The ceiling is unique: any count meeting both bounds is the computed one. */
  lemma CeilingUnique(demand: nat, capacity: Capacity, n: nat)
    requires IsCeiling(demand, capacity, n)
    ensures n == Centers(demand, capacity)
  {
    var k := Centers(demand, capacity);
    CentersIsLeast(demand, capacity, n);
    if k < n {
      assert k <= n - 1;
      MulMonotone(k, n - 1, capacity);
    }
  }

  lemma MulMonotone(a: nat, b: nat, c: nat)
    requires a <= b
    ensures a * c <= b * c
  {
    assert b * c == a * c + (b - a) * c;
  }

  /** A larger capacity never needs more centers. */
  lemma CentersAntitone(demand: nat, small: Capacity, large: Capacity)
    requires small <= large
    ensures Centers(demand, large) <= Centers(demand, small)
  {
    var k := Centers(demand, small);
    MulMonotone(small, large, k);
    assert small * k == k * small && large * k == k * large;
    CentersIsLeast(demand, large, k);
  }

  /** A demand of exactly n full centers needs exactly n centers. */
  lemma CentersOfMultiple(n: nat, capacity: Capacity)
    ensures Centers(n * capacity, capacity) == n
  {
    if n > 0 {
      assert (n - 1) * capacity == n * capacity - capacity;
    }
    CeilingUnique(n * capacity, capacity, n);
  }

  /** One allocation entry: the forecast entry with its center count added. */
  function Annotate(e: ForecastEntry, capacity: Capacity): (a: AllocEntry)
    ensures Unannotate(a) == e
    ensures IsCeiling(e.demand, capacity, a.centers)
  {
    AllocEntry(e.day, e.demand, Centers(e.demand, capacity))
  }

  /** The forecast entry an allocation entry was derived from. */
  function Unannotate(a: AllocEntry): (e: ForecastEntry)
  {
    ForecastEntry(a.day, a.demand)
  }

  /**
   * The allocation of a whole forecast: entry by entry, in order, each
   * keeping its day and demand and gaining its center count.
   */
  function Allocate(forecast: seq<ForecastEntry>, capacity: Capacity): (alloc: seq<AllocEntry>)
    ensures |alloc| == |forecast|
    ensures forall i :: 0 <= i < |alloc| ==>
              alloc[i].day == forecast[i].day && alloc[i].demand == forecast[i].demand
    ensures forall i :: 0 <= i < |alloc| ==>
              IsCeiling(alloc[i].demand, capacity, alloc[i].centers)
  {
    if forecast == [] then []
    else [Annotate(forecast[0], capacity)] + Allocate(forecast[1..], capacity)
  }

  /** The forecast an allocation was derived from. */
  function Strip(alloc: seq<AllocEntry>): (forecast: seq<ForecastEntry>)
  {
    if alloc == [] then [] else [Unannotate(alloc[0])] + Strip(alloc[1..])
  }

  /** Each entry's count is the ceiling of its demand over the capacity, and is 0 exactly for zero demand. */
  lemma AllocationEntry(forecast: seq<ForecastEntry>, capacity: Capacity, i: nat)
    requires i < |forecast|
    ensures Allocate(forecast, capacity)[i].centers == Centers(forecast[i].demand, capacity)
    ensures Allocate(forecast, capacity)[i].centers == 0 <==> forecast[i].demand == 0
    ensures forecast[i].demand > 0 ==>
              (Allocate(forecast, capacity)[i].centers - 1) * capacity < forecast[i].demand
              <= Allocate(forecast, capacity)[i].centers * capacity
  {
    var a := Allocate(forecast, capacity)[i];
    CeilingUnique(a.demand, capacity, a.centers);
  }

  /** The allocation only adds the center counts: removing them gives back the forecast. */
  lemma {:induction false} StripAllocate(forecast: seq<ForecastEntry>, capacity: Capacity)
    ensures Strip(Allocate(forecast, capacity)) == forecast
  {
    if forecast != [] {
      var alloc := Allocate(forecast, capacity);
      assert alloc[1..] == Allocate(forecast[1..], capacity);
      StripAllocate(forecast[1..], capacity);
    }
  }

  /** The allocation works entry by entry: allocating two forecasts one after the other is allocating their concatenation. */
  lemma {:induction false} AllocateAppend(a: seq<ForecastEntry>, b: seq<ForecastEntry>, capacity: Capacity)
    ensures Allocate(a + b, capacity) == Allocate(a, capacity) + Allocate(b, capacity)
  {
    if a == [] {
      assert a + b == b;
    } else {
      var ab := a + b;
      assert ab[0] == a[0];
      assert ab[1..] == a[1..] + b;
      AllocateAppend(a[1..], b, capacity);
      calc {
        Allocate(ab, capacity);
        [Annotate(a[0], capacity)] + Allocate(a[1..] + b, capacity);
        [Annotate(a[0], capacity)] + (Allocate(a[1..], capacity) + Allocate(b, capacity));
        ([Annotate(a[0], capacity)] + Allocate(a[1..], capacity)) + Allocate(b, capacity);
        Allocate(a, capacity) + Allocate(b, capacity);
      }
    }
  }

  /** A larger capacity never needs more centers on any day. */
  lemma AllocateAntitone(forecast: seq<ForecastEntry>, small: Capacity, large: Capacity, i: nat)
    requires small <= large && i < |forecast|
    ensures Allocate(forecast, large)[i].centers <= Allocate(forecast, small)[i].centers
  {
    AllocationEntry(forecast, small, i);
    AllocationEntry(forecast, large, i);
    CentersAntitone(forecast[i].demand, small, large);
  }

  /**
   * The "Optimal Centers" headline: the first entry of the allocation's
   * count, or 0 when the allocation is empty.  That is the first day's
   * ceiling count, and it is 0 exactly when there is no first day or its
   * demand is 0.
   */
  function OptimalCenters(forecast: seq<ForecastEntry>, capacity: Capacity): (n: nat)
    ensures n == if |forecast| > 0 then Centers(forecast[0].demand, capacity) else 0
    ensures n == 0 <==> (forecast == [] || forecast[0].demand == 0)
  {
    var alloc := Allocate(forecast, capacity);
    if |alloc| > 0 then
      AllocationEntry(forecast, capacity, 0);
      alloc[0].centers
    else 0
  }

  /** Worked example: demands 1000 and 1500 need 2 and 3 centers of 500, and 4 and 6 centers of 250. */
  lemma WorkedExample()
    ensures var f := [ForecastEntry(Named("Mon"), 1000), ForecastEntry(Named("Tue"), 1500)];
            Allocate(f, 500) == [AllocEntry(Named("Mon"), 1000, 2), AllocEntry(Named("Tue"), 1500, 3)] &&
            Allocate(f, 250) == [AllocEntry(Named("Mon"), 1000, 4), AllocEntry(Named("Tue"), 1500, 6)] &&
            OptimalCenters(f, 500) == 2 && OptimalCenters(f, 250) == 4
  {
    var f := [ForecastEntry(Named("Mon"), 1000), ForecastEntry(Named("Tue"), 1500)];
    CentersOfMultiple(2, 500);
    CentersOfMultiple(3, 500);
    CentersOfMultiple(4, 250);
    CentersOfMultiple(6, 250);
    assert f[1..] == [f[1]];
    assert f[1..][1..] == [];
  }
}
