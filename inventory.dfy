/** The blood-stock page: the fill level and status of each blood group, the
    lit segments of its bar, and the total over all groups. JavaScript numbers
    are modelled as reals. */
module Inventory {
  import opened Js

  /** A row of `GET /blood-stock`; `units` is what `Number(units)` reads, and
      `None` stands for a value it cannot read (NaN). */
  datatype StockItem = StockItem(group: string, units: Option<real>)

  const Critical := "CRITICAL"
  const Low := "LOW"
  const Stable := "STABLE"

  /** `Math.min((units / 20) * 100, 100)` */
  function Percentage(units: real): (p: real)
    ensures p <= 100.0
    ensures p == 100.0 <==> units >= 20.0
    ensures units <= 20.0 ==> p == units * 5.0
    ensures units >= 0.0 ==> p >= 0.0
  {
    var scaled := (units / 20.0) * 100.0;
    if scaled < 100.0 then scaled else 100.0
  }

  /** The `status` of `getStatusInfo`. */
  function Status(units: real): (s: string)
    ensures s == Critical <==> units == 0.0
    ensures s == Low <==> units != 0.0 && units < 5.0
    ensures s == Stable <==> units >= 5.0
  {
    if units == 0.0 then Critical
    else if units < 5.0 then Low
    else Stable
  }

  /** Bar segment `i` of ten is lit when `i < percentage / 10`. */
  predicate SegmentLit(units: real, i: nat) {
    (i as real) < Percentage(units) / 10.0
  }

  /** Below the cap, segment `i` is lit exactly when the stock exceeds `2i` units. */
  lemma SegmentLitMeans(units: real, i: nat)
    requires i < 10
    ensures SegmentLit(units, i) <==> 2.0 * (i as real) < units
  {
  }

  /** The number of lit segments among the first `n`. */
  function LitCount(units: real, n: nat): (c: nat)
    ensures c <= n
  {
    if n == 0 then 0 else LitCount(units, n - 1) + (if SegmentLit(units, n - 1) then 1 else 0)
  }

  /** For a whole number `u` of units, `min(ceil(u / 2), n)` of the first `n <= 10`
      segments are lit, so one segment stands for two units. */
  lemma {:induction false} LitCountOfWhole(u: nat, n: nat)
    requires n <= 10
    ensures LitCount(u as real, n) == if (u + 1) / 2 < n then (u + 1) / 2 else n
  {
    if n > 0 {
      LitCountOfWhole(u, n - 1);
      SegmentLitMeans(u as real, n - 1);
      assert SegmentLit(u as real, n - 1) <==> 2 * (n - 1) < u;
    }
  }

  /** `Number(curr.units) || 0`: NaN and zero both count as 0. */
  function UnitsOr0(x: Option<real>): (r: real)
    ensures x.None? ==> r == 0.0
    ensures x.Some? ==> r == x.value
  {
    if x.Some? && x.value != 0.0 then x.value else 0.0
  }

  /** `bloodStock.reduce((acc, curr) => acc + (Number(curr.units) || 0), acc)`: a left fold. */
  function Reduce(items: seq<StockItem>, acc: real): real {
    if items == [] then acc else Reduce(items[1..], acc + UnitsOr0(items[0].units))
  }

  /** The sum of the readable units, defined from the right. */
  function Sum(items: seq<StockItem>): real {
    if items == [] then 0.0 else Sum(items[..|items| - 1]) + UnitsOr0(items[|items| - 1].units)
  }

  lemma {:induction false} SumCons(x: StockItem, rest: seq<StockItem>)
    ensures Sum([x] + rest) == UnitsOr0(x.units) + Sum(rest)
    decreases |rest|
  {
    if rest != [] {
      var init := rest[..|rest| - 1];
      assert ([x] + rest)[..|[x] + rest| - 1] == [x] + init;
      SumCons(x, init);
    } else {
      assert ([x] + rest)[..0] == [];
    }
  }

  lemma {:induction false} ReduceIsSum(items: seq<StockItem>, acc: real)
    ensures Reduce(items, acc) == acc + Sum(items)
    decreases |items|
  {
    if items != [] {
      ReduceIsSum(items[1..], acc + UnitsOr0(items[0].units));
      assert items == [items[0]] + items[1..];
      SumCons(items[0], items[1..]);
    }
  }

  /** `totalUnits`: the sum of every readable count, unreadable ones as 0. */
  function TotalUnits(items: seq<StockItem>): (t: real)
    ensures t == Sum(items)
    ensures (forall i :: 0 <= i < |items| ==> UnitsOr0(items[i].units) >= 0.0) ==> t >= 0.0
  {
    ReduceIsSum(items, 0.0);
    SumNonNegative(items);
    Reduce(items, 0.0)
  }

  lemma {:induction false} SumNonNegative(items: seq<StockItem>)
    ensures (forall i :: 0 <= i < |items| ==> UnitsOr0(items[i].units) >= 0.0) ==> Sum(items) >= 0.0
    decreases |items|
  {
    if items != [] {
      SumNonNegative(items[..|items| - 1]);
    }
  }

  /** Adding a group adds its readable units to the total. */
  lemma TotalOfAppend(items: seq<StockItem>, x: StockItem)
    ensures TotalUnits(items + [x]) == TotalUnits(items) + UnitsOr0(x.units)
  {
    assert (items + [x])[..|items + [x]| - 1] == items;
  }
}
