/** The admin overview's pie chart: the requests that are neither completed
    nor pending, and the slices kept for drawing. */
module AdminHome {
  import opened Js

  /** The counts of `GET /admin-stats` that the chart reads; any may be missing. */
  datatype Stats = Stats(totalRequests: Option<int>, successfulDonations: Option<int>, pendingRequests: Option<int>)

  /** `x || 0` on a count. */
  function CountOr0(x: Option<int>): int {
    if x.Some? then x.value else 0
  }

  /** `otherReqs`: requests counted in the total but neither completed nor pending. */
  function OtherRequests(s: Stats): (o: int)
    ensures o + CountOr0(s.successfulDonations) + CountOr0(s.pendingRequests) == CountOr0(s.totalRequests)
  {
    CountOr0(s.totalRequests) - CountOr0(s.successfulDonations) - CountOr0(s.pendingRequests)
  }

  datatype Slice = Slice(name: string, value: int, color: string)

  /** The slice `x` if it is kept, else nothing. */
  function Kept(x: Slice): (r: seq<Slice>)
    ensures |r| <= 1
    ensures forall i :: 0 <= i < |r| ==> r[i] == x && x.value > 0
  {
    if x.value > 0 then [x] else []
  }

  /** `[...].filter(d => d.value > 0)` */
  function Positive(slices: seq<Slice>): (r: seq<Slice>)
    ensures |r| <= |slices|
    ensures forall i :: 0 <= i < |r| ==> r[i].value > 0
    ensures forall x :: x in r <==> x in slices && x.value > 0
  {
    if slices == [] then [] else Kept(slices[0]) + Positive(slices[1..])
  }

  /** `chartData` */
  function ChartData(s: Stats): (r: seq<Slice>)
    ensures forall i :: 0 <= i < |r| ==> r[i].value > 0
    ensures |r| <= 3
  {
    var other := OtherRequests(s);
    Positive([
      Slice("Successful_Ops", CountOr0(s.successfulDonations), "#ef4444"),
      Slice("Pending_Alerts", CountOr0(s.pendingRequests), "#f59e0b"),
      Slice("Others", if other > 0 then other else 0, "#3b82f6")
    ])
  }

  /** The filter distributes over concatenation: the kept slices stay in the
      order they were given. */
  lemma {:induction false} PositiveAppend(a: seq<Slice>, b: seq<Slice>)
    ensures Positive(a + b) == Positive(a) + Positive(b)
    decreases |a|
  {
    if a == [] {
      assert a + b == b;
    } else {
      assert (a + b)[0] == a[0];
      assert (a + b)[1..] == a[1..] + b;
      PositiveAppend(a[1..], b);
    }
  }

  lemma PositiveOfOne(x: Slice)
    ensures Positive([x]) == Kept(x)
  {
    assert [x][1..] == [];
  }

  /** Filtering three slices keeps the survivors in their order. */
  lemma PositiveOfThree(x: Slice, y: Slice, z: Slice)
    ensures Positive([x, y, z]) == Kept(x) + Kept(y) + Kept(z)
  {
    var xy := [x] + [y];
    assert [x, y, z] == xy + [z];
    PositiveAppend(xy, [z]);
    PositiveAppend([x], [y]);
    PositiveOfOne(x);
    PositiveOfOne(y);
    PositiveOfOne(z);
  }

  function Sum(slices: seq<Slice>): int {
    if slices == [] then 0 else slices[0].value + Sum(slices[1..])
  }

  lemma {:induction false} SumAppend(a: seq<Slice>, b: seq<Slice>)
    ensures Sum(a + b) == Sum(a) + Sum(b)
    decreases |a|
  {
    if a == [] {
      assert a + b == b;
    } else {
      assert (a + b)[1..] == a[1..] + b;
      SumAppend(a[1..], b);
    }
  }

  function Pos(x: int): int {
    if x > 0 then x else 0
  }

  /** The slices drawn sum to the positive parts of the three counts. */
  lemma ChartSum(s: Stats)
    ensures Sum(ChartData(s)) ==
              Pos(CountOr0(s.successfulDonations)) + Pos(CountOr0(s.pendingRequests)) + Pos(OtherRequests(s))
  {
    var x := Slice("Successful_Ops", CountOr0(s.successfulDonations), "#ef4444");
    var y := Slice("Pending_Alerts", CountOr0(s.pendingRequests), "#f59e0b");
    var z := Slice("Others", Pos(OtherRequests(s)), "#3b82f6");
    PositiveOfThree(x, y, z);
    SumAppend(Kept(x) + Kept(y), Kept(z));
    SumAppend(Kept(x), Kept(y));
  }

  /** When no count is negative and the total covers the other two, the chart
      accounts for every request. */
  lemma ChartCoversTotal(s: Stats)
    requires CountOr0(s.successfulDonations) >= 0 && CountOr0(s.pendingRequests) >= 0
    requires OtherRequests(s) >= 0
    ensures Sum(ChartData(s)) == CountOr0(s.totalRequests)
  {
    ChartSum(s);
  }

  /** The slices keep the order Successful, Pending, Others, each present exactly when its value is positive. */
  lemma ChartOrder(s: Stats)
    ensures ChartData(s) ==
              Kept(Slice("Successful_Ops", CountOr0(s.successfulDonations), "#ef4444"))
            + Kept(Slice("Pending_Alerts", CountOr0(s.pendingRequests), "#f59e0b"))
            + Kept(Slice("Others", OtherRequests(s), "#3b82f6"))
  {
    var x := Slice("Successful_Ops", CountOr0(s.successfulDonations), "#ef4444");
    var y := Slice("Pending_Alerts", CountOr0(s.pendingRequests), "#f59e0b");
    var z := Slice("Others", Pos(OtherRequests(s)), "#3b82f6");
    PositiveOfThree(x, y, z);
  }
}
