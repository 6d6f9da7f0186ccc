/** The home page's live counters: every three seconds the lives-saved count
    may grow by one and the network load steps up or down, held within 60..85.
    The two coin flips of `Math.random()` are parameters of the tick. */
module LiveStatistics {

  const LoadMin := 60
  const LoadMax := 85

  /** `Math.min(Math.max(x, lo), hi)` */
  function Clamp(x: int, lo: int, hi: int): (r: int)
    requires lo <= hi
    ensures lo <= r <= hi
    ensures lo <= x <= hi ==> r == x
    ensures x < lo ==> r == lo
    ensures x > hi ==> r == hi
  {
    var atLeast := if x > lo then x else lo;
    if atLeast < hi then atLeast else hi
  }

  /** The load after one tick: `up` is the outcome of `Math.random() > 0.5`. */
  function NextLoad(load: int, up: bool): (r: int)
    ensures LoadMin <= r <= LoadMax
    ensures LoadMin <= load <= LoadMax ==> -1 <= r - load <= 1
  {
    Clamp(load + (if up then 1 else -1), LoadMin, LoadMax)
  }

  /** The load after a run of ticks. */
  function LoadAfter(load: int, moves: seq<bool>): int
    decreases |moves|
  {
    if moves == [] then load else LoadAfter(NextLoad(load, moves[0]), moves[1..])
  }

  /** However the coins fall, after at least one tick the load lies in 60..85,
      and from a load inside the range it stays inside it. */
  lemma {:induction false} LoadStaysInRange(load: int, moves: seq<bool>)
    requires LoadMin <= load <= LoadMax || moves != []
    ensures LoadMin <= LoadAfter(load, moves) <= LoadMax
    decreases |moves|
  {
    if moves != [] {
      LoadStaysInRange(NextLoad(load, moves[0]), moves[1..]);
    }
  }

  /** Within the range, `k` ticks move the load by at most `k`. */
  lemma {:induction false} LoadDrift(load: int, moves: seq<bool>)
    requires LoadMin <= load <= LoadMax
    ensures -|moves| <= LoadAfter(load, moves) - load <= |moves|
    decreases |moves|
  {
    if moves != [] {
      LoadDrift(NextLoad(load, moves[0]), moves[1..]);
    }
  }

  /** One more tick at the end of a run is one more step of the load. */
  lemma {:induction false} LoadAfterSnoc(load: int, moves: seq<bool>, up: bool)
    ensures LoadAfter(load, moves + [up]) == NextLoad(LoadAfter(load, moves), up)
    decreases |moves|
  {
    if moves == [] {
      assert moves + [up] == [up];
    } else {
      assert (moves + [up])[1..] == moves[1..] + [up];
      LoadAfterSnoc(NextLoad(load, moves[0]), moves[1..], up);
    }
  }

  /** The load coins of a run of ticks. */
  function Ups(flips: seq<(bool, bool)>): (ups: seq<bool>)
    ensures |ups| == |flips|
    ensures forall j :: 0 <= j < |flips| ==> ups[j] == flips[j].1
  {
    seq(|flips|, j requires 0 <= j < |flips| => flips[j].1)
  }

  /** How many ticks of a run saved one more life. */
  function Gains(flips: seq<(bool, bool)>): (n: nat)
    ensures n <= |flips|
  {
    if flips == [] then 0
    else Gains(flips[..|flips| - 1]) + (if flips[|flips| - 1].0 then 1 else 0)
  }

  class LiveStats {
    var livesSaved: int
    var networkLoad: int

    ghost predicate Valid()
      reads this
    {
      LoadMin <= networkLoad <= LoadMax && livesSaved >= 12480
    }

    constructor ()
      ensures livesSaved == 12480 && networkLoad == 64
      ensures Valid()
    {
      livesSaved, networkLoad := 12480, 64;
    }

    /** One interval tick: `gain` is `Math.floor(Math.random() * 2) == 1`. */
    method Tick(gain: bool, up: bool)
      requires Valid()
      modifies this
      ensures Valid()
      ensures livesSaved == old(livesSaved) + (if gain then 1 else 0)
      ensures networkLoad == NextLoad(old(networkLoad), up)
      ensures -1 <= networkLoad - old(networkLoad) <= 1
    {
      livesSaved := livesSaved + (if gain then 1 else 0);
      var next := networkLoad + (if up then 1 else -1);
      networkLoad := Clamp(next, LoadMin, LoadMax);
    }

    /** `k` ticks in a row, one per pair of coin flips: lives grow by the
        number of gains, the load is the run of its coins, and so it drifts by
        at most `k`. */
    method Run(flips: seq<(bool, bool)>)
      requires Valid()
      modifies this
      ensures Valid()
      ensures livesSaved == old(livesSaved) + Gains(flips)
      ensures networkLoad == LoadAfter(old(networkLoad), Ups(flips))
      ensures old(livesSaved) <= livesSaved <= old(livesSaved) + |flips|
      ensures -|flips| <= networkLoad - old(networkLoad) <= |flips|
    {
      var i := 0;
      while i < |flips|
        invariant 0 <= i <= |flips|
        invariant Valid()
        invariant livesSaved == old(livesSaved) + Gains(flips[..i])
        invariant networkLoad == LoadAfter(old(networkLoad), Ups(flips[..i]))
      {
        assert flips[..i + 1][..i] == flips[..i];
        assert Ups(flips[..i + 1]) == Ups(flips[..i]) + [flips[i].1];
        LoadAfterSnoc(old(networkLoad), Ups(flips[..i]), flips[i].1);
        Tick(flips[i].0, flips[i].1);
        i := i + 1;
      }
      assert flips[..i] == flips;
      LoadDrift(old(networkLoad), Ups(flips));
    }
  }
}
