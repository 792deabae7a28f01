// The cycle supervisor: a leaky bucket that counts overruns and a deadline that
// rebases itself on every overrun. Both are stated here as recursions over the clock
// readings of a run, as the loop computes them, and then in closed form.
module Supervisor {
  const MAX_FAIL: nat := 100

  // cycleTime is positive: with cycle time 0 the loop does not look at the clock.
  datatype Config = Config(cycleTime: nat, noFail: bool)
  datatype State = State(fail: nat, deadline: int)

  predicate Late(c: Config, s: State, now: int) {
    now > s.deadline + c.cycleTime
  }

  // One pass through the timing block, when the loop goes on.
  function Step(c: Config, s: State, now: int): State {
    if Late(c, s, now) then State(if c.noFail then s.fail else s.fail + 10, now)
    else State(if s.fail > 0 then s.fail - 1 else 0, s.deadline + c.cycleTime)
  }

  // The state after the first k clock readings of a run that began at `start`.
  function After(c: Config, start: int, clock: seq<int>, k: nat): State
    requires k <= |clock|
  {
    if k == 0 then State(0, start) else Step(c, After(c, start, clock, k - 1), clock[k - 1])
  }

  // Readings still to come do not matter.
  lemma {:induction false} AfterPrefix(c: Config, start: int, clock: seq<int>, more: seq<int>, k: nat)
    requires k <= |clock|
    ensures After(c, start, clock + more, k) == After(c, start, clock, k)
  {
    if k > 0 { AfterPrefix(c, start, clock, more, k - 1); }
  }

  predicate Overrun(c: Config, start: int, clock: seq<int>, j: nat)
    requires j < |clock|
  {
    Late(c, After(c, start, clock, j), clock[j])
  }

  // An overrun is a reading past its deadline, and one more reading either crosses its
  // deadline and becomes the next, or leaves it a cycle time later.
  lemma OverrunMeans(c: Config, start: int, clock: seq<int>, j: nat)
    requires j < |clock|
    ensures var due := Deadline(c, start, clock, j) + c.cycleTime;
      && (Overrun(c, start, clock, j) <==> clock[j] > due)
      && Deadline(c, start, clock, j + 1) == if clock[j] > due then clock[j] else due
  {
  }

  // ----- the bucket ----------------------------------------------------------------

  // Overruns among readings i..k-1.
  function Overruns(c: Config, start: int, clock: seq<int>, i: nat, k: nat): nat
    requires i <= k <= |clock|
    decreases k
  {
    if i == k then 0
    else Overruns(c, start, clock, i, k - 1) + if Overrun(c, start, clock, k - 1) then 1 else 0
  }

  // Ten for each overrun of the window i..k-1, less one for each cycle in time.
  function Weight(c: Config, start: int, clock: seq<int>, i: nat, k: nat): int
    requires i <= k <= |clock|
  {
    var n := Overruns(c, start, clock, i, k);
    10 * n - (k - i - n)
  }

  function Fail(c: Config, start: int, clock: seq<int>, k: nat): nat
    requires k <= |clock|
  {
    After(c, start, clock, k).fail
  }

  // The counter is the largest weight of any window that ends now.
  lemma {:induction false} FailIsMaxWeight(c: Config, start: int, clock: seq<int>, k: nat)
    requires !c.noFail && k <= |clock|
    ensures forall i :: 0 <= i <= k ==> Weight(c, start, clock, i, k) <= Fail(c, start, clock, k)
    ensures exists i :: 0 <= i <= k && Weight(c, start, clock, i, k) == Fail(c, start, clock, k)
  {
    assert Weight(c, start, clock, k, k) == 0;
    if k > 0 {
      FailIsMaxWeight(c, start, clock, k - 1);
      var step := if Overrun(c, start, clock, k - 1) then 10 else -1;
      forall i | 0 <= i < k
        ensures Weight(c, start, clock, i, k) == Weight(c, start, clock, i, k - 1) + step
      {
      }
      var best :| 0 <= best <= k - 1 && Weight(c, start, clock, best, k - 1) == Fail(c, start, clock, k - 1);
      assert Weight(c, start, clock, best, k) == Fail(c, start, clock, k - 1) + step;
    }
  }

  // The window i..k-1 holds E overruns in n cycles with 11 E - n > 100.
  predicate Heavy(c: Config, start: int, clock: seq<int>, i: nat, k: nat)
    requires i <= k <= |clock|
  {
    11 * Overruns(c, start, clock, i, k) - (k - i) > 100
  }

  // The supervisor has to stop the loop now exactly when a window that ends now is heavy.
  lemma TripsIffHeavyWindow(c: Config, start: int, clock: seq<int>, k: nat)
    requires !c.noFail && k <= |clock|
    ensures Fail(c, start, clock, k) > 100 <==> exists i :: 0 <= i <= k && Heavy(c, start, clock, i, k)
  {
    FailIsMaxWeight(c, start, clock, k);
    if Fail(c, start, clock, k) > 100 {
      var i :| 0 <= i <= k && Weight(c, start, clock, i, k) == Fail(c, start, clock, k);
      assert Heavy(c, start, clock, i, k);
    }
    forall i | 0 <= i <= k && Heavy(c, start, clock, i, k)
      ensures Fail(c, start, clock, k) > 100
    {
      assert Weight(c, start, clock, i, k) > 100;
    }
  }

  lemma FailStep(c: Config, start: int, clock: seq<int>, k: nat)
    requires 0 < k <= |clock|
    ensures var before, now := Fail(c, start, clock, k - 1), Fail(c, start, clock, k);
      now == if Overrun(c, start, clock, k - 1) then (if c.noFail then before else before + 10)
             else if before > 0 then before - 1 else 0
  {
    assert After(c, start, clock, k) == Step(c, After(c, start, clock, k - 1), clock[k - 1]);
  }

  // The counter crosses the limit only in an overrun, which is where the loop looks at it.
  lemma CrossesInOverrun(c: Config, start: int, clock: seq<int>, k: nat)
    requires 0 < k <= |clock|
    requires Fail(c, start, clock, k - 1) <= 100 < Fail(c, start, clock, k)
    ensures !c.noFail && Overrun(c, start, clock, k - 1)
  {
    FailStep(c, start, clock, k);
  }

  lemma {:induction false} NoFailStaysZero(c: Config, start: int, clock: seq<int>, k: nat)
    requires c.noFail && k <= |clock|
    ensures Fail(c, start, clock, k) == 0
  {
    if k > 0 {
      NoFailStaysZero(c, start, clock, k - 1);
      FailStep(c, start, clock, k);
    }
  }

  // m overruns in a row, from any level, add exactly ten each: the eleventh in a row
  // is always over the limit, and from level 0 no earlier one is.
  lemma {:induction false} BurstAdds(c: Config, start: int, clock: seq<int>, i: nat, m: nat)
    requires !c.noFail && i + m <= |clock|
    requires forall j :: i <= j < i + m ==> Overrun(c, start, clock, j)
    ensures Fail(c, start, clock, i + m) == Fail(c, start, clock, i) + 10 * m
    ensures m >= 11 ==> Fail(c, start, clock, i + m) > 100
    ensures m <= 10 && Fail(c, start, clock, i) == 0 ==> Fail(c, start, clock, i + m) <= 100
  {
    if m > 0 {
      BurstAdds(c, start, clock, i, m - 1);
      FailStep(c, start, clock, i + m);
    }
  }

  // ----- sporadic overruns -----------------------------------------------------------

  // Any eleven consecutive cycles among the first k hold at most one overrun.
  ghost predicate Sporadic(c: Config, start: int, clock: seq<int>, k: nat)
    requires k <= |clock|
  {
    forall i, j :: 0 <= i < j < k && Overrun(c, start, clock, i) && Overrun(c, start, clock, j) ==> j - i > 10
  }

  // While overruns have been sporadic, a positive level is what one recent overrun left.
  lemma {:induction false} SporadicLevel(c: Config, start: int, clock: seq<int>, k: nat)
    requires !c.noFail && k <= |clock| && Sporadic(c, start, clock, k)
    ensures Fail(c, start, clock, k) == 0 ||
      exists i :: 0 <= i < k && Overrun(c, start, clock, i) && Fail(c, start, clock, k) <= 11 - (k - i)
  {
    if k > 0 {
      SporadicLevel(c, start, clock, k - 1);
      FailStep(c, start, clock, k);
      if Fail(c, start, clock, k - 1) > 0 {
        var i :| 0 <= i < k - 1 && Overrun(c, start, clock, i) && Fail(c, start, clock, k - 1) <= 11 - (k - 1 - i);
      }
    }
  }

  lemma {:induction false} OverrunCounted(c: Config, start: int, clock: seq<int>, i: nat, k: nat)
    requires i < k <= |clock| && Overrun(c, start, clock, i)
    ensures Overruns(c, start, clock, i, k) >= 1
    decreases k
  {
    if i < k - 1 { OverrunCounted(c, start, clock, i, k - 1); }
  }

  lemma CloseOverrunsShow(c: Config, start: int, clock: seq<int>, i: nat, j: nat)
    requires !c.noFail && i < j < |clock| && j - i <= 10
    requires Overrun(c, start, clock, i) && Overrun(c, start, clock, j)
    ensures Fail(c, start, clock, j + 1) > 10
  {
    OverrunCounted(c, start, clock, i, j);
    FailIsMaxWeight(c, start, clock, j + 1);
    assert Weight(c, start, clock, i, j + 1) >= 11;
  }

  // The counter has never been above ten exactly when no eleven consecutive cycles
  // held two overruns.
  lemma LowIffSporadic(c: Config, start: int, clock: seq<int>, k: nat)
    requires !c.noFail && k <= |clock|
    ensures (forall h :: 0 <= h <= k ==> Fail(c, start, clock, h) <= 10) <==> Sporadic(c, start, clock, k)
  {
    if Sporadic(c, start, clock, k) {
      forall h | 0 <= h <= k ensures Fail(c, start, clock, h) <= 10 {
        SporadicLevel(c, start, clock, h);
      }
    } else {
      var i, j :| 0 <= i < j < k && Overrun(c, start, clock, i) && Overrun(c, start, clock, j) && j - i <= 10;
      CloseOverrunsShow(c, start, clock, i, j);
    }
  }

  // ----- the deadline ------------------------------------------------------------------

  function Deadline(c: Config, start: int, clock: seq<int>, k: nat): int
    requires k <= |clock|
  {
    After(c, start, clock, k).deadline
  }

  // The deadlines that k cycles of length cycleTime reach when begun at `from`.
  function OnTime(c: Config, from: int, k: nat): int {
    from + k * c.cycleTime
  }

  // How far reading j lay past its deadline.
  function Excess(c: Config, start: int, clock: seq<int>, j: nat): nat
    requires j < |clock|
  {
    var due := Deadline(c, start, clock, j) + c.cycleTime;
    if clock[j] > due then clock[j] - due else 0
  }

  function TotalExcess(c: Config, start: int, clock: seq<int>, k: nat): nat
    requires k <= |clock|
  {
    if k == 0 then 0 else TotalExcess(c, start, clock, k - 1) + Excess(c, start, clock, k - 1)
  }

  lemma OnTimeStep(c: Config, from: int, k: nat)
    ensures OnTime(c, from, k + 1) == OnTime(c, from, k) + c.cycleTime
    ensures OnTime(c, from, 0) == from
  {
    assert (k + 1) * c.cycleTime == k * c.cycleTime + c.cycleTime;
  }

  // The deadline is the start, the nominal cycles, and everything ever overrun; so it
  // never comes closer than one cycle, and it has not drifted exactly while no cycle
  // was late.
  lemma {:induction false} DeadlineIsNominalPlusExcess(c: Config, start: int, clock: seq<int>, k: nat)
    requires k <= |clock|
    ensures Deadline(c, start, clock, k) == OnTime(c, start, k) + TotalExcess(c, start, clock, k)
    ensures k > 0 ==> Deadline(c, start, clock, k) >= Deadline(c, start, clock, k - 1) + c.cycleTime
    ensures Deadline(c, start, clock, k) == OnTime(c, start, k) <==>
      (forall j :: 0 <= j < k ==> !Overrun(c, start, clock, j))
  {
    if k == 0 {
      OnTimeStep(c, start, 0);
    } else {
      DeadlineIsNominalPlusExcess(c, start, clock, k - 1);
      assert Overrun(c, start, clock, k - 1) <==> Excess(c, start, clock, k - 1) > 0;
      OnTimeStep(c, start, k - 1);
    }
  }

  // It is also the latest of the nominal deadline and what each clock reading, followed
  // by nominal cycles, would give: one late cycle is forgotten by the next.
  lemma {:induction false} DeadlineIsMaximum(c: Config, start: int, clock: seq<int>, k: nat)
    requires k <= |clock|
    ensures OnTime(c, start, k) <= Deadline(c, start, clock, k)
    ensures forall j :: 0 <= j < k ==> OnTime(c, clock[j], k - 1 - j) <= Deadline(c, start, clock, k)
    ensures Deadline(c, start, clock, k) == OnTime(c, start, k) ||
      exists j :: 0 <= j < k && OnTime(c, clock[j], k - 1 - j) == Deadline(c, start, clock, k)
  {
    if k == 0 {
      OnTimeStep(c, start, 0);
    } else {
      DeadlineIsMaximum(c, start, clock, k - 1);
      OnTimeStep(c, start, k - 1);
      OnTimeStep(c, clock[k - 1], 0);
      forall j | 0 <= j < k - 1
        ensures OnTime(c, clock[j], k - 1 - j) == OnTime(c, clock[j], k - 2 - j) + c.cycleTime
      {
        OnTimeStep(c, clock[j], k - 2 - j);
      }
      var before, now := Deadline(c, start, clock, k - 1), Deadline(c, start, clock, k);
      assert now == if clock[k - 1] > before + c.cycleTime then clock[k - 1] else before + c.cycleTime;
      if now == clock[k - 1] {
        assert OnTime(c, clock[k - 1], k - 1 - (k - 1)) == now;
      } else if before != OnTime(c, start, k - 1) {
        var j :| 0 <= j < k - 1 && OnTime(c, clock[j], k - 2 - j) == before;
        assert OnTime(c, clock[j], k - 1 - j) == now;
      }
    }
  }
}
