/** Planned run times against the travel they are counted as: when a planned run completes. */
module Travel {
  import opened Base
  import opened M = MotorModel

  // ----- Division facts -----

  lemma {:induction false} DivBounds(x: nat, d: nat)
    requires d > 0
    ensures x / d * d <= x < x / d * d + d
  {
  }

  lemma {:induction false} DivAtLeast(x: nat, d: nat, k: nat)
    requires d > 0 && k * d <= x
    ensures k <= x / d
  {
    DivBounds(x, d);
    if x / d < k {
      assert (x / d + 1) * d <= k * d by { MulMono(x / d + 1, k, d); }
    }
  }

  lemma {:induction false} DivBelow(x: nat, d: nat, k: nat)
    requires d > 0 && x < k * d
    ensures x / d < k
  {
    DivBounds(x, d);
    if k <= x / d {
      MulMono(k, x / d, d);
    }
  }

  lemma {:induction false} MulMono(x: int, y: int, z: nat)
    requires x <= y
    ensures x * z <= y * z
  {
  }

  // ----- What the timing record asks for -----

  /** How long the installer measured a full travel in direction `d`. */
  function TravelTime(t: LeafTiming, d: Direction): nat {
    match d
    case Opening => t.openDuration
    case Closing => t.closeDuration
  }

  /** How long a leaf is to wait before it moves in direction `d`. */
  function WaitTime(t: LeafTiming, d: Direction): nat {
    match d
    case Opening => t.openInitialDelay
    case Closing => t.closeInitialDelay
  }

  /** A full travel in whole milliseconds, at least 1. */
  function FullMs(t: LeafTiming, d: Direction): nat {
    Max(TravelTime(t, d) / 1000, 1)
  }

  /** Position units between `position` and the end in direction `d`. */
  function UnitsToGo(position: U8, d: Direction): U8 {
    match d
    case Opening => 255 - position
    case Closing => position
  }

  /** The remaining fraction of the full travel, in whole milliseconds, plus the overrun. */
  function PlannedTicks(m: MotorState, d: Direction): nat {
    1000 * (TravelTime(m.timing, d) / 1000 * UnitsToGo(m.position, d) / 255) + m.endStopOverrun
  }

  /** The planned run time is that of the timing record for the leaf's own direction, and none only at the end. */
  lemma {:induction false} RunTimeIsPlanned(m: MotorState, d: Direction)
    ensures RunTime(m, d) == if UnitsToGo(m.position, d) == 0 then None else Some(PlannedTicks(m, d))
    ensures InitialDelay(m, d) == WaitTime(m.timing, d)
  {
  }

  // ----- One episode of running -----

  /** The relay for `direction` is energized from `start` to `stop`. */
  datatype Episode = Episode(direction: Direction, start: nat, stop: nat)

  ghost predicate WellFormed(es: seq<Episode>) {
    forall i :: 0 <= i < |es| ==> es[i].start <= es[i].stop
  }

  function Run(m: MotorState, e: Episode): MotorState {
    Settled(Started(m, e.direction, e.start), e.stop)
  }

  function RunAll(m: MotorState, es: seq<Episode>): MotorState
    decreases |es|
  {
    if es == [] then m else RunAll(Run(m, es[0]), es[1..])
  }

  function OnTime(e: Episode): nat {
    Elapsed(e.start, e.stop)
  }

  lemma {:induction false} RunFields(m: MotorState, e: Episode)
    requires m.state.Idle?
    ensures Run(m, e).state.Idle?
    ensures Run(m, e).timing == m.timing && Run(m, e).endStopOverrun == m.endStopOverrun
    ensures Run(m, e).position
         == MovedBy(m.position, e.direction, Travelled(m, e.direction, OnTime(e)))
  {
  }

  // ----- Completion -----

  /** Running `elapsed` ticks carries a leaf with `remaining` units left to its end stop. */
  ghost predicate Covers(m: MotorState, d: Direction, elapsed: nat) {
    Remaining(m, d) <= Travelled(m, d, elapsed)
  }

  lemma {:induction false} CoversIff(m: MotorState, d: Direction, elapsed: nat)
    ensures Covers(m, d, elapsed) <==> Remaining(m, d) * FullMs(m.timing, d) <= Millis(elapsed) * 255
  {
    var r, f, x := Remaining(m, d), FullMs(m.timing, d), Millis(elapsed) * 255;
    if r * f <= x {
      DivAtLeast(x, f, r);
    } else {
      DivBelow(x, f, r);
    }
  }

  /** The planned run, cut short by at most `slack` ticks, reaches the end stop's estimate. */
  lemma {:induction false} PlannedRunCovers(m: MotorState, d: Direction, elapsed: nat, slack: nat)
    requires RunTime(m, d).Some?
    requires RunTime(m, d).value <= elapsed + slack
    requires TICKS_PER_MS + slack <= m.endStopOverrun
    ensures Covers(m, d, elapsed)
    ensures 1000 * Remaining(m, d) * FullMs(m.timing, d) + 255 * (m.endStopOverrun - slack - 1000) <= 255 * elapsed
  {
    var r, f := Remaining(m, d), Millis(TravelTime(m.timing, d));
    var q := f * r / 255;
    assert f * r < 255 * q + 255;
    assert 1000 * q + m.endStopOverrun <= elapsed + slack;
    assert FullMs(m.timing, d) * r <= 255 * (q + 1) by {
      if f == 0 {
        assert q == 0 && FullMs(m.timing, d) == 1;
      } else {
        assert FullMs(m.timing, d) == f;
      }
    }
    assert 1000 * (r * FullMs(m.timing, d)) == 1000 * r * FullMs(m.timing, d);
    if f == 0 {
      assert FullMs(m.timing, d) == 1;
      assert 1000 * r <= 255 * 1000;
    } else {
      assert r * f == f * r;
    }
    assert q + 1 <= Millis(elapsed);
    CoversIff(m, d, elapsed);
  }

  /** A leaf that runs its full planned time ends with its estimate exactly at the end stop. */
  lemma {:induction false} CompletedRun(m: MotorState, e: Episode, slack: nat)
    requires m.state.Idle? && e.start <= e.stop
    requires RunTime(m, e.direction).Some?
    requires RunTime(m, e.direction).value <= OnTime(e) + slack
    requires TICKS_PER_MS + slack <= m.endStopOverrun
    ensures Remaining(Run(m, e), e.direction) == 0
    ensures Run(m, e).position == if e.direction.Opening? then 255 else 0
  {
    RunFields(m, e);
    PlannedRunCovers(m, e.direction, OnTime(e), slack);
  }

  /** Whether running exactly the planned time reaches the end stop, from every start position. */
  ghost predicate AlwaysCompletes(m: MotorState, d: Direction) {
    forall p: U8 :: RunTime(m.(position := p), d).Some? ==>
      Covers(m.(position := p), d, RunTime(m.(position := p), d).value)
  }

  /**
   * The exact condition on the configured overrun: a planned run always
   * completes if and only if the overrun is at least 1 ms or the full duration
   * (in ms, and not zero) is a multiple of the 255 position units.
   */
  lemma {:induction false} CompletesIffOverrun(m: MotorState, d: Direction)
    ensures AlwaysCompletes(m, d) <==>
      (TICKS_PER_MS <= m.endStopOverrun || (TravelTime(m.timing, d) >= TICKS_PER_MS && Millis(TravelTime(m.timing, d)) % 255 == 0))
  {
    var f := Millis(TravelTime(m.timing, d));
    if TICKS_PER_MS <= m.endStopOverrun {
      forall p: U8 | RunTime(m.(position := p), d).Some?
        ensures Covers(m.(position := p), d, RunTime(m.(position := p), d).value)
      {
        PlannedRunCovers(m.(position := p), d, RunTime(m.(position := p), d).value, 0);
      }
    } else if f > 0 && f % 255 == 0 {
      forall p: U8 | RunTime(m.(position := p), d).Some?
        ensures Covers(m.(position := p), d, RunTime(m.(position := p), d).value)
      {
        ExactMultipleCovers(m.(position := p), d);
      }
    } else {
      var p: U8 := if d.Opening? then 254 else 1;
      var n := m.(position := p);
      assert Remaining(n, d) == 1;
      assert Millis(RunTime(n, d).value) == f / 255;
      CoversIff(n, d, RunTime(n, d).value);
    }
  }

  lemma {:induction false} ExactMultipleCovers(m: MotorState, d: Direction)
    requires RunTime(m, d).Some?
    requires Millis(TravelTime(m.timing, d)) > 0 && Millis(TravelTime(m.timing, d)) % 255 == 0
    ensures Covers(m, d, RunTime(m, d).value)
  {
    var r, f := Remaining(m, d), Millis(TravelTime(m.timing, d));
    var k := f / 255;
    assert f == 255 * k;
    assert f * r == 255 * (k * r) by {
      assert 255 * k * r == 255 * (k * r);
    }
    assert f * r / 255 == k * r;
    assert Millis(RunTime(m, d).value) >= k * r;
    assert r * f == f * r;
    CoversIff(m, d, RunTime(m, d).value);
  }
}
