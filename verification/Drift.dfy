/**
 * The estimate against the leaf itself. Physically a leaf moves 255 units per
 * full duration while its relay is on and is held by the two end stops; the
 * controller only knows a floor-divided, saturating byte.
 */
module Drift {
  import opened Base
  import opened M = MotorModel
  import opened T = Travel

  function Clamp(x: real): real {
    if x < 0.0 then 0.0 else if x > 255.0 then 255.0 else x
  }

  function Abs(x: real): real {
    if x < 0.0 then -x else x
  }

  /**
   * Ticks a full travel takes the leaf itself: the configured duration for its
   * direction, cut to whole milliseconds and at least 1 ms.
   */
  function FullTicks(m: MotorState, d: Direction): nat {
    TICKS_PER_MS * FullMs(m.timing, d)
  }

  function UnitsMoved(m: MotorState, d: Direction, elapsed: nat): real {
    (255 * elapsed) as real / FullTicks(m, d) as real
  }

  /** Where the leaf physically is after the episode, having been at `x`. */
  function PhysicalAfter(m: MotorState, x: real, e: Episode): real {
    var units := UnitsMoved(m, e.direction, OnTime(e));
    Clamp(if e.direction.Opening? then x + units else x - units)
  }

  function PhysicalAll(m: MotorState, x: real, es: seq<Episode>): real
    decreases |es|
  {
    if es == [] then x else PhysicalAll(Run(m, es[0]), PhysicalAfter(m, x, es[0]), es[1..])
  }

  /**
   * What the two floors of one episode cut off, in ticks of travel times 255: the
   * remainder of the unit division, and the fraction of a millisecond.
   */
  function CutOff(m: MotorState, e: Episode): nat {
    TICKS_PER_MS * (Millis(OnTime(e)) * 255 % FullMs(m.timing, e.direction)) + 255 * (OnTime(e) % TICKS_PER_MS)
  }

  /** The error one episode may add: what is cut off, in position units. */
  function Budget(m: MotorState, e: Episode): real {
    CutOff(m, e) as real / FullTicks(m, e.direction) as real
  }

  function BudgetAll(m: MotorState, es: seq<Episode>): real
    decreases |es|
  {
    if es == [] then 0.0 else Budget(m, es[0]) + BudgetAll(Run(m, es[0]), es[1..])
  }

  /** The units the division yields, before they are capped. */
  function UnitsCounted(m: MotorState, e: Episode): nat {
    Millis(OnTime(e)) * 255 / FullMs(m.timing, e.direction)
  }

  lemma {:induction false} SplitQuotient(x: nat, y: nat, whole: nat, rest: nat)
    requires y > 0 && x == whole * y + rest
    ensures x as real / y as real == whole as real + rest as real / y as real
  {
    var q, p := x as real / y as real, rest as real / y as real;
    assert q * y as real == x as real && p * y as real == rest as real;
    assert (whole * y) as real == whole as real * y as real;
    var gap := q - whole as real - p;
    assert gap * y as real == 0.0;
    ScaledSign(gap, y as real);
    ScaledSign(-gap, y as real);
  }

  lemma {:induction false} FloorArithmetic(on: nat, ms: nat, frac: nat, d: nat, u: nat, rest: nat)
    requires on == 1000 * ms + frac && ms * 255 == u * d + rest
    ensures 255 * on == u * (1000 * d) + (1000 * rest + 255 * frac)
  {
    assert u * (1000 * d) == 1000 * (u * d);
  }

  /** The division of `on` ticks into units, for a travel of `d` ms: counted units, and the rest as a fraction. */
  lemma {:induction false} FloorOfTicks(on: nat, d: nat)
    requires d > 0
    ensures var ms := on / 1000;
      var cut := 1000 * (ms * 255 % d) + 255 * (on % 1000);
      && (255 * on) as real / (1000 * d) as real == (ms * 255 / d) as real + cut as real / (1000 * d) as real
      && 0.0 <= cut as real / (1000 * d) as real
  {
    var ms := on / 1000;
    var u, rest := ms * 255 / d, ms * 255 % d;
    var cut := 1000 * rest + 255 * (on % 1000);
    FloorArithmetic(on, ms, on % 1000, d, u, rest);
    SplitQuotient(255 * on, 1000 * d, u, cut);
    Proper(cut, 1000 * d);
  }

  /** The true distance is the units counted plus exactly what was cut off. */
  lemma {:induction false} FloorError(m: MotorState, e: Episode)
    ensures UnitsMoved(m, e.direction, OnTime(e)) == UnitsCounted(m, e) as real + Budget(m, e)
    ensures 0.0 <= Budget(m, e)
  {
    FloorOfTicks(OnTime(e), FullMs(m.timing, e.direction));
  }

  lemma {:induction false} Proper(x: nat, y: nat)
    requires y > 0
    ensures 0.0 <= x as real / y as real
    ensures x as real / y as real <= 1.0 <==> x <= y
  {
    var q := x as real / y as real;
    assert q * y as real == x as real;
    ScaledSign(q, y as real);
    assert (q - 1.0) * y as real == x as real - y as real;
    ScaledSign(q - 1.0, y as real);
  }

  lemma {:induction false} ScaledSign(x: real, y: real)
    requires 0.0 < y
    ensures 0.0 < x * y <==> 0.0 < x
    ensures 0.0 <= x * y <==> 0.0 <= x
  {
  }

  lemma {:induction false} ClampIsClose(p: real, x: real, drift: real)
    requires Abs(p - x) <= drift
    ensures Abs(Clamp(p) - Clamp(x)) <= drift
  {
  }

  /** `.min(255)` and the saturating byte operations are exactly the clamp. */
  lemma {:induction false} EstimateIsClamp(m: MotorState, e: Episode)
    requires m.state.Idle?
    ensures var u := UnitsCounted(m, e);
      Run(m, e).position as real
      == Clamp(if e.direction.Opening? then (m.position + u) as real else (m.position - u) as real)
  {
    RunFields(m, e);
  }

  lemma {:induction false} EpisodeDrift(m: MotorState, x: real, e: Episode, drift: real)
    requires m.state.Idle?
    requires Abs(m.position as real - x) <= drift
    ensures Abs(Run(m, e).position as real - PhysicalAfter(m, x, e)) <= drift + Budget(m, e)
  {
    var u := UnitsCounted(m, e);
    var exact := UnitsMoved(m, e.direction, OnTime(e));
    FloorError(m, e);
    EstimateIsClamp(m, e);
    if e.direction.Opening? {
      ClampIsClose((m.position + u) as real, x + exact, drift + Budget(m, e));
    } else {
      ClampIsClose((m.position - u) as real, x - exact, drift + Budget(m, e));
    }
  }

  /**
   * For every sequence of episodes in any mix of directions the estimate stays
   * within the summed budgets of the physical position.
   */
  lemma {:induction false} DriftBound(m: MotorState, x: real, es: seq<Episode>, drift: real)
    requires m.state.Idle?
    requires Abs(m.position as real - x) <= drift
    ensures RunAll(m, es).state.Idle?
    ensures Abs(RunAll(m, es).position as real - PhysicalAll(m, x, es)) <= drift + BudgetAll(m, es)
    decreases |es|
  {
    if es != [] {
      EpisodeDrift(m, x, es[0], drift);
      RunFields(m, es[0]);
      DriftBound(Run(m, es[0]), PhysicalAfter(m, x, es[0]), es[1..], drift + Budget(m, es[0]));
    }
  }

  // ----- When an episode costs at most one unit -----

  /**
   * A leaf with a true estimate is known to within one unit after an episode if
   * and only if it had at most one more unit to go than was counted, or no more
   * was cut off than one unit takes.
   */
  lemma {:induction false} WithinOneUnitIff(m: MotorState, e: Episode)
    requires m.state.Idle?
    ensures Abs(Run(m, e).position as real - PhysicalAfter(m, m.position as real, e)) <= 1.0 <==>
      Remaining(m, e.direction) <= UnitsCounted(m, e) + 1 || CutOff(m, e) <= FullTicks(m, e.direction)
  {
    FloorError(m, e);
    EstimateIsClamp(m, e);
    Proper(CutOff(m, e), FullTicks(m, e.direction));
    ClampGap(m.position, e.direction, UnitsCounted(m, e), Budget(m, e));
  }

  lemma {:induction false} ClampGap(p: U8, d: Direction, u: nat, cut: real)
    requires 0.0 <= cut
    ensures var left := if d.Opening? then 255 - p else p;
      var x, y := p as real + u as real, p as real - u as real;
      var gap := if d.Opening? then Abs(Clamp(x) - Clamp(x + cut)) else Abs(Clamp(y) - Clamp(y - cut));
      gap <= 1.0 <==> left <= u + 1 || cut <= 1.0
  {
  }

  /** Whole milliseconds never cut off more than a unit. */
  lemma {:induction false} WholeMillisecondsCutLittle(m: MotorState, e: Episode)
    requires OnTime(e) % TICKS_PER_MS == 0
    ensures CutOff(m, e) <= FullTicks(m, e.direction)
  {
  }

  lemma {:induction false} UnitBudgets(m: MotorState, es: seq<Episode>)
    requires m.state.Idle?
    requires forall i :: 0 <= i < |es| ==> CutOff(m, es[i]) <= FullTicks(m, es[i].direction)
    ensures BudgetAll(m, es) <= |es| as real
    decreases |es|
  {
    if es != [] {
      var n, rest := Run(m, es[0]), es[1..];
      RunFields(m, es[0]);
      forall i | 0 <= i < |rest|
        ensures CutOff(n, rest[i]) <= FullTicks(n, rest[i].direction)
      {
        assert rest[i] == es[i + 1];
      }
      UnitBudgets(n, rest);
      Proper(CutOff(m, es[0]), FullTicks(m, es[0].direction));
    }
  }

  /** n episodes that each cut off no more than one unit takes drift by at most n units from a true start. */
  lemma {:induction false} UnitDriftBound(m: MotorState, es: seq<Episode>)
    requires m.state.Idle?
    requires forall i :: 0 <= i < |es| ==> CutOff(m, es[i]) <= FullTicks(m, es[i].direction)
    ensures Abs(RunAll(m, es).position as real - PhysicalAll(m, m.position as real, es)) <= |es| as real
  {
    DriftBound(m, m.position as real, es, 0.0);
    UnitBudgets(m, es);
  }

  /** One unit and a millisecond's worth of travel: what one episode in direction `d` may cost at most. */
  function UnitAndFraction(m: MotorState, d: Direction): real {
    1.0 + 255.0 / FullMs(m.timing, d) as real
  }

  /** `n` times `unit`. */
  function Times(n: nat, unit: real): real {
    if n == 0 then 0.0 else Times(n - 1, unit) + unit
  }

  lemma {:induction false} TimesIsProduct(n: nat, unit: real)
    ensures Times(n, unit) == n as real * unit
  {
    if n > 0 {
      TimesIsProduct(n - 1, unit);
    }
  }

  lemma {:induction false} OneEpisode(m: MotorState, e: Episode, unit: real)
    requires UnitAndFraction(m, e.direction) <= unit
    ensures Budget(m, e) <= unit
  {
    CutAtMost(CutOff(m, e), FullMs(m.timing, e.direction));
  }

  lemma {:induction false} CutAtMost(cut: nat, d: nat)
    requires d > 0 && cut <= 1000 * d + 255000
    ensures cut as real / (1000 * d) as real <= 1.0 + 255.0 / d as real
  {
    var q, p, y := cut as real / (1000 * d) as real, 255.0 / d as real, (1000 * d) as real;
    assert q * y == cut as real && p * d as real == 255.0;
    assert p * y == 1000.0 * (p * d as real);
    assert cut as real <= y + 255000.0;
    var gap := q - 1.0 - p;
    assert gap * y == q * y - y - p * y;
    assert gap * y <= 0.0;
    ScaledSign(gap, y);
  }

  lemma {:induction false} BudgetAtMost(m: MotorState, es: seq<Episode>, unit: real)
    requires m.state.Idle? && UnitAndFraction(m, Opening) <= unit && UnitAndFraction(m, Closing) <= unit
    ensures BudgetAll(m, es) <= Times(|es|, unit)
    decreases |es|
  {
    if es != [] {
      RunFields(m, es[0]);
      BudgetAtMost(Run(m, es[0]), es[1..], unit);
      OneEpisode(m, es[0], unit);
    }
  }

  /** At tick resolution, n episodes drift by at most n times a unit plus a millisecond's worth of travel. */
  lemma {:induction false} TickDriftBound(m: MotorState, es: seq<Episode>, unit: real)
    requires m.state.Idle? && UnitAndFraction(m, Opening) <= unit && UnitAndFraction(m, Closing) <= unit
    ensures Abs(RunAll(m, es).position as real - PhysicalAll(m, m.position as real, es)) <= Times(|es|, unit)
  {
    DriftBound(m, m.position as real, es, 0.0);
    BudgetAtMost(m, es, unit);
  }

  /**
   * At tick resolution one unit per episode is not enough: 58.999 ms of a 15 s
   * travel count as 58 ms and no unit, while the leaf moves by more than one.
   */
  lemma {:induction false} TickDriftExceedsOneUnit(m: MotorState)
    requires m.state.Idle? && m.position == 0 && m.timing.openDuration == FromMillis(15000)
    ensures var e := Episode(Opening, 0, 58999);
      Run(m, e).position == 0 && 1.0 < PhysicalAfter(m, 0.0, e) == Budget(m, e)
  {
    var e := Episode(Opening, 0, 58999);
    RunFields(m, e);
    assert FullTicks(m, Opening) == 15000000;
    assert UnitsMoved(m, Opening, 58999) == 15044745.0 / 15000000.0;
    FloorError(m, e);
  }

  /** The overrun outlasts the rounding, the clock skew `slack` and an accumulated `drift`. */
  ghost predicate OverrunCovers(m: MotorState, d: Direction, drift: real, slack: nat) {
    && TICKS_PER_MS + slack <= m.endStopOverrun
    && drift * FullTicks(m, d) as real <= (255 * (m.endStopOverrun - slack - TICKS_PER_MS)) as real
  }

  /** A run of at least the planned time, short by at most `slack`. */
  ghost predicate RunsToEnd(m: MotorState, e: Episode, slack: nat) {
    && e.start <= e.stop && RunTime(m, e.direction).Some?
    && RunTime(m, e.direction).value <= OnTime(e) + slack
  }

  /**
   * A completed run recalibrates: if the overrun outlasts the accumulated drift,
   * the leaf itself reaches the end stop too, and estimate and leaf agree exactly.
   */
  lemma {:induction false} Recalibrates(m: MotorState, x: real, e: Episode, drift: real, slack: nat)
    requires m.state.Idle? && Abs(m.position as real - x) <= drift
    requires RunsToEnd(m, e, slack) && OverrunCovers(m, e.direction, drift, slack)
    ensures Run(m, e).position as real == PhysicalAfter(m, x, e)
    ensures PhysicalAfter(m, x, e) == if e.direction.Opening? then 255.0 else 0.0
  {
    CompletedRun(m, e, slack);
    UnitsReach(m, e, drift, slack);
    PhysicalReaches(m, x, e, drift);
  }

  /** A leaf that truly is where its estimate says is at its end stop after the planned run, and known to be. */
  lemma {:induction false} PlannedRunArrives(m: MotorState, e: Episode, slack: nat)
    requires m.state.Idle? && e.start <= e.stop && UnitsToGo(m.position, e.direction) > 0
    requires 1000 + slack <= m.endStopOverrun && PlannedTicks(m, e.direction) <= e.stop - e.start + slack
    ensures PhysicalAfter(m, m.position as real, e) == (if e.direction.Opening? then 255.0 else 0.0)
    ensures Run(m, e).position == if e.direction.Opening? then 255 else 0
  {
    RunTimeIsPlanned(m, e.direction);
    Recalibrates(m, m.position as real, e, 0.0, slack);
  }

  lemma {:induction false} UnitsReach(m: MotorState, e: Episode, drift: real, slack: nat)
    requires RunsToEnd(m, e, slack) && OverrunCovers(m, e.direction, drift, slack)
    ensures Remaining(m, e.direction) as real + drift <= UnitsMoved(m, e.direction, OnTime(e))
  {
    var r, full := Remaining(m, e.direction), FullTicks(m, e.direction);
    PlannedRunCovers(m, e.direction, OnTime(e), slack);
    assert r * full == 1000 * r * FullMs(m.timing, e.direction);
    UnitsCover(r, full, OnTime(e), 255 * (m.endStopOverrun - slack - TICKS_PER_MS), drift);
  }

  lemma {:induction false} PhysicalReaches(m: MotorState, x: real, e: Episode, drift: real)
    requires Abs(m.position as real - x) <= drift
    requires Remaining(m, e.direction) as real + drift <= UnitsMoved(m, e.direction, OnTime(e))
    ensures PhysicalAfter(m, x, e) == if e.direction.Opening? then 255.0 else 0.0
  {
  }

  lemma {:induction false} UnitsCover(r: nat, full: nat, on: nat, spare: nat, drift: real)
    requires full > 0 && r * full + spare <= 255 * on
    requires drift * full as real <= spare as real
    ensures r as real + drift <= (255 * on) as real / full as real
  {
    var y, need, units := full as real, r as real + drift, (255 * on) as real / full as real;
    assert units * y == (255 * on) as real;
    assert (r * full) as real == r as real * y;
    assert need * y == (r * full) as real + drift * y;
    if units < need {
      assert 0.0 < (need - units) * y;
    }
  }

  /**
   * Any number of interrupted episodes followed by one completed run leaves no
   * drift at all, as long as their budgets fit into the overrun.
   */
  lemma {:induction false} InterruptionsThenRecalibration(m: MotorState, es: seq<Episode>, last: Episode, slack: nat)
    requires m.state.Idle? && RunsToEnd(RunAll(m, es), last, slack)
    requires OverrunCovers(RunAll(m, es), last.direction, BudgetAll(m, es), slack)
    ensures var n, x := RunAll(m, es), PhysicalAll(m, m.position as real, es);
      && Run(n, last).position as real == PhysicalAfter(n, x, last)
      && PhysicalAfter(n, x, last) == if last.direction.Opening? then 255.0 else 0.0
  {
    DriftBound(m, m.position as real, es, 0.0);
    Recalibrates(RunAll(m, es), PhysicalAll(m, m.position as real, es), last, BudgetAll(m, es), slack);
  }

  lemma {:induction false} RunAllFields(m: MotorState, es: seq<Episode>)
    requires m.state.Idle?
    ensures RunAll(m, es).timing == m.timing && RunAll(m, es).endStopOverrun == m.endStopOverrun
    decreases |es|
  {
    if es != [] {
      RunFields(m, es[0]);
      RunAllFields(Run(m, es[0]), es[1..]);
    }
  }

  /**
   * With the installation's 15 s travel and 1 s overrun, up to 16 interruptions
   * in any directions are forgotten by the next completed run, even with a
   * clock skew of 40 ms.
   */
  lemma {:induction false} SixteenInterruptionsAreForgotten(m: MotorState, es: seq<Episode>, last: Episode, slack: nat)
    requires m.state.Idle? && slack <= FromMillis(40)
    requires m.timing.openDuration == FromMillis(15000) == m.timing.closeDuration
    requires m.endStopOverrun == FromMillis(1000) && |es| <= 16
    requires RunsToEnd(RunAll(m, es), last, slack)
    ensures var n := RunAll(m, es);
      Run(n, last).position as real == PhysicalAfter(n, PhysicalAll(m, m.position as real, es), last)
  {
    var n := RunAll(m, es);
    RunAllFields(m, es);
    assert FullMs(m.timing, Opening) == 15000 == FullMs(m.timing, Closing);
    assert UnitAndFraction(m, Opening) == 1.017 == UnitAndFraction(m, Closing);
    BudgetAtMost(m, es, 1.017);
    TimesIsProduct(|es|, 1.017);
    assert |es| as real * 1.017 <= 16.272;
    assert FullTicks(n, last.direction) == 15000000;
    assert BudgetAll(m, es) * 15000000.0 <= 16.272 * 15000000.0;
    InterruptionsThenRecalibration(m, es, last, slack);
  }

  // ----- Drift over a whole life -----

  /** What is left of a drift of at most `drift` after one more episode. */
  ghost function DriftAfter(m: MotorState, e: Episode, drift: real, slack: nat): real {
    if RunsToEnd(m, e, slack) && OverrunCovers(m, e.direction, drift, slack) then 0.0 else drift + Budget(m, e)
  }

  ghost function DriftLeft(m: MotorState, es: seq<Episode>, drift: real, slack: nat): real
    decreases |es|
  {
    if es == [] then drift else DriftLeft(Run(m, es[0]), es[1..], DriftAfter(m, es[0], drift, slack), slack)
  }

  lemma {:induction false} DriftAfterBound(m: MotorState, x: real, e: Episode, drift: real, slack: nat)
    requires m.state.Idle? && Abs(m.position as real - x) <= drift
    ensures Abs(Run(m, e).position as real - PhysicalAfter(m, x, e)) <= DriftAfter(m, e, drift, slack)
  {
    if RunsToEnd(m, e, slack) && OverrunCovers(m, e.direction, drift, slack) {
      Recalibrates(m, x, e, drift, slack);
    } else {
      EpisodeDrift(m, x, e, drift);
    }
  }

  /** For every sequence of episodes, only what has been cut off since the last covered completed run counts. */
  lemma {:induction false} LifetimeDriftBound(m: MotorState, x: real, es: seq<Episode>, drift: real, slack: nat)
    requires m.state.Idle? && Abs(m.position as real - x) <= drift
    ensures Abs(RunAll(m, es).position as real - PhysicalAll(m, x, es)) <= DriftLeft(m, es, drift, slack)
    decreases |es|
  {
    if es != [] {
      DriftAfterBound(m, x, es[0], drift, slack);
      RunFields(m, es[0]);
      LifetimeDriftBound(Run(m, es[0]), PhysicalAfter(m, x, es[0]), es[1..], DriftAfter(m, es[0], drift, slack), slack);
    }
  }

  lemma {:induction false} DriftLeftAtMost(m: MotorState, es: seq<Episode>, drift: real, slack: nat)
    requires 0.0 <= drift
    ensures 0.0 <= DriftLeft(m, es, drift, slack) <= drift + BudgetAll(m, es)
    decreases |es|
  {
    if es != [] {
      FloorError(m, es[0]);
      DriftLeftAtMost(Run(m, es[0]), es[1..], DriftAfter(m, es[0], drift, slack), slack);
    }
  }

  lemma {:induction false} DriftLeftSplit(m: MotorState, xs: seq<Episode>, ys: seq<Episode>, drift: real, slack: nat)
    ensures DriftLeft(m, xs + ys, drift, slack) == DriftLeft(RunAll(m, xs), ys, DriftLeft(m, xs, drift, slack), slack)
    decreases |xs|
  {
    if xs == [] {
      assert xs + ys == ys;
    } else {
      assert (xs + ys)[0] == xs[0] && (xs + ys)[1..] == xs[1..] + ys;
      DriftLeftSplit(Run(m, xs[0]), xs[1..], ys, DriftAfter(m, xs[0], drift, slack), slack);
    }
  }

  /** A completed run whose overrun covers the drift so far wipes it out: what came before no longer matters. */
  lemma {:induction false} CompletedRunRestartsDrift(m: MotorState, es: seq<Episode>, e: Episode, later: seq<Episode>, drift: real, slack: nat)
    requires RunsToEnd(RunAll(m, es), e, slack)
    requires OverrunCovers(RunAll(m, es), e.direction, DriftLeft(m, es, drift, slack), slack)
    ensures DriftLeft(m, es + ([e] + later), drift, slack) == DriftLeft(Run(RunAll(m, es), e), later, 0.0, slack)
  {
    DriftLeftSplit(m, es, [e] + later, drift, slack);
    assert ([e] + later)[1..] == later;
  }

  // ----- The installation over a whole life -----

  ghost predicate InstalledTravel(m: MotorState) {
    && m.timing.openDuration == FromMillis(15000) == m.timing.closeDuration
    && m.endStopOverrun == FromMillis(1000)
  }

  /** How many episodes lie after the last completed run, `n` of them before `es`. */
  ghost function Uncompleted(m: MotorState, es: seq<Episode>, n: nat, slack: nat): nat
    decreases |es|
  {
    if es == [] then n
    else Uncompleted(Run(m, es[0]), es[1..], if RunsToEnd(m, es[0], slack) then 0 else n + 1, slack)
  }

  /** No more than 16 episodes in a row go by without a completed run. */
  ghost predicate CompletesOften(m: MotorState, es: seq<Episode>, n: nat, slack: nat)
    decreases |es|
  {
    n <= 16 &&
    (es == [] || CompletesOften(Run(m, es[0]), es[1..], if RunsToEnd(m, es[0], slack) then 0 else n + 1, slack))
  }

  lemma {:induction false} InstalledEpisode(m: MotorState, x: real, e: Episode, n: nat, slack: nat)
    requires m.state.Idle? && InstalledTravel(m) && slack <= FromMillis(40) && n <= 16
    requires Abs(m.position as real - x) <= n as real * 1.017
    ensures Abs(Run(m, e).position as real - PhysicalAfter(m, x, e))
         <= (if RunsToEnd(m, e, slack) then 0.0 else (n + 1) as real * 1.017)
  {
    if RunsToEnd(m, e, slack) {
      assert FullTicks(m, e.direction) == 15000000;
      Recalibrates(m, x, e, n as real * 1.017, slack);
    } else {
      EpisodeDrift(m, x, e, n as real * 1.017);
      assert UnitAndFraction(m, e.direction) == 1.017;
      OneEpisode(m, e, 1.017);
    }
  }

  /**
   * With the installed timing the drift never builds up: over a life of any
   * length in which at most 16 episodes at a time go by without a completed run,
   * each of those costs at most 1.017 units and nothing older counts.
   */
  lemma {:induction false} InstalledDriftStaysSmall(m: MotorState, x: real, es: seq<Episode>, n: nat, slack: nat)
    requires m.state.Idle? && InstalledTravel(m) && slack <= FromMillis(40)
    requires Abs(m.position as real - x) <= n as real * 1.017
    requires CompletesOften(m, es, n, slack)
    ensures Uncompleted(m, es, n, slack) <= 16
    ensures Abs(RunAll(m, es).position as real - PhysicalAll(m, x, es)) <= Uncompleted(m, es, n, slack) as real * 1.017
    decreases |es|
  {
    if es != [] {
      InstalledEpisode(m, x, es[0], n, slack);
      RunFields(m, es[0]);
      InstalledDriftStaysSmall(Run(m, es[0]), PhysicalAfter(m, x, es[0]), es[1..],
                               if RunsToEnd(m, es[0], slack) then 0 else n + 1, slack);
    }
  }

  // ----- Conservation of relay-on time -----

  function OnTimeAll(es: seq<Episode>): nat {
    if es == [] then 0 else OnTime(es[0]) + OnTimeAll(es[1..])
  }

  /** One position unit's travel time rounded up to a millisecond, plus a fraction of a millisecond. */
  function UnitTicks(m: MotorState, d: Direction): nat {
    FromMillis((FullMs(m.timing, d) + 254) / 255) + (TICKS_PER_MS - 1)
  }

  /** `f` full ms, `r` units left, `u` of them travelled in `ms` by floor division. */
  lemma {:induction false} InterruptionArithmetic(f: nat, ms: nat, r: nat, u: nat)
    requires u < r <= 255
    requires u * Max(f, 1) <= ms * 255 < u * Max(f, 1) + Max(f, 1)
    ensures f * r / 255 <= f * (r - u) / 255 + ms <= f * r / 255 + (Max(f, 1) + 254) / 255
  {
    if f == 0 {
      assert ms == 0;
    } else {
      assert f * r == f * (r - u) + u * f;
    }
  }

  lemma {:induction false} InterruptedOnce(m: MotorState, e: Episode)
    requires m.state.Idle?
    requires Remaining(Run(m, e), e.direction) > 0
    ensures Remaining(m, e.direction) > 0
    ensures var before := RunTime(m, e.direction).value;
      var after := RunTime(Run(m, e), e.direction).value;
      before <= OnTime(e) + after <= before + UnitTicks(m, e.direction)
  {
    RunFields(m, e);
    var d := e.direction;
    var f, ms := Millis(TravelTime(m.timing, d)), Millis(OnTime(e));
    var u, r := ms * 255 / FullMs(m.timing, d), Remaining(m, d);
    DivBounds(ms * 255, FullMs(m.timing, d));
    assert u < r && Remaining(Run(m, e), d) == r - u;
    InterruptionArithmetic(f, ms, r, u);
    RunTimeTicks(m, d);
    RunTimeTicks(Run(m, e), d);
  }

  lemma {:induction false} RunTimeTicks(m: MotorState, d: Direction)
    requires Remaining(m, d) > 0
    ensures RunTime(m, d).value
         == 1000 * (Millis(TravelTime(m.timing, d)) * Remaining(m, d) / 255) + m.endStopOverrun
  {
  }

  lemma {:induction false} OneMore(n: nat, unit: nat)
    ensures (n + 1) * unit == n * unit + unit
  {
  }

  /**
   * Stopping and resuming in the same direction any number of times: the total
   * relay-on time, with the final completed run, is at least the uninterrupted
   * run time and exceeds it by at most one rounded-up unit per interruption.
   */
  lemma {:induction false} InterruptionConservesTravelTime(m: MotorState, d: Direction, es: seq<Episode>)
    requires m.state.Idle?
    requires forall i :: 0 <= i < |es| ==> es[i].direction == d
    requires Remaining(RunAll(m, es), d) > 0
    ensures Remaining(m, d) > 0
    ensures var planned := RunTime(m, d).value;
      var total := OnTimeAll(es) + RunTime(RunAll(m, es), d).value;
      planned <= total <= planned + |es| * UnitTicks(m, d)
    decreases |es|
  {
    if es != [] {
      var n := Run(m, es[0]);
      RunFields(m, es[0]);
      InterruptionConservesTravelTime(n, d, es[1..]);
      InterruptedOnce(m, es[0]);
      assert UnitTicks(n, d) == UnitTicks(m, d);
      OneMore(|es| - 1, UnitTicks(m, d));
    }
  }
}
