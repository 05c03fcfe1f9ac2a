/**
 * Completed runs of the gate bring a leaf and its estimate to the same end
 * exactly, whichever leaf finishes first, so that drift never builds up.
 */
module Calibration {
  import opened Base
  import opened M = MotorModel
  import opened C = ControlsModel
  import opened G = GateModel
  import opened S = SystemModel
  import opened I = GateInvariant
  import opened T = Travel
  import opened E = Drift
  import opened V = GateDrift
  import opened D = Schedule
  import O = LeafOrder

  /**
   * The leaf `m0`, known at `x` to within `drift`, has lived through `es` and then
   * the completed run `e`: if the overrun outlasts the drift left by then, leaf
   * and estimate are at the same end, and no drift is left.
   */
  ghost predicate RecalibratedBy(cfg: Config, m0: MotorState, x: real, drift: real, m': MotorState, es: seq<Episode>, e: Episode) {
    && m'.state.Idle? && Lived(m0, m', es + [e])
    && RunsToEnd(RunAll(m0, es), e, cfg.skew)
    && (OverrunCovers(RunAll(m0, es), e.direction, DriftLeft(m0, es, drift, cfg.skew), cfg.skew) ==>
          && m'.position as real == PhysicalAll(m0, x, es + [e]) == (if e.direction.Opening? then 255.0 else 0.0)
          && DriftLeft(m0, es + [e], drift, cfg.skew) == 0.0)
  }

  lemma {:induction false} CompletedEpisode(cfg: Config, m0: MotorState, x: real, drift: real, es: seq<Episode>, e: Episode)
    requires m0.state.Idle? && Abs(m0.position as real - x) <= drift
    requires WellFormed(es) && RunsToEnd(RunAll(m0, es), e, cfg.skew)
    ensures RecalibratedBy(cfg, m0, x, drift, Run(RunAll(m0, es), e), es, e)
  {
    var left := DriftLeft(m0, es, drift, cfg.skew);
    DriftBound(m0, x, es, drift);
    RunFields(RunAll(m0, es), e);
    RunAllAppend(m0, es, e);
    if OverrunCovers(RunAll(m0, es), e.direction, left, cfg.skew) {
      LifetimeDriftBound(m0, x, es, drift, cfg.skew);
      Recalibrates(RunAll(m0, es), PhysicalAll(m0, x, es), e, left, cfg.skew);
      PhysicalAppend(m0, x, es, e);
      DriftLeftSplit(m0, es, [e], drift, cfg.skew);
      assert [e][1..] == [];
    }
  }

  // ----- A leaf released in any undisturbed segment -----

  /** The leaf, running since the end of `es`, completed its run if it was released at `read`. */
  ghost predicate ReleasedAtEnd(cfg: Config, m0: MotorState, x: real, drift: real, m: MotorState, m': MotorState, es: seq<Episode>, read: nat) {
    m.state.Running? && m'.state.Idle? ==>
      RecalibratedBy(cfg, m0, x, drift, m', es, Episode(m.state.direction, m.state.since, read))
  }

  /** The three things an undisturbed segment can make of a leaf. */
  ghost predicate LeafGoesOn(m: MotorState, phase: Phase, d: Direction, now: nat, read: nat, m': MotorState) {
    var p := PollLeaf(m, phase, d, now, read);
    m' == m || m' == p.motor || (p.phase.Done? && m' == Settled(p.motor, read))
  }

  lemma {:induction false} UndisturbedLeaves(g: GateView, r: Reads)
    requires g.point.Driving? && Undisturbed(g, r)
    ensures var d, g' := g.point.direction, DrivePolled(g, r).gate;
      LeafGoesOn(g.a, g.point.a, d, r.now, r.a, g'.a) && LeafGoesOn(g.b, g.point.b, d, r.now, r.b, g'.b)
  {
    var Driving(d, a, b, moved, deadline) := g.point;
    var w := DriveWinner(g.controls, deadline, r.wake);
    if !w.Nothing? {
      RoundEnds(Woken(g, w), d, a, b, moved, r);
    }
  }

  /** Released in an undisturbed segment, a leaf has run its planned time, up to the skew. */
  lemma {:induction false} ReleasedRunsToEnd(cfg: Config, m: MotorState, phase: Phase, d: Direction, now: nat, read: nat, m': MotorState)
    requires LeafOk(cfg, m, phase, d) && ClockSane(m, now) && now <= read
    requires LeafGoesOn(m, phase, d, now, read, m') && m.state.Running? && m'.state.Idle?
    ensures m' == Settled(m, read) && m.state.direction == d && m.state.since <= read
    ensures RunTime(m, d).Some? && m.state.since + RunTime(m, d).value <= read + cfg.skew
  {
  }

  lemma {:induction false} ReleasedLeaf(cfg: Config, m0: MotorState, x: real, drift: real, m: MotorState, phase: Phase, d: Direction, es: seq<Episode>, now: nat, read: nat, m': MotorState)
    requires m0.state.Idle? && Abs(m0.position as real - x) <= drift && Lived(m0, m, es)
    requires LeafOk(cfg, m, phase, d) && ClockSane(m, now) && now <= read
    requires LeafGoesOn(m, phase, d, now, read, m')
    ensures ReleasedAtEnd(cfg, m0, x, drift, m, m', es, read)
  {
    if m.state.Running? && m'.state.Idle? {
      ReleasedRunsToEnd(cfg, m, phase, d, now, read, m');
      DriftBound(m0, x, es, drift);
      CompletedEpisode(cfg, m0, x, drift, es, Episode(d, m.state.since, read));
    }
  }

  /**
   * From any state in which no relay is on: in every run, each leaf that an
   * undisturbed segment releases - whether the movement goes on or ends with it -
   * has completed its run, and is recalibrated if the overrun outlasts the drift
   * left by then.
   */
  lemma {:induction false} ReleasedLeafRecalibrates(cfg: Config, s0: System, xa: real, xb: real, drift: real, acts: seq<Action>, r: Reads)
    returns (ea: seq<Episode>, eb: seq<Episode>)
    requires SystemOk(cfg, s0) && BothIdle(s0.gate) && KnownWithin(s0.gate, xa, xb, drift)
    requires ValidRun(cfg, s0, acts)
    requires var s := After(cfg, s0, acts);
      s.gate.point.Driving? && Enabled(cfg, s, PollGate(r)) && Undisturbed(s.gate, r)
    ensures var g0, s := s0.gate, After(cfg, s0, acts);
      var g, g' := s.gate, Step(cfg, s, PollGate(r)).gate;
      && Lived(g0.a, g.a, ea) && ReleasedAtEnd(cfg, g0.a, xa, drift, g.a, g'.a, ea, r.a)
      && Lived(g0.b, g.b, eb) && ReleasedAtEnd(cfg, g0.b, xb, drift, g.b, g'.b, eb, r.b)
  {
    var g0, g := s0.gate, After(cfg, s0, acts).gate;
    RunOk(cfg, s0, acts);
    ea, eb := RunLived(cfg, g0.a, g0.b, s0, [], [], acts);
    UndisturbedLeaves(g, r);
    var d, g' := g.point.direction, DrivePolled(g, r).gate;
    ReleasedLeaf(cfg, g0.a, xa, drift, g.a, g.point.a, d, ea, r.now, r.a, g'.a);
    ReleasedLeaf(cfg, g0.b, xb, drift, g.b, g.point.b, d, eb, r.now, r.b, g'.b);
  }

  // ----- A whole movement -----

  /** `cur` is `m` after one run in direction `d` that was not cut short. */
  ghost predicate RanToEnd(cfg: Config, m: MotorState, d: Direction, cur: MotorState, on: nat, off: nat) {
    RunsToEnd(m, Episode(d, on, off), cfg.skew) && cur == Run(m, Episode(d, on, off))
  }

  /** What an undisturbed movement in direction `d` has made of a leaf that was `m` when it began. */
  ghost predicate LeafRuns(cfg: Config, m: MotorState, d: Direction, cur: MotorState, phase: Phase) {
    if RunTime(m, d).None? then cur == m && phase.Done?
    else
      match phase
      case Waiting(_) => cur == m
      case Energized(until) =>
        && cur.state.Running? && cur == Started(m, d, cur.state.since)
        && cur.state.since + RunTime(m, d).value <= until + cfg.skew
      case Done => exists on, off :: RanToEnd(cfg, m, d, cur, on, off)
  }

  lemma {:induction false} PollLeafRuns(cfg: Config, m: MotorState, d: Direction, cur: MotorState, phase: Phase, now: nat, read: nat)
    requires m.state.Idle? && LeafRuns(cfg, m, d, cur, phase) && ClockSane(cur, now)
    requires now <= read <= now + cfg.skew
    ensures var p := PollLeaf(cur, phase, d, now, read);
      LeafRuns(cfg, m, d, p.motor, p.phase) && (p.phase.Done? ==> p.motor.state.Idle?)
  {
    var p := PollLeaf(cur, phase, d, now, read);
    if p.phase.Done? && phase.Waiting? {
      assert RanToEnd(cfg, m, d, p.motor, read, read);
    } else if p.phase.Done? && phase.Energized? {
      assert RanToEnd(cfg, m, d, p.motor, cur.state.since, read);
    }
  }

  ghost predicate GateRuns(cfg: Config, g: GateView, d: Direction, a: MotorState, b: MotorState) {
    match g.point
    case Driving(d', pa, pb, _, _) => d' == d && LeafRuns(cfg, a, d, g.a, pa) && LeafRuns(cfg, b, d, g.b, pb)
    case Resting => LeafRuns(cfg, a, d, g.a, Done) && LeafRuns(cfg, b, d, g.b, Done)
  }

  lemma {:induction false} RoundRuns(cfg: Config, g: GateView, d: Direction, a: MotorState, b: MotorState, pa: Phase, pb: Phase, moved: bool, r: Reads)
    requires a.state.Idle? && b.state.Idle? && Blocked(g.controls, d).None?
    requires LeafRuns(cfg, a, d, g.a, pa) && LeafRuns(cfg, b, d, g.b, pb)
    requires ClockSane(g.a, r.now) && ClockSane(g.b, r.now) && r.now <= r.a <= r.b <= r.now + cfg.skew
    ensures GateRuns(cfg, DriveRound(g, d, pa, pb, moved, r).gate, d, a, b)
  {
    PollLeafRuns(cfg, a, d, g.a, pa, r.now, r.a);
    PollLeafRuns(cfg, b, d, g.b, pb, r.now, r.b);
    RoundEnds(g, d, pa, pb, moved, r);
  }

  lemma {:induction false} BeginsRuns(cfg: Config, s: System, d: Direction, r: Reads)
    requires SystemOk(cfg, s) && Begins(cfg, s, d, r)
    ensures s.gate.a.state.Idle? && s.gate.b.state.Idle?
    ensures GateRuns(cfg, Step(cfg, s, PollGate(r)).gate, d, s.gate.a, s.gate.b)
  {
    var g1 := CommandTaken(s.gate);
    TakenIsExecuted(s.gate, d, r);
    RoundRuns(cfg, Notified(g1.(controls := DirectionSet(g1.controls, d))), d, g1.a, g1.b,
              Plan(g1.a, d, r.plan), Plan(g1.b, d, r.plan), false, r);
  }

  /** An undisturbed run of one movement, however late its segments. */
  ghost predicate UndisturbedRun(cfg: Config, s: System, acts: seq<Action>)
    decreases |acts|
  {
    acts == [] ||
    (&& s.gate.point.Driving? && Enabled(cfg, s, acts[0])
     && (acts[0].PollGate? ==> Undisturbed(s.gate, acts[0].readings))
     && UndisturbedRun(cfg, Step(cfg, s, acts[0]), acts[1..]))
  }

  lemma {:induction false} DrivePolledRuns(cfg: Config, g: GateView, d: Direction, a: MotorState, b: MotorState, r: Reads)
    requires a.state.Idle? && b.state.Idle? && g.point.Driving? && GateRuns(cfg, g, d, a, b)
    requires ClockSane(g.a, r.now) && ClockSane(g.b, r.now) && r.now <= r.a <= r.b <= r.now + cfg.skew
    requires Undisturbed(g, r)
    ensures GateRuns(cfg, DrivePolled(g, r).gate, d, a, b)
  {
    var w := DriveWinner(g.controls, g.point.deadline, r.wake);
    if !w.Nothing? {
      assert Blocked(Woken(g, w).controls, d) == Blocked(g.controls, d);
      RoundRuns(cfg, Woken(g, w), d, a, b, g.point.a, g.point.b, g.point.moved, r);
    }
  }

  lemma {:induction false} StepRuns(cfg: Config, s: System, d: Direction, a: MotorState, b: MotorState, act: Action)
    requires SystemOk(cfg, s) && Enabled(cfg, s, act) && a.state.Idle? && b.state.Idle?
    requires s.gate.point.Driving? && GateRuns(cfg, s.gate, d, a, b)
    requires act.PollGate? ==> Undisturbed(s.gate, act.readings)
    ensures GateRuns(cfg, Step(cfg, s, act).gate, d, a, b)
  {
    if act.PollGate? {
      DrivePolledRuns(cfg, s.gate, d, a, b, act.readings);
    } else {
      var g' := Step(cfg, s, act).gate;
      assert g'.a == s.gate.a && g'.b == s.gate.b && g'.point == s.gate.point;
    }
  }

  lemma {:induction false} RunRuns(cfg: Config, s: System, d: Direction, a: MotorState, b: MotorState, acts: seq<Action>)
    requires SystemOk(cfg, s) && a.state.Idle? && b.state.Idle? && GateRuns(cfg, s.gate, d, a, b)
    requires UndisturbedRun(cfg, s, acts) && ValidRun(cfg, s, acts)
    ensures GateRuns(cfg, After(cfg, s, acts).gate, d, a, b)
    decreases |acts|
  {
    if acts != [] {
      StepRuns(cfg, s, d, a, b, acts[0]);
      StepOk(cfg, s, acts[0]);
      RunRuns(cfg, Step(cfg, s, acts[0]), d, a, b, acts[1..]);
    }
  }

  /** A leaf `m` with history `es` had nothing to do in direction `d`, or has completed its run. */
  ghost predicate MovedToEnd(cfg: Config, m0: MotorState, x: real, drift: real, m: MotorState, m': MotorState, d: Direction, es: seq<Episode>) {
    if RunTime(m, d).None? then m' == m
    else exists e: Episode :: e.direction == d && RecalibratedBy(cfg, m0, x, drift, m', es, e)
  }

  lemma {:induction false} RunRecalibrates(cfg: Config, m0: MotorState, x: real, drift: real, m: MotorState, m': MotorState, d: Direction, es: seq<Episode>)
    requires m0.state.Idle? && Abs(m0.position as real - x) <= drift
    requires m.state.Idle? && Lived(m0, m, es) && LeafRuns(cfg, m, d, m', Done)
    ensures MovedToEnd(cfg, m0, x, drift, m, m', d, es)
  {
    if RunTime(m, d).Some? {
      var on, off :| RanToEnd(cfg, m, d, m', on, off);
      CompletedEpisode(cfg, m0, x, drift, es, Episode(d, on, off));
    }
  }

  /**
   * From any state in which no relay is on: in every run, a movement that begins
   * after `before` and then ends undisturbed has completed the run of each leaf
   * that had to move, in one episode. If the overrun outlasted the drift left
   * when the movement began, that leaf and its estimate are at the same end, and
   * the leaf starts anew without drift.
   */
  lemma {:induction false} CompletedMovementRecalibrates(cfg: Config, s0: System, xa: real, xb: real, drift: real, before: seq<Action>, d: Direction, r: Reads, acts: seq<Action>)
    returns (ea: seq<Episode>, eb: seq<Episode>)
    requires SystemOk(cfg, s0) && BothIdle(s0.gate) && KnownWithin(s0.gate, xa, xb, drift)
    requires ValidRun(cfg, s0, before) && Begins(cfg, After(cfg, s0, before), d, r)
    requires var s1 := Step(cfg, After(cfg, s0, before), PollGate(r));
      UndisturbedRun(cfg, s1, acts) && ValidRun(cfg, s1, acts) && After(cfg, s1, acts).gate.point.Resting?
    ensures var g0, s := s0.gate, After(cfg, s0, before);
      var g, g' := s.gate, After(cfg, Step(cfg, s, PollGate(r)), acts).gate;
      && Lived(g0.a, g.a, ea) && MovedToEnd(cfg, g0.a, xa, drift, g.a, g'.a, d, ea)
      && Lived(g0.b, g.b, eb) && MovedToEnd(cfg, g0.b, xb, drift, g.b, g'.b, d, eb)
  {
    var g0, s := s0.gate, After(cfg, s0, before);
    var s1 := Step(cfg, s, PollGate(r));
    RunOk(cfg, s0, before);
    StepOk(cfg, s, PollGate(r));
    BeginsRuns(cfg, s, d, r);
    RunRuns(cfg, s1, d, s.gate.a, s.gate.b, acts);
    ea, eb := RunLived(cfg, g0.a, g0.b, s0, [], [], before);
    var g' := After(cfg, s1, acts).gate;
    RunRecalibrates(cfg, g0.a, xa, drift, s.gate.a, g'.a, d, ea);
    RunRecalibrates(cfg, g0.b, xb, drift, s.gate.b, g'.b, d, eb);
  }

  // ----- The installation, run for good -----

  datatype Leaf = LeafA | LeafB

  function MotorOf(g: GateView, leaf: Leaf): MotorState {
    if leaf.LeafA? then g.a else g.b
  }

  function ReadOf(r: Reads, leaf: Leaf): nat {
    if leaf.LeafA? then r.a else r.b
  }

  ghost predicate Releases(m: MotorState, m': MotorState) {
    m.state.Running? && m'.state.Idle?
  }

  ghost predicate UndisturbedPoll(s: System, act: Action) {
    act.PollGate? && s.gate.point.Driving? && Undisturbed(s.gate, act.readings)
  }

  /** The leaf's interruptions since its last completed run, `n` before this action. */
  ghost function InterruptionsAfter(cfg: Config, s: System, act: Action, leaf: Leaf, n: nat): nat
    requires Enabled(cfg, s, act)
  {
    if !Releases(MotorOf(s.gate, leaf), MotorOf(Step(cfg, s, act).gate, leaf)) then n
    else if UndisturbedPoll(s, act) then 0 else n + 1
  }

  ghost function Interruptions(cfg: Config, s: System, acts: seq<Action>, leaf: Leaf, n: nat): nat
    requires ValidRun(cfg, s, acts)
    decreases |acts|
  {
    if acts == [] then n
    else Interruptions(cfg, Step(cfg, s, acts[0]), acts[1..], leaf, InterruptionsAfter(cfg, s, acts[0], leaf, n))
  }

  /** The leaf is never interrupted more than 16 times between two completed runs. */
  ghost predicate SeldomInterrupted(cfg: Config, s: System, acts: seq<Action>, leaf: Leaf, n: nat)
    requires ValidRun(cfg, s, acts)
    decreases |acts|
  {
    n <= 16 &&
    (acts == [] ||
     SeldomInterrupted(cfg, Step(cfg, s, acts[0]), acts[1..], leaf, InterruptionsAfter(cfg, s, acts[0], leaf, n)))
  }

  /** Up to its last release, the leaf's estimate is off by at most 1.017 units for each of `n` interruptions. */
  ghost predicate OffByAtMost(m0: MotorState, x: real, es: seq<Episode>, n: nat) {
    Abs(RunAll(m0, es).position as real - PhysicalAll(m0, x, es)) <= n as real * 1.017
  }

  /** Running in no time at all changes nothing. */
  lemma {:induction false} EmptyEpisode(m: MotorState, x: real, e: Episode, drift: real)
    requires m.state.Idle? && OnTime(e) == 0 && Abs(m.position as real - x) <= drift
    ensures Abs(Run(m, e).position as real - PhysicalAfter(m, x, e)) <= drift
  {
    EpisodeDrift(m, x, e, drift);
    assert CutOff(m, e) == 0;
  }

  /** One more episode of an installed leaf: an interruption, a completed run, or one that took no time. */
  lemma {:induction false} OneMoreEpisode(slack: nat, m0: MotorState, x: real, es: seq<Episode>, e: Episode, n: nat)
    requires m0.state.Idle? && InstalledTravel(m0) && slack <= FromMillis(40) && n <= 16 && OffByAtMost(m0, x, es, n)
    ensures OffByAtMost(m0, x, es + [e], n + 1)
    ensures RunsToEnd(RunAll(m0, es), e, slack) ==> OffByAtMost(m0, x, es + [e], 0)
    ensures OnTime(e) == 0 ==> OffByAtMost(m0, x, es + [e], n)
  {
    var m, p := RunAll(m0, es), PhysicalAll(m0, x, es);
    IdleAfterAll(m0, es);
    RunAllAppend(m0, es, e);
    PhysicalAppend(m0, x, es, e);
    InstalledEpisode(m, p, e, n, slack);
    if OnTime(e) == 0 {
      EmptyEpisode(m, p, e, n as real * 1.017);
    }
  }

  lemma {:induction false} IdleAfterAll(m: MotorState, es: seq<Episode>)
    requires m.state.Idle?
    ensures RunAll(m, es).state.Idle? && (InstalledTravel(m) ==> InstalledTravel(RunAll(m, es)))
  {
    DriftBound(m, m.position as real, es, 0.0);
    RunAllFields(m, es);
  }

  /** How a change of the motor changes its history, knowing whether a release completed its run. */
  lemma {:induction false} ChangeCounts(slack: nat, m0: MotorState, x: real, m: MotorState, m': MotorState, es: seq<Episode>, n: nat, d: Direction, t: nat, completed: bool)
    returns (es': seq<Episode>)
    requires m0.state.Idle? && InstalledTravel(m0) && slack <= FromMillis(40) && n <= 16
    requires Lived(m0, m, es) && ClockSane(m, t) && Evolves(m, m', d, t) && OffByAtMost(m0, x, es, n)
    requires Releases(m, m') && completed ==>
      m' == Settled(m, t) && RunsToEnd(RunAll(m0, es), Episode(m.state.direction, m.state.since, t), slack)
    ensures Lived(m0, m', es')
    ensures OffByAtMost(m0, x, es', if !Releases(m, m') then n else if completed then 0 else n + 1)
  {
    IdleAfterAll(m0, es);
    if m.state.Running? && m'.state.Idle? {
      var e := Episode(m.state.direction, m.state.since, t);
      OneMoreEpisode(slack, m0, x, es, e, n);
      RunAllAppend(m0, es, e);
      es' := es + [e];
    } else if m.state.Idle? && m' != m && m'.state.Idle? {
      var e := Episode(d, t, t);
      OneMoreEpisode(slack, m0, x, es, e, n);
      RunAllAppend(m0, es, e);
      es' := es + [e];
    } else {
      es' := es;
    }
  }

  lemma {:induction false} LeafEvolves(cfg: Config, s: System, r: Reads, leaf: Leaf) returns (d: Direction)
    requires SystemOk(cfg, s) && Enabled(cfg, s, PollGate(r))
    ensures ClockSane(MotorOf(s.gate, leaf), ReadOf(r, leaf))
    ensures Evolves(MotorOf(s.gate, leaf), MotorOf(Polled(s.gate, r).gate, leaf), d, ReadOf(r, leaf))
  {
    d := PolledEvolves(cfg, s.gate, r);
  }

  lemma {:induction false} ReleaseIsStop(cfg: Config, s: System, r: Reads, leaf: Leaf)
    requires SystemOk(cfg, s) && Enabled(cfg, s, PollGate(r)) && UndisturbedPoll(s, PollGate(r))
    requires Releases(MotorOf(s.gate, leaf), MotorOf(Polled(s.gate, r).gate, leaf))
    ensures var m, t := MotorOf(s.gate, leaf), ReadOf(r, leaf);
      && MotorOf(Polled(s.gate, r).gate, leaf) == Settled(m, t) && m.state.since <= t
      && RunTime(m, m.state.direction).Some? && m.state.since + RunTime(m, m.state.direction).value <= t + cfg.skew
  {
    UndisturbedLeaves(s.gate, r);
    ReleasedRunsToEnd(cfg, MotorOf(s.gate, leaf), if leaf.LeafA? then s.gate.point.a else s.gate.point.b,
                      s.gate.point.direction, r.now, ReadOf(r, leaf), MotorOf(Polled(s.gate, r).gate, leaf));
  }

  /** A leaf that an undisturbed segment releases has completed its run. */
  lemma {:induction false} ReleaseCompletes(cfg: Config, s: System, r: Reads, leaf: Leaf, m0: MotorState, es: seq<Episode>)
    requires SystemOk(cfg, s) && Enabled(cfg, s, PollGate(r)) && UndisturbedPoll(s, PollGate(r))
    requires m0.state.Idle? && Lived(m0, MotorOf(s.gate, leaf), es)
    requires Releases(MotorOf(s.gate, leaf), MotorOf(Polled(s.gate, r).gate, leaf))
    ensures var m, t := MotorOf(s.gate, leaf), ReadOf(r, leaf);
      && MotorOf(Polled(s.gate, r).gate, leaf) == Settled(m, t)
      && RunsToEnd(RunAll(m0, es), Episode(m.state.direction, m.state.since, t), cfg.skew)
  {
    ReleaseIsStop(cfg, s, r, leaf);
    IdleAfterAll(m0, es);
  }

  lemma {:induction false} PollCounts(skew: nat, s: System, r: Reads, leaf: Leaf, m0: MotorState, x: real, es: seq<Episode>, n: nat)
    returns (es': seq<Episode>)
    requires skew <= FromMillis(40) && SystemOk(O.Installed(skew), s) && Enabled(O.Installed(skew), s, PollGate(r))
    requires m0.state.Idle? && InstalledTravel(m0) && n <= 16
    requires Lived(m0, MotorOf(s.gate, leaf), es) && OffByAtMost(m0, x, es, n)
    ensures Lived(m0, MotorOf(Step(O.Installed(skew), s, PollGate(r)).gate, leaf), es')
    ensures OffByAtMost(m0, x, es', InterruptionsAfter(O.Installed(skew), s, PollGate(r), leaf, n))
  {
    var m, m' := MotorOf(s.gate, leaf), MotorOf(Polled(s.gate, r).gate, leaf);
    var d := LeafEvolves(O.Installed(skew), s, r, leaf);
    var completed := UndisturbedPoll(s, PollGate(r));
    if Releases(m, m') && completed {
      ReleaseCompletes(O.Installed(skew), s, r, leaf, m0, es);
    }
    es' := ChangeCounts(skew, m0, x, m, m', es, n, d, ReadOf(r, leaf), completed);
  }

  lemma {:induction false} InputLeavesMotors(cfg: Config, s: System, act: Action)
    requires Enabled(cfg, s, act) && !act.PollGate?
    ensures var g' := Step(cfg, s, act).gate; g'.a == s.gate.a && g'.b == s.gate.b
  {
  }

  lemma {:induction false} RunCounts(skew: nat, s: System, acts: seq<Action>, leaf: Leaf, m0: MotorState, x: real, es: seq<Episode>, n: nat)
    returns (es': seq<Episode>)
    requires skew <= FromMillis(40) && SystemOk(O.Installed(skew), s) && ValidRun(O.Installed(skew), s, acts)
    requires m0.state.Idle? && InstalledTravel(m0)
    requires Lived(m0, MotorOf(s.gate, leaf), es) && OffByAtMost(m0, x, es, n)
    requires SeldomInterrupted(O.Installed(skew), s, acts, leaf, n)
    ensures Lived(m0, MotorOf(After(O.Installed(skew), s, acts).gate, leaf), es')
    ensures OffByAtMost(m0, x, es', Interruptions(O.Installed(skew), s, acts, leaf, n))
    ensures Interruptions(O.Installed(skew), s, acts, leaf, n) <= 16
    decreases |acts|
  {
    var cfg := O.Installed(skew);
    es' := es;
    if acts != [] {
      StepOk(cfg, s, acts[0]);
      if acts[0].PollGate? {
        es' := PollCounts(skew, s, acts[0].readings, leaf, m0, x, es, n);
      } else {
        InputLeavesMotors(cfg, s, acts[0]);
      }
      es' := RunCounts(skew, Step(cfg, s, acts[0]), acts[1..], leaf, m0, x, es',
                       InterruptionsAfter(cfg, s, acts[0], leaf, n));
    }
  }

  /**
   * The installation for as long as it runs, from an estimate off by no more than
   * `n` interruptions are worth: with at most 16 interruptions of a leaf between
   * two of its completed runs, whenever the leaf is not energized its estimate is
   * off by at most 1.017 units for each interruption since the last of them.
   */
  lemma {:induction false} InstalledGateStaysCalibrated(skew: nat, s0: System, leaf: Leaf, x: real, n: nat, acts: seq<Action>)
    returns (es: seq<Episode>)
    requires skew <= FromMillis(40) && SystemOk(O.Installed(skew), s0) && ValidRun(O.Installed(skew), s0, acts)
    requires MotorOf(s0.gate, leaf).state.Idle?
    requires Abs(MotorOf(s0.gate, leaf).position as real - x) <= n as real * 1.017
    requires SeldomInterrupted(O.Installed(skew), s0, acts, leaf, n)
    ensures var m0, m := MotorOf(s0.gate, leaf), MotorOf(After(O.Installed(skew), s0, acts).gate, leaf);
      var count := Interruptions(O.Installed(skew), s0, acts, leaf, n);
      && count <= 16 && Lived(m0, m, es)
      && (m.state.Idle? ==> Abs(m.position as real - PhysicalAll(m0, x, es)) <= count as real * 1.017)
  {
    es := RunCounts(skew, s0, acts, leaf, MotorOf(s0.gate, leaf), x, [], n);
  }
}
