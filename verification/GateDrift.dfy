/**
 * Every leaf's history under the gate controller is a sequence of relay
 * episodes, so drift bounds and conservation hold for whole runs of the system,
 * from any state in which no relay is on.
 */
module GateDrift {
  import opened Base
  import opened M = MotorModel
  import opened C = ControlsModel
  import opened G = GateModel
  import opened S = SystemModel
  import opened I = GateInvariant
  import opened T = Travel
  import opened E = Drift

  // ----- How a segment changes one motor -----

  /** Untouched, released, energized in direction `d`, or energized and released at once - all at instant `t`. */
  ghost predicate Evolves(m: MotorState, m': MotorState, d: Direction, t: nat) {
    || m' == m
    || m' == Settled(m, t)
    || (m.state.Idle? && (m' == Started(m, d, t) || m' == Settled(Started(m, d, t), t)))
  }

  ghost predicate GateEvolves(g: GateView, g': GateView, d: Direction, r: Reads) {
    Evolves(g.a, g'.a, d, r.a) && Evolves(g.b, g'.b, d, r.b)
  }

  lemma {:induction false} PollLeafEvolves(cfg: Config, m: MotorState, phase: Phase, d: Direction, now: nat, read: nat)
    requires LeafOk(cfg, m, phase, d)
    ensures var p := PollLeaf(m, phase, d, now, read);
      Evolves(m, p.motor, d, read) && Evolves(m, Settled(p.motor, read), d, read)
  {
  }

  lemma {:induction false} DriveRoundEvolves(cfg: Config, g: GateView, d: Direction, a: Phase, b: Phase, moved: bool, r: Reads)
    requires LeafOk(cfg, g.a, a, d) && LeafOk(cfg, g.b, b, d)
    ensures GateEvolves(g, DriveRound(g, d, a, b, moved, r).gate, d, r)
  {
    DriveRoundMotors(g, d, a, b, moved, r);
    PollLeafEvolves(cfg, g.a, a, d, r.now, r.a);
    PollLeafEvolves(cfg, g.b, b, d, r.now, r.b);
  }

  /** A round either releases both leaves, or polls them and perhaps releases them. */
  lemma {:induction false} DriveRoundMotors(g: GateView, d: Direction, a: Phase, b: Phase, moved: bool, r: Reads)
    ensures var g' := DriveRound(g, d, a, b, moved, r).gate;
      var x, y := PollLeaf(g.a, a, d, r.now, r.a).motor, PollLeaf(g.b, b, d, r.now, r.b).motor;
      || (g'.a == Settled(g.a, r.a) && g'.b == Settled(g.b, r.b))
      || (g'.a == x && g'.b == y)
      || (g'.a == Settled(x, r.a) && g'.b == Settled(y, r.b))
  {
  }

  lemma {:induction false} ExecutedEvolves(cfg: Config, g: GateView, command: GateCommand, r: Reads) returns (d: Direction)
    requires g.a.state.Idle? && g.b.state.Idle?
    ensures GateEvolves(g, Executed(g, command, r).gate, d, r)
  {
    d := if ResolveImpulse(g.controls, command).Open? then Opening else Closing;
    PlanOk(cfg, g.a, d, r.plan);
    PlanOk(cfg, g.b, d, r.plan);
    DriveRoundEvolves(cfg, Notified(g.(controls := DirectionSet(g.controls, d))), d,
                      Plan(g.a, d, r.plan), Plan(g.b, d, r.plan), false, r);
  }

  lemma {:induction false} PolledEvolves(cfg: Config, g: GateView, r: Reads) returns (d: Direction)
    requires PointOk(cfg, g)
    ensures GateEvolves(g, Polled(g, r).gate, d, r)
  {
    d := Opening;
    if g.point.Driving? {
      d := g.point.direction;
      DriveRoundEvolves(cfg, Woken(g, DriveWinner(g.controls, g.point.deadline, r.wake)), d,
                        g.point.a, g.point.b, g.point.moved, r);
    } else if g.pending.Some? {
      d := ExecutedEvolves(cfg, g.(pending := None), g.pending.value, r);
    } else if g.controls.command.Some? {
      d := ExecutedEvolves(cfg, g.(controls := g.controls.(command := None)), g.controls.command.value, r);
    }
  }

  // ----- Episodes -----

  /** Motor `m` is what `m0` becomes by the episodes `es`, plus the one still running. */
  ghost predicate Lived(m0: MotorState, m: MotorState, es: seq<Episode>) {
    && WellFormed(es)
    && m == match m.state
            case Idle => RunAll(m0, es)
            case Running(d, since) => Started(RunAll(m0, es), d, since)
  }

  lemma {:induction false} RunAllAppend(m: MotorState, es: seq<Episode>, e: Episode)
    ensures RunAll(m, es + [e]) == Run(RunAll(m, es), e)
    decreases |es|
  {
    if es == [] {
      assert [e][1..] == [];
      assert es + [e] == [e];
    } else {
      assert (es + [e])[1..] == es[1..] + [e];
      RunAllAppend(Run(m, es[0]), es[1..], e);
    }
  }

  lemma {:induction false} SettledLived(m0: MotorState, m: MotorState, es: seq<Episode>, t: nat) returns (es': seq<Episode>)
    requires Lived(m0, m, es) && ClockSane(m, t)
    ensures Lived(m0, Settled(m, t), es')
  {
    es' := es;
    if m.state.Running? {
      var e := Episode(m.state.direction, m.state.since, t);
      es' := es + [e];
      RunAllAppend(m0, es, e);
    }
  }

  lemma {:induction false} EvolvesLived(m0: MotorState, m: MotorState, m': MotorState, es: seq<Episode>, d: Direction, t: nat)
    returns (es': seq<Episode>)
    requires Lived(m0, m, es) && ClockSane(m, t) && Evolves(m, m', d, t)
    ensures Lived(m0, m', es')
  {
    es' := es;
    if m' == m {
    } else if m' == Settled(m, t) {
      es' := SettledLived(m0, m, es, t);
    } else {
      assert Lived(m0, Started(m, d, t), es);
      if m' != Started(m, d, t) {
        es' := SettledLived(m0, Started(m, d, t), es, t);
      }
    }
  }

  lemma {:induction false} StepLived(cfg: Config, a0: MotorState, b0: MotorState, s: System, ea: seq<Episode>, eb: seq<Episode>, act: Action)
    returns (ea': seq<Episode>, eb': seq<Episode>)
    requires SystemOk(cfg, s) && Enabled(cfg, s, act)
    requires Lived(a0, s.gate.a, ea) && Lived(b0, s.gate.b, eb)
    ensures Lived(a0, Step(cfg, s, act).gate.a, ea') && Lived(b0, Step(cfg, s, act).gate.b, eb')
  {
    ea', eb' := ea, eb;
    if act.PollGate? {
      var g', r := Polled(s.gate, act.readings).gate, act.readings;
      var d := PolledEvolves(cfg, s.gate, r);
      ea' := EvolvesLived(a0, s.gate.a, g'.a, ea, d, r.a);
      eb' := EvolvesLived(b0, s.gate.b, g'.b, eb, d, r.b);
    }
  }

  /** Along every run both motors live through episodes. */
  lemma {:induction false} RunLived(cfg: Config, a0: MotorState, b0: MotorState, s: System, ea: seq<Episode>, eb: seq<Episode>, acts: seq<Action>)
    returns (ea': seq<Episode>, eb': seq<Episode>)
    requires SystemOk(cfg, s) && ValidRun(cfg, s, acts)
    requires Lived(a0, s.gate.a, ea) && Lived(b0, s.gate.b, eb)
    ensures Lived(a0, After(cfg, s, acts).gate.a, ea') && Lived(b0, After(cfg, s, acts).gate.b, eb')
    decreases |acts|
  {
    ea', eb' := ea, eb;
    if acts != [] {
      ea', eb' := StepLived(cfg, a0, b0, s, ea, eb, acts[0]);
      StepOk(cfg, s, acts[0]);
      ea', eb' := RunLived(cfg, a0, b0, Step(cfg, s, acts[0]), ea', eb', acts[1..]);
    }
  }

  // ----- Drift in whole runs -----

  ghost predicate BothIdle(g: GateView) {
    g.a.state.Idle? && g.b.state.Idle?
  }

  /** The estimates are within `drift` units of where the leaves are. */
  ghost predicate KnownWithin(g: GateView, xa: real, xb: real, drift: real) {
    Abs(g.a.position as real - xa) <= drift && Abs(g.b.position as real - xb) <= drift
  }

  /**
   * Since it was motor `m0` at `x`, known to within `drift`, the leaf has lived
   * through `es`: whenever it is not energized its estimate is off by no more
   * than what is left of the drift.
   */
  ghost predicate DriftBounded(cfg: Config, m0: MotorState, x: real, drift: real, m: MotorState, es: seq<Episode>) {
    && Lived(m0, m, es)
    && (m.state.Idle? ==>
          Abs(m.position as real - PhysicalAll(m0, x, es)) <= DriftLeft(m0, es, drift, cfg.skew) <= drift + BudgetAll(m0, es))
  }

  lemma {:induction false} LivedDriftBounded(cfg: Config, m0: MotorState, x: real, drift: real, m: MotorState, es: seq<Episode>)
    requires m0.state.Idle? && Abs(m0.position as real - x) <= drift && Lived(m0, m, es)
    ensures DriftBounded(cfg, m0, x, drift, m, es)
  {
    LifetimeDriftBound(m0, x, es, drift, cfg.skew);
    DriftLeftAtMost(m0, es, drift, cfg.skew);
  }

  /**
   * From any state in which no relay is on, however far off its estimates: in
   * every run each leaf lives through episodes, and its estimate is off by at
   * most what they cut off since the last completed run that wiped the drift out.
   */
  lemma {:induction false} GateDriftBound(cfg: Config, s0: System, xa: real, xb: real, drift: real, acts: seq<Action>)
    returns (ea: seq<Episode>, eb: seq<Episode>)
    requires SystemOk(cfg, s0) && BothIdle(s0.gate) && KnownWithin(s0.gate, xa, xb, drift)
    requires ValidRun(cfg, s0, acts)
    ensures var s := After(cfg, s0, acts);
      && DriftBounded(cfg, s0.gate.a, xa, drift, s.gate.a, ea)
      && DriftBounded(cfg, s0.gate.b, xb, drift, s.gate.b, eb)
  {
    ea, eb := RunLived(cfg, s0.gate.a, s0.gate.b, s0, [], [], acts);
    LivedDriftBounded(cfg, s0.gate.a, xa, drift, After(cfg, s0, acts).gate.a, ea);
    LivedDriftBounded(cfg, s0.gate.b, xb, drift, After(cfg, s0, acts).gate.b, eb);
  }

  lemma {:induction false} PhysicalAppend(m: MotorState, x: real, es: seq<Episode>, e: Episode)
    ensures PhysicalAll(m, x, es + [e]) == PhysicalAfter(RunAll(m, es), PhysicalAll(m, x, es), e)
    decreases |es|
  {
    if es == [] {
      assert es + [e] == [e];
      assert [e][1..] == [];
    } else {
      assert (es + [e])[1..] == es[1..] + [e];
      PhysicalAppend(Run(m, es[0]), PhysicalAfter(m, x, es[0]), es[1..], e);
    }
  }

  // ----- Conservation in whole runs -----

  /** Stopped short of its end after running in direction `d` only, a leaf has used its planned time up to a unit per stop. */
  ghost predicate OnTimeConserved(m0: MotorState, m: MotorState, es: seq<Episode>, d: Direction) {
    m.state.Idle? && (forall i :: 0 <= i < |es| ==> es[i].direction == d) && Remaining(m, d) > 0 ==>
      && Remaining(m0, d) > 0
      && var planned, total := RunTime(m0, d).value, OnTimeAll(es) + RunTime(m, d).value;
         planned <= total <= planned + |es| * UnitTicks(m0, d)
  }

  lemma {:induction false} LivedConserves(m0: MotorState, m: MotorState, es: seq<Episode>, d: Direction)
    requires m0.state.Idle? && Lived(m0, m, es)
    ensures OnTimeConserved(m0, m, es, d)
  {
    if m.state.Idle? && (forall i :: 0 <= i < |es| ==> es[i].direction == d) && Remaining(m, d) > 0 {
      InterruptionConservesTravelTime(m0, d, es);
    }
  }

  /**
   * From any state in which no relay is on, say one after a reversal: in every
   * run that has since moved a leaf in one direction only, its relay-on time
   * since then plus its next planned run stay within one rounded-up unit per stop
   * above the run time planned at the start, and never fall below it.
   */
  lemma {:induction false} GateConservesTravelTime(cfg: Config, s0: System, acts: seq<Action>, d: Direction)
    returns (ea: seq<Episode>, eb: seq<Episode>)
    requires SystemOk(cfg, s0) && BothIdle(s0.gate) && ValidRun(cfg, s0, acts)
    ensures var g0, g := s0.gate, After(cfg, s0, acts).gate;
      && Lived(g0.a, g.a, ea) && OnTimeConserved(g0.a, g.a, ea, d)
      && Lived(g0.b, g.b, eb) && OnTimeConserved(g0.b, g.b, eb, d)
  {
    ea, eb := RunLived(cfg, s0.gate.a, s0.gate.b, s0, [], [], acts);
    LivedConserves(s0.gate.a, After(cfg, s0, acts).gate.a, ea, d);
    LivedConserves(s0.gate.b, After(cfg, s0, acts).gate.b, eb, d);
  }
}
