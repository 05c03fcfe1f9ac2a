/** What every step of every run keeps about the gate and its two leaves. */
module GateInvariant {
  import opened Base
  import opened M = MotorModel
  import opened C = ControlsModel
  import opened G = GateModel
  import opened S = SystemModel
  import T = Travel

  /** The overrun covers the rounding of 1 ms and the clock skew of a segment. */
  ghost predicate Sound(cfg: Config) {
    TICKS_PER_MS + cfg.skew <= cfg.overrun
  }

  ghost predicate Settings(cfg: Config, timing: LeafTiming, m: MotorState) {
    m.timing == timing && m.endStopOverrun == cfg.overrun && m.reversePause == cfg.pause
  }

  /** How a leaf's motor and its phase in a movement belong together. */
  ghost predicate LeafOk(cfg: Config, m: MotorState, phase: Phase, d: Direction) {
    match phase
    case Waiting(at) => m.state.Idle? && ReadyAt(m) <= at && RunTime(m, d).Some?
    case Energized(until) =>
      && m.state.Running? && m.state.direction == d
      && RunTime(m, d).Some? && m.state.since + RunTime(m, d).value <= until + cfg.skew
    case Done => m.state.Idle? && (Sound(cfg) ==> Remaining(m, d) == 0)
  }

  ghost predicate MotorsOk(cfg: Config, g: GateView, now: nat) {
    && MotorOk(g.a, now) && Settings(cfg, cfg.leafA, g.a)
    && MotorOk(g.b, now) && Settings(cfg, cfg.leafB, g.b)
  }

  ghost predicate PointOk(cfg: Config, g: GateView) {
    match g.point
    case Resting =>
      && g.a.state.Idle? && g.b.state.Idle?
      && g.controls.currentDirection.None?
      && g.controls.position == Classify(g.a.position, g.b.position)
    case Driving(d, a, b, _, deadline) =>
      && LeafOk(cfg, g.a, a, d) && LeafOk(cfg, g.b, b, d)
      && g.pending.None?
      && g.controls.currentDirection == Some(d) && g.controls.lastDirection == d
      && Earliest(Deadline(a), Deadline(b)) == Some(deadline)
  }

  ghost predicate GateOk(cfg: Config, g: GateView, now: nat) {
    && MotorsOk(cfg, g, now)
    && PointOk(cfg, g)
    && g.pending in {None, Some(Open), Some(Close)}
  }

  ghost predicate SystemOk(cfg: Config, s: System) {
    && GateOk(cfg, s.gate, s.now)
    && (s.store.saving.Some? ==> s.gate.point.Resting?)
  }

  // ----- One leaf -----

  lemma {:induction false} PlanOk(cfg: Config, m: MotorState, d: Direction, now: nat)
    requires m.state.Idle?
    ensures LeafOk(cfg, m, Plan(m, d, now), d)
  {
  }

  lemma {:induction false} BeginLeafOk(cfg: Config, m: MotorState, phase: Phase, d: Direction, now: nat, read: nat)
    requires MotorOk(m, now) && LeafOk(cfg, m, phase, d) && now <= read <= now + cfg.skew
    ensures var p := BeginLeaf(m, phase, d, now, read);
      && MotorOk(p.motor, read) && LeafOk(cfg, p.motor, p.phase, d)
      && Settings(cfg, m.timing, m) == Settings(cfg, m.timing, p.motor)
  {
    if phase.Waiting? && phase.at <= now {
      StartedOk(m, d, read);
    }
  }

  /** A leaf that has run to its deadline is at its end stop. */
  lemma {:induction false} ReleasedOk(cfg: Config, m: MotorState, phase: Phase, d: Direction, now: nat, read: nat)
    requires MotorOk(m, read) && LeafOk(cfg, m, phase, d) && m.endStopOverrun == cfg.overrun
    requires phase.Energized? && phase.until <= now <= read
    ensures MotorOk(Settled(m, read), read) && LeafOk(cfg, Settled(m, read), Done, d)
  {
    SettledOk(m, read);
    if Sound(cfg) {
      T.PlannedRunCovers(m, d, Elapsed(m.state.since, read), cfg.skew);
    }
  }

  lemma {:induction false} PollLeafOk(cfg: Config, m: MotorState, phase: Phase, d: Direction, now: nat, read: nat)
    requires MotorOk(m, now) && LeafOk(cfg, m, phase, d) && now <= read <= now + cfg.skew
    requires Settings(cfg, m.timing, m)
    ensures var p := PollLeaf(m, phase, d, now, read);
      && MotorOk(p.motor, read) && LeafOk(cfg, p.motor, p.phase, d)
      && Settings(cfg, m.timing, p.motor)
  {
    BeginLeafOk(cfg, m, phase, d, now, read);
    var begun := BeginLeaf(m, phase, d, now, read);
    if begun.phase.Energized? && begun.phase.until <= now {
      ReleasedOk(cfg, begun.motor, begun.phase, d, now, read);
    }
  }

  // ----- One segment -----

  lemma {:induction false} DriveEndedOk(cfg: Config, g: GateView, moved: bool, result: Option<GateCommand>, r: Reads)
    requires MotorOk(g.a, r.a) && Settings(cfg, cfg.leafA, g.a)
    requires MotorOk(g.b, r.b) && Settings(cfg, cfg.leafB, g.b)
    requires r.a <= r.b
    requires result in {None, Some(Open), Some(Close)}
    ensures GateOk(cfg, DriveEnded(g, moved, result, r).gate, r.b)
    ensures DriveEnded(g, moved, result, r).gate.point.Resting?
  {
    SettledOk(g.a, r.a);
    SettledOk(g.b, r.b);
  }

  lemma {:induction false} DriveRoundOk(cfg: Config, g: GateView, d: Direction, a: Phase, b: Phase, moved: bool, r: Reads)
    requires MotorsOk(cfg, g, r.now) && LeafOk(cfg, g.a, a, d) && LeafOk(cfg, g.b, b, d)
    requires r.now <= r.a <= r.b <= r.now + cfg.skew
    requires g.pending.None?
    requires g.controls.currentDirection == Some(d) && g.controls.lastDirection == d
    ensures GateOk(cfg, DriveRound(g, d, a, b, moved, r).gate, r.b)
    ensures DriveRound(g, d, a, b, moved, r).snapshot.Some? ==> DriveRound(g, d, a, b, moved, r).gate.point.Resting?
  {
    if Blocked(g.controls, d).Some? {
      DriveEndedOk(cfg, g, moved, None, r);
    } else {
      PollLeafOk(cfg, g.a, a, d, r.now, r.a);
      PollLeafOk(cfg, g.b, b, d, r.now, r.b);
      var x, y := PollLeaf(g.a, a, d, r.now, r.a), PollLeaf(g.b, b, d, r.now, r.b);
      if Earliest(Deadline(x.phase), Deadline(y.phase)).None? {
        DriveEndedOk(cfg, g.(a := x.motor, b := y.motor), moved || x.moved || y.moved, None, r);
      }
    }
  }

  lemma {:induction false} DriveStartedOk(cfg: Config, g: GateView, d: Direction, r: Reads)
    requires MotorsOk(cfg, g, r.now) && g.a.state.Idle? && g.b.state.Idle? && g.pending.None?
    requires r.now <= r.a <= r.b <= r.now + cfg.skew
    ensures GateOk(cfg, DriveStarted(g, d, r).gate, r.b)
    ensures DriveStarted(g, d, r).snapshot.Some? ==> DriveStarted(g, d, r).gate.point.Resting?
  {
    if Blocked(g.controls, d).None? {
      PlanOk(cfg, g.a, d, r.plan);
      PlanOk(cfg, g.b, d, r.plan);
      var g' := Notified(g.(controls := DirectionSet(g.controls, d)));
      DriveRoundOk(cfg, g', d, Plan(g.a, d, r.plan), Plan(g.b, d, r.plan), false, r);
    }
  }

  lemma {:induction false} ExecutedOk(cfg: Config, g: GateView, command: GateCommand, r: Reads)
    requires MotorsOk(cfg, g, r.now) && g.a.state.Idle? && g.b.state.Idle? && g.pending.None?
    requires r.now <= r.a <= r.b <= r.now + cfg.skew
    ensures GateOk(cfg, Executed(g, command, r).gate, r.b)
    ensures Executed(g, command, r).snapshot.Some? ==> Executed(g, command, r).gate.point.Resting?
  {
    match ResolveImpulse(g.controls, command) {
      case Open => DriveStartedOk(cfg, g, Opening, r);
      case Close => DriveStartedOk(cfg, g, Closing, r);
      case Stop =>
      case Impulse =>
    }
  }

  lemma {:induction false} DrivePolledOk(cfg: Config, g: GateView, r: Reads)
    requires GateOk(cfg, g, r.now) && g.point.Driving?
    requires r.now <= r.a <= r.b <= r.now + cfg.skew
    ensures GateOk(cfg, DrivePolled(g, r).gate, r.b)
    ensures DrivePolled(g, r).snapshot.Some? ==> DrivePolled(g, r).gate.point.Resting?
  {
    var Driving(d, a, b, moved, deadline) := g.point;
    var w := DriveWinner(g.controls, deadline, r.wake);
    if Interrupts(w, d) {
      DriveEndedOk(cfg, Woken(g, w), moved, HandedBack(w.command), r);
    } else if !w.Nothing? {
      DriveRoundOk(cfg, Woken(g, w), d, a, b, moved, r);
    }
  }

  lemma {:induction false} PolledOk(cfg: Config, g: GateView, r: Reads)
    requires GateOk(cfg, g, r.now)
    requires r.now <= r.a <= r.b <= r.now + cfg.skew
    ensures GateOk(cfg, Polled(g, r).gate, r.b)
    ensures Polled(g, r).snapshot.Some? ==> Polled(g, r).gate.point.Resting?
  {
    if g.point.Driving? {
      DrivePolledOk(cfg, g, r);
    } else if g.pending.Some? {
      ExecutedOk(cfg, g.(pending := None), g.pending.value, r);
    } else if g.controls.command.Some? {
      ExecutedOk(cfg, g.(controls := g.controls.(command := None)), g.controls.command.value, r);
    }
  }

  /** What an unblocked round leaves behind, once its two polls are known. */
  lemma {:induction false} RoundEnds(g: GateView, d: Direction, a: Phase, b: Phase, moved: bool, r: Reads)
    requires Blocked(g.controls, d).None?
    ensures var x, y := PollLeaf(g.a, a, d, r.now, r.a), PollLeaf(g.b, b, d, r.now, r.b);
      var g' := DriveRound(g, d, a, b, moved, r).gate;
      var moved' := moved || x.moved || y.moved;
      if x.phase.Done? && y.phase.Done?
      then && g'.point.Resting? && g'.a == Settled(x.motor, r.a) && g'.b == Settled(y.motor, r.b)
           && g'.controls.barrierBypass == (g.controls.barrierBypass && !moved')
      else && g'.a == x.motor && g'.b == y.motor && g'.controls == g.controls
           && g'.point.Driving? && g'.point.direction == d && g'.point.moved == moved'
           && g'.point.a == x.phase && g'.point.b == y.phase
           && Earliest(Deadline(x.phase), Deadline(y.phase)) == Some(g'.point.deadline)
  {
  }

  // ----- Every run -----

  lemma {:induction false} PollStepOk(cfg: Config, s: System, r: Reads)
    requires SystemOk(cfg, s) && Enabled(cfg, s, PollGate(r))
    ensures SystemOk(cfg, Step(cfg, s, PollGate(r)))
  {
    PolledOk(cfg, s.gate, r);
  }

  lemma {:induction false} InputStepOk(cfg: Config, s: System, act: Action)
    requires SystemOk(cfg, s) && Enabled(cfg, s, act) && !act.PollGate?
    ensures SystemOk(cfg, Step(cfg, s, act))
  {
    var s' := Step(cfg, s, act);
    assert s'.gate.a == s.gate.a && s'.gate.b == s.gate.b && s'.gate.point == s.gate.point;
    assert s'.gate.pending == s.gate.pending && s.now <= s'.now;
  }

  lemma {:induction false} StepOk(cfg: Config, s: System, act: Action)
    requires SystemOk(cfg, s) && Enabled(cfg, s, act)
    ensures SystemOk(cfg, Step(cfg, s, act))
  {
    match act {
      case PollGate(r) => PollStepOk(cfg, s, r);
      case _ => InputStepOk(cfg, s, act);
    }
  }

  lemma {:induction false} BootOk(cfg: Config, c: ControlsState, flash: Option<GateState>, at: nat)
    ensures SystemOk(cfg, Boot(cfg, c, flash, at))
  {
    var state := LoadOrDefault(flash);
    NewMotorOk(cfg.leafA, cfg.overrun, cfg.pause, state.leafA, at);
    NewMotorOk(cfg.leafB, cfg.overrun, cfg.pause, state.leafB, at);
  }

  lemma {:induction false} RunOk(cfg: Config, s: System, acts: seq<Action>)
    requires SystemOk(cfg, s) && ValidRun(cfg, s, acts)
    ensures SystemOk(cfg, After(cfg, s, acts))
    decreases |acts|
  {
    if acts != [] {
      StepOk(cfg, s, acts[0]);
      RunOk(cfg, Step(cfg, s, acts[0]), acts[1..]);
    }
  }

  lemma {:induction false} ReachableOk(cfg: Config, s: System)
    requires Reachable(cfg, s)
    ensures SystemOk(cfg, s)
  {
    var c, flash, at, acts :| RunsTo(cfg, c, flash, at, acts, s);
    BootOk(cfg, c, flash, at);
    RunOk(cfg, Boot(cfg, c, flash, at), acts);
  }
}
