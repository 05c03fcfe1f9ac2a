/** Push button and radio remote: what one input does at rest and during a movement, and which way it goes next. */
module ImpulseCycle {
  import opened Base
  import opened M = MotorModel
  import opened C = ControlsModel
  import opened G = GateModel
  import opened S = SystemModel
  import opened I = GateInvariant
  import opened Y = Safety
  import opened R = Response
  import D = Schedule
  import T = Travel

  /** At rest an impulse always resolves to a direction in which some leaf has to move. */
  lemma {:induction false} IdleImpulseMoves(cfg: Config, s: System)
    requires SystemOk(cfg, s) && s.gate.point.Resting?
    ensures exists d ::
      && ResolveImpulse(s.gate.controls, Impulse) == CommandFor(d)
      && (RunTime(s.gate.a, d).Some? || RunTime(s.gate.b, d).Some?)
  {
    var d := if ResolveImpulse(s.gate.controls, Impulse).Open? then Opening else Closing;
    assert ResolveImpulse(s.gate.controls, Impulse) == CommandFor(d);
  }

  // ----- A press during a movement -----

  ghost predicate AtStart(m: MotorState, d: Direction) {
    m.position == if d.Opening? then 0 else 255
  }

  /** The leaf is at the end that `d` leads away from, and has not run long enough to be counted off it. */
  ghost predicate StillAtStart(m: MotorState, d: Direction, read: nat) {
    AtStart(m, d) && (m.state.Running? ==> Millis(Elapsed(m.state.since, read)) * 255 < T.FullMs(m.timing, d))
  }

  /** Stopped by readings `r`, neither leaf will have been counted off its start. */
  ghost predicate NeverLeft(g: GateView, r: Reads)
    requires g.point.Driving?
  {
    StillAtStart(g.a, g.point.direction, r.a) && StillAtStart(g.b, g.point.direction, r.b)
  }

  lemma {:induction false} SettledAtStart(m: MotorState, d: Direction, read: nat)
    requires m.state.Running? ==> m.state.direction == d
    ensures AtStart(Settled(m, read), d) <==> StillAtStart(m, d, read)
  {
    if m.state.Running? {
      NoUnits(Millis(Elapsed(m.state.since, read)) * 255, T.FullMs(m.timing, d));
      OffStart(m.position, d, Travelled(m, d, Elapsed(m.state.since, read)));
    }
  }

  lemma {:induction false} NoUnits(x: nat, y: nat)
    requires y > 0
    ensures x / y == 0 <==> x < y
  {
    T.DivBounds(x, y);
  }

  lemma {:induction false} OffStart(p: U8, d: Direction, units: U8)
    ensures var start := if d.Opening? then 0 else 255;
      MovedBy(p, d, units) == start <==> p == start && units == 0
  {
  }

  lemma {:induction false} NothingAtOnce(m: MotorState, d: Direction, read: nat)
    requires m.state.Idle?
    ensures Settled(Started(m, d, read), read).position == m.position
  {
    NoUnits(0, T.FullMs(m.timing, d));
  }

  /** A pass that finishes a leaf leaves it where stopping it would have. */
  lemma {:induction false} FinishedWhereStopped(cfg: Config, m: MotorState, phase: Phase, d: Direction, now: nat, read: nat)
    requires LeafOk(cfg, m, phase, d) && PollLeaf(m, phase, d, now, read).phase.Done?
    ensures Settled(PollLeaf(m, phase, d, now, read).motor, read).position == Settled(m, read).position
  {
    if phase.Waiting? {
      NothingAtOnce(m, d, read);
    }
  }

  /** However a movement ends, both leaves are where stopping them in that segment puts them. */
  lemma {:induction false} EndsWhereStopped(cfg: Config, g: GateView, r: Reads)
    requires PointOk(cfg, g) && g.point.Driving? && DrivePolled(g, r).gate.point.Resting?
    ensures var g' := DrivePolled(g, r).gate;
      g'.a.position == Settled(g.a, r.a).position && g'.b.position == Settled(g.b, r.b).position
  {
    var Driving(d, a, b, moved, deadline) := g.point;
    var w := DriveWinner(g.controls, deadline, r.wake);
    if !Interrupts(w, d) && Blocked(g.controls, d).None? {
      RoundEnds(Woken(g, w), d, a, b, moved, r);
      FinishedWhereStopped(cfg, g.a, a, d, r.now, r.a);
      FinishedWhereStopped(cfg, g.b, b, d, r.now, r.b);
    }
  }

  /** Once a movement has ended, an impulse repeats it if no leaf had left its start, and else reverses it. */
  lemma {:induction false} NextImpulse(cfg: Config, g: GateView, r: Reads)
    requires GateOk(cfg, g, r.now) && r.now <= r.a <= r.b <= r.now + cfg.skew
    requires g.point.Driving? && DrivePolled(g, r).gate.point.Resting?
    ensures var d := g.point.direction;
      ResolveImpulse(DrivePolled(g, r).gate.controls, Impulse) == CommandFor(if NeverLeft(g, r) then d else Opposite(d))
  {
    DrivePolledOk(cfg, g, r);
    DrivePolledLast(cfg, g, r);
    EndsWhereStopped(cfg, g, r);
    SettledAtStart(g.a, g.point.direction, r.a);
    SettledAtStart(g.b, g.point.direction, r.b);
  }

  /**
   * An impulse during a movement. Before the deadline it is taken and ends the
   * movement; from the deadline on it waits in the slot, and the movement is
   * over or has less left to do. Once the movement is over, the next impulse -
   * the one still in the slot, if there is one - repeats its direction if
   * neither leaf had been counted off its start, and reverses it otherwise.
   */
  lemma {:induction false} ImpulseStopsThenReverses(cfg: Config, s: System, r: Reads)
    requires SystemOk(cfg, s) && Enabled(cfg, s, PollGate(r))
    requires s.gate.point.Driving? && s.gate.controls.command == Some(Impulse)
    ensures var g, d := Step(cfg, s, PollGate(r)).gate, s.gate.point.direction;
      && g.pending.None?
      && (if r.wake < s.gate.point.deadline then g.point.Resting? && g.controls.command.None?
          else && g.controls.command == Some(Impulse)
               && (g.point.Driving? ==> g.point.direction == d && D.WorkLeft(g) < D.WorkLeft(s.gate)))
      && (g.point.Resting? ==>
            && AllRelaysLow(g)
            && ResolveImpulse(g.controls, Impulse) == CommandFor(if NeverLeft(s.gate, r) then d else Opposite(d)))
  {
    CountermandedSegment(cfg, s.gate, r);
    var g := DrivePolled(s.gate, r).gate;
    if g.point.Resting? {
      NextImpulse(cfg, s.gate, r);
      DrivePolledOk(cfg, s.gate, r);
    }
  }

  // ----- The direction an impulse reverses -----

  /** The direction of the last movement seen in flight, `Closing` before the first. */
  ghost function LastMovement(cfg: Config, s: System, acts: seq<Action>, last: Direction): Direction
    requires ValidRun(cfg, s, acts)
    decreases |acts|
  {
    if acts == [] then last
    else
      var s' := Step(cfg, s, acts[0]);
      LastMovement(cfg, s', acts[1..], if s'.gate.point.Driving? then s'.gate.point.direction else last)
  }

  ghost predicate LastOk(g: GateView, last: Direction) {
    if g.point.Driving? then g.point.direction == last
    else g.controls.position.Partial? ==> g.controls.lastDirection == last
  }

  /** A leaf that has to move is still under way after the round that plans it. */
  lemma {:induction false} PlannedLeafLasts(cfg: Config, m: MotorState, d: Direction, r: Reads, read: nat)
    requires Sound(cfg) && m.endStopOverrun == cfg.overrun && RunTime(m, d).Some?
    ensures !PollLeaf(m, Plan(m, d, r.plan), d, r.now, read).phase.Done?
  {
  }

  /** The round that begins a movement suspends, unless there was nothing to do from a fully reached end. */
  lemma {:induction false} FirstRoundLast(cfg: Config, g: GateView, d: Direction, r: Reads)
    requires Sound(cfg) && g.a.endStopOverrun == cfg.overrun && g.b.endStopOverrun == cfg.overrun
    requires Blocked(g.controls, d).None? && !(RunTime(g.a, d).None? && RunTime(g.b, d).None?)
    ensures DriveRound(g, d, Plan(g.a, d, r.plan), Plan(g.b, d, r.plan), false, r).gate.point.Driving?
  {
    if RunTime(g.a, d).Some? {
      PlannedLeafLasts(cfg, g.a, d, r, r.a);
    } else {
      PlannedLeafLasts(cfg, g.b, d, r, r.b);
    }
  }

  lemma {:induction false} DriveStartedLast(cfg: Config, g: GateView, d: Direction, r: Reads, last: Direction)
    requires Sound(cfg) && g.point.Resting? && g.a.state.Idle? && g.b.state.Idle?
    requires g.a.endStopOverrun == cfg.overrun && g.b.endStopOverrun == cfg.overrun
    requires g.controls.position == Classify(g.a.position, g.b.position)
    requires LastOk(g, last)
    ensures var g' := DriveStarted(g, d, r).gate;
      LastOk(g', if g'.point.Driving? then g'.point.direction else last)
  {
    var g1 := Notified(g.(controls := DirectionSet(g.controls, d)));
    if Blocked(g.controls, d).None? {
      if RunTime(g.a, d).None? && RunTime(g.b, d).None? {
        assert !Classify(g.a.position, g.b.position).Partial?;
      } else {
        FirstRoundLast(cfg, g1, d, r);
        DriveRoundLast(g1, d, Plan(g.a, d, r.plan), Plan(g.b, d, r.plan), false, r);
      }
    }
  }

  lemma {:induction false} ExecutedLast(cfg: Config, g: GateView, command: GateCommand, r: Reads, last: Direction)
    requires Sound(cfg) && g.point.Resting? && g.a.state.Idle? && g.b.state.Idle?
    requires g.a.endStopOverrun == cfg.overrun && g.b.endStopOverrun == cfg.overrun
    requires g.controls.position == Classify(g.a.position, g.b.position)
    requires LastOk(g, last)
    ensures var g' := Executed(g, command, r).gate;
      LastOk(g', if g'.point.Driving? then g'.point.direction else last)
  {
    DriveStartedLast(cfg, g, Opening, r, last);
    DriveStartedLast(cfg, g, Closing, r, last);
  }

  /** A movement keeps its direction on record until it ends. */
  lemma {:induction false} DrivePolledLast(cfg: Config, g: GateView, r: Reads)
    requires GateOk(cfg, g, r.now) && g.point.Driving?
    ensures var g' := DrivePolled(g, r).gate;
      && g'.controls.lastDirection == g.point.direction
      && (g'.point.Driving? ==> g'.point.direction == g.point.direction)
  {
    var Driving(d, a, b, moved, deadline) := g.point;
    var w := DriveWinner(g.controls, deadline, r.wake);
    if !w.Nothing? && !Interrupts(w, d) {
      DriveRoundLast(Woken(g, w), d, a, b, moved, r);
    }
  }

  lemma {:induction false} DriveRoundLast(g: GateView, d: Direction, a: Phase, b: Phase, moved: bool, r: Reads)
    ensures var g' := DriveRound(g, d, a, b, moved, r).gate;
      && g'.controls.lastDirection == g.controls.lastDirection
      && (g'.point.Driving? ==> g'.point.direction == d)
  {
  }

  lemma {:induction false} RestPolledLast(cfg: Config, g: GateView, r: Reads, last: Direction)
    requires Sound(cfg) && GateOk(cfg, g, r.now) && g.point.Resting? && LastOk(g, last)
    ensures var g' := RestPolled(g, r).gate;
      LastOk(g', if g'.point.Driving? then g'.point.direction else last)
  {
    if g.pending.Some? {
      ExecutedLast(cfg, g.(pending := None), g.pending.value, r, last);
    } else if g.controls.command.Some? {
      ExecutedLast(cfg, g.(controls := g.controls.(command := None)), g.controls.command.value, r, last);
    }
  }

  lemma {:induction false} PolledLast(cfg: Config, g: GateView, r: Reads, last: Direction)
    requires Sound(cfg) && GateOk(cfg, g, r.now) && LastOk(g, last)
    ensures var g' := Polled(g, r).gate;
      LastOk(g', if g'.point.Driving? then g'.point.direction else last)
  {
    if g.point.Driving? {
      DrivePolledLast(cfg, g, r);
    } else {
      RestPolledLast(cfg, g, r, last);
    }
  }

  lemma {:induction false} InputLast(cfg: Config, s: System, act: Action, last: Direction)
    requires LastOk(s.gate, last) && Enabled(cfg, s, act) && !act.PollGate?
    ensures LastOk(Step(cfg, s, act).gate, last)
    ensures Step(cfg, s, act).gate.point == s.gate.point
  {
  }

  lemma {:induction false} LastStep(cfg: Config, s: System, act: Action, last: Direction)
    requires Sound(cfg) && SystemOk(cfg, s) && LastOk(s.gate, last) && Enabled(cfg, s, act)
    ensures var g' := Step(cfg, s, act).gate;
      LastOk(g', if g'.point.Driving? then g'.point.direction else last)
  {
    match act {
      case PollGate(r) => PolledLast(cfg, s.gate, r, last);
      case _ => InputLast(cfg, s, act, last);
    }
  }

  lemma {:induction false} LastRun(cfg: Config, s: System, acts: seq<Action>, last: Direction)
    requires Sound(cfg) && SystemOk(cfg, s) && LastOk(s.gate, last) && ValidRun(cfg, s, acts)
    ensures LastOk(After(cfg, s, acts).gate, LastMovement(cfg, s, acts, last))
    decreases |acts|
  {
    if acts != [] {
      var s' := Step(cfg, s, acts[0]);
      LastStep(cfg, s, acts[0], last);
      StepOk(cfg, s, acts[0]);
      LastRun(cfg, s', acts[1..], if s'.gate.point.Driving? then s'.gate.point.direction else last);
    }
  }

  /** In every run, an impulse at a partial position goes against the last movement. */
  lemma {:induction false} ImpulseAlternates(cfg: Config, c: ControlsState, flash: Option<GateState>, at: nat, acts: seq<Action>)
    requires Sound(cfg) && FreshControls(c) && ValidRun(cfg, Boot(cfg, c, flash, at), acts)
    ensures var s := After(cfg, Boot(cfg, c, flash, at), acts);
      s.gate.point.Resting? && Classify(s.gate.a.position, s.gate.b.position).Partial? ==>
        ResolveImpulse(s.gate.controls, Impulse)
        == CommandFor(Opposite(LastMovement(cfg, Boot(cfg, c, flash, at), acts, Closing)))
  {
    BootOk(cfg, c, flash, at);
    RunOk(cfg, Boot(cfg, c, flash, at), acts);
    LastRun(cfg, Boot(cfg, c, flash, at), acts, Closing);
  }
}
