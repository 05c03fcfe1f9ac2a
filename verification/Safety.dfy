/** Light barriers and wind lock: no lost wake-up, no start while blocked. */
module Safety {
  import opened Base
  import opened M = MotorModel
  import opened C = ControlsModel
  import opened G = GateModel
  import opened S = SystemModel
  import opened I = GateInvariant

  // ----- What a segment writes to the pins -----

  /** The trace only grows, and a relay is energized only in direction `d`. */
  ghost predicate Writes(m: MotorState, m': MotorState, d: Direction) {
    && m.trace <= m'.trace
    && forall i :: |m.trace| <= i < |m'.trace| && m'.trace[i].high ==> m'.trace[i].relay == d
  }

  ghost predicate Energizes(m: MotorState, m': MotorState) {
    exists i :: |m.trace| <= i < |m'.trace| && m'.trace[i].high
  }

  lemma {:induction false} SettledWrites(m: MotorState, now: nat, d: Direction)
    ensures Writes(m, Settled(m, now), d) && !Energizes(m, Settled(m, now))
  {
  }

  lemma {:induction false} StartedWrites(m: MotorState, d: Direction, now: nat)
    requires m.state.Idle?
    ensures Writes(m, Started(m, d, now), d) && Energizes(m, Started(m, d, now))
  {
    var m' := Started(m, d, now);
    assert m'.trace == m.trace + [PinWrite(Opposite(d), false, now), PinWrite(d, true, now)];
    assert m'.trace[|m.trace| + 1].high;
  }

  lemma {:induction false} WritesChain(m: MotorState, m1: MotorState, m2: MotorState, d: Direction)
    requires Writes(m, m1, d) && Writes(m1, m2, d)
    ensures Writes(m, m2, d)
    ensures Energizes(m, m2) <==> Energizes(m, m1) || Energizes(m1, m2)
  {
    if Energizes(m, m1) {
      var i :| |m.trace| <= i < |m1.trace| && m1.trace[i].high;
      assert m2.trace[i].high;
    }
  }

  /** A leaf reports `moved` exactly when its relay was energized, and a stop after it changes nothing. */
  lemma {:induction false} PollLeafWrites(cfg: Config, m: MotorState, phase: Phase, d: Direction, now: nat, read: nat)
    requires LeafOk(cfg, m, phase, d)
    ensures var p := PollLeaf(m, phase, d, now, read);
      && Writes(m, p.motor, d) && (p.moved <==> Energizes(m, p.motor))
      && Writes(m, Settled(p.motor, read), d) && (p.moved <==> Energizes(m, Settled(p.motor, read)))
  {
    var begun := BeginLeaf(m, phase, d, now, read);
    if begun.moved {
      StartedWrites(m, d, read);
    }
    SettledWrites(begun.motor, read, d);
    WritesChain(m, begun.motor, Settled(begun.motor, read), d);
  }

  ghost predicate GateWrites(g: GateView, g': GateView, d: Direction) {
    Writes(g.a, g'.a, d) && Writes(g.b, g'.b, d)
  }

  ghost predicate GateEnergizes(g: GateView, g': GateView) {
    Energizes(g.a, g'.a) || Energizes(g.b, g'.b)
  }

  /** What a movement's segment does to pins, bypass and the `moved` flag. */
  ghost predicate MovementStep(g: GateView, g': GateView, d: Direction, moved: bool) {
    && GateWrites(g, g', d)
    && (GateEnergizes(g, g') ==> Blocked(g.controls, d).None?)
    && g'.controls.barrierBypass == (
         if g'.point.Resting? && (moved || GateEnergizes(g, g')) then false else g.controls.barrierBypass)
    && (g'.point.Driving? ==>
          g'.point.direction == d && (g'.point.moved <==> moved || GateEnergizes(g, g')))
  }

  lemma {:induction false} DriveEndedMoves(g: GateView, moved: bool, result: Option<GateCommand>, r: Reads, d: Direction)
    ensures MovementStep(g, DriveEnded(g, moved, result, r).gate, d, moved)
  {
    SettledWrites(g.a, r.a, d);
    SettledWrites(g.b, r.b, d);
  }

  /** A round energizes in its direction only, and never while that direction is blocked. */
  lemma {:induction false} DriveRoundMoves(cfg: Config, g: GateView, d: Direction, a: Phase, b: Phase, moved: bool, r: Reads)
    requires LeafOk(cfg, g.a, a, d) && LeafOk(cfg, g.b, b, d)
    ensures MovementStep(g, DriveRound(g, d, a, b, moved, r).gate, d, moved)
  {
    if Blocked(g.controls, d).Some? {
      DriveEndedMoves(g, moved, None, r, d);
    } else {
      PollLeafWrites(cfg, g.a, a, d, r.now, r.a);
      PollLeafWrites(cfg, g.b, b, d, r.now, r.b);
      RoundEnds(g, d, a, b, moved, r);
    }
  }

  /** Taking a signal or announcing a state does not change what a movement step is. */
  lemma {:induction false} SameMovement(g: GateView, g1: GateView, g': GateView, d: Direction, moved: bool)
    requires MovementStep(g1, g', d, moved)
    requires g1.a == g.a && g1.b == g.b && g1.controls.barrierBypass == g.controls.barrierBypass
    requires Blocked(g1.controls, d) == Blocked(g.controls, d)
    ensures MovementStep(g, g', d, moved)
  {
  }

  lemma {:induction false} DrivePolledMoves(cfg: Config, g: GateView, r: Reads)
    requires PointOk(cfg, g) && g.point.Driving?
    ensures MovementStep(g, DrivePolled(g, r).gate, g.point.direction, g.point.moved)
  {
    var Driving(d, a, b, moved, deadline) := g.point;
    var w := DriveWinner(g.controls, deadline, r.wake);
    var g1 := Woken(g, w);
    if Interrupts(w, d) {
      DriveEndedMoves(g1, moved, HandedBack(w.command), r, d);
      SameMovement(g, g1, DrivePolled(g, r).gate, d, moved);
    } else if !w.Nothing? {
      DriveRoundMoves(cfg, g1, d, a, b, moved, r);
      SameMovement(g, g1, DrivePolled(g, r).gate, d, moved);
    }
  }

  lemma {:induction false} ExecutedMoves(cfg: Config, g: GateView, command: GateCommand, r: Reads) returns (d: Direction)
    requires g.a.state.Idle? && g.b.state.Idle? && g.point.Resting?
    ensures MovementStep(g, Executed(g, command, r).gate, d, false)
  {
    var resolved := ResolveImpulse(g.controls, command);
    d := if resolved.Open? then Opening else Closing;
    if resolved == CommandFor(d) && Blocked(g.controls, d).None? {
      PlanOk(cfg, g.a, d, r.plan);
      PlanOk(cfg, g.b, d, r.plan);
      var g1 := Notified(g.(controls := DirectionSet(g.controls, d)));
      DriveRoundMoves(cfg, g1, d, Plan(g.a, d, r.plan), Plan(g.b, d, r.plan), false, r);
      SameMovement(g, g1, Executed(g, command, r).gate, d, false);
    }
  }

  /** Every segment is a movement step in some direction, continuing the one in flight if there is one. */
  lemma {:induction false} PolledMoves(cfg: Config, g: GateView, r: Reads) returns (d: Direction)
    requires PointOk(cfg, g)
    ensures MovementStep(g, Polled(g, r).gate, d, g.point.Driving? && g.point.moved)
  {
    d := Opening;
    if g.point.Driving? {
      DrivePolledMoves(cfg, g, r);
      d := g.point.direction;
    } else if g.pending.Some? {
      d := ExecutedMoves(cfg, g.(pending := None), g.pending.value, r);
      SameMovement(g, g.(pending := None), Polled(g, r).gate, d, false);
    } else if g.controls.command.Some? {
      var g1 := g.(controls := g.controls.(command := None));
      d := ExecutedMoves(cfg, g1, g.controls.command.value, r);
      SameMovement(g, g1, Polled(g, r).gate, d, false);
    }
  }

  // ----- No start while blocked -----

  /** Each relay energized between `m` and `m'` was free to be under the controls `c`. */
  ghost predicate StartsOnlyUnblocked(c: ControlsState, m: MotorState, m': MotorState) {
    && m.trace <= m'.trace
    && forall i :: |m.trace| <= i < |m'.trace| && m'.trace[i].high ==> Blocked(c, m'.trace[i].relay).None?
  }

  /** No step of any kind energizes a relay whose direction is blocked at that moment. */
  lemma {:induction false} NoStartWhileBlocked(cfg: Config, s: System, act: Action)
    requires SystemOk(cfg, s) && Enabled(cfg, s, act)
    ensures StartsOnlyUnblocked(s.gate.controls, s.gate.a, Step(cfg, s, act).gate.a)
    ensures StartsOnlyUnblocked(s.gate.controls, s.gate.b, Step(cfg, s, act).gate.b)
  {
    if act.PollGate? {
      var d := PolledMoves(cfg, s.gate, act.readings);
    }
  }

  // ----- No lost wake-up -----

  /** A blocked movement always has a signal pending that will make it look. */
  ghost predicate SafetyOk(g: GateView) {
    g.point.Driving? && Blocked(g.controls, g.point.direction).Some? ==>
      g.controls.barrierChanged || g.controls.command.Some?
  }

  lemma {:induction false} DriveRoundSafe(g: GateView, d: Direction, a: Phase, b: Phase, moved: bool, r: Reads)
    ensures var g' := DriveRound(g, d, a, b, moved, r).gate;
      && (g'.point.Driving? ==> g'.point.direction == d && Blocked(g'.controls, d).None?)
      && (Blocked(g.controls, d).Some? ==> g'.point.Resting?)
  {
  }

  lemma {:induction false} DrivePolledSafe(g: GateView, r: Reads)
    requires SafetyOk(g) && g.point.Driving?
    ensures SafetyOk(DrivePolled(g, r).gate)
    ensures Blocked(g.controls, g.point.direction).Some? ==> DrivePolled(g, r).gate.point.Resting?
  {
    var Driving(d, a, b, moved, deadline) := g.point;
    var w := DriveWinner(g.controls, deadline, r.wake);
    if !w.Nothing? && !Interrupts(w, d) {
      DriveRoundSafe(Woken(g, w), d, a, b, moved, r);
    }
  }

  lemma {:induction false} DriveStartedSafe(g: GateView, d: Direction, r: Reads)
    requires g.point.Resting?
    ensures SafetyOk(DriveStarted(g, d, r).gate)
  {
    var g1 := Notified(g.(controls := DirectionSet(g.controls, d)));
    DriveRoundSafe(g1, d, Plan(g.a, d, r.plan), Plan(g.b, d, r.plan), false, r);
  }

  lemma {:induction false} ExecutedSafe(g: GateView, command: GateCommand, r: Reads)
    requires g.point.Resting?
    ensures SafetyOk(Executed(g, command, r).gate)
  {
    DriveStartedSafe(g, Opening, r);
    DriveStartedSafe(g, Closing, r);
  }

  lemma {:induction false} PolledSafe(g: GateView, r: Reads)
    requires SafetyOk(g)
    ensures SafetyOk(Polled(g, r).gate)
  {
    if g.point.Driving? {
      DrivePolledSafe(g, r);
    } else if g.pending.Some? {
      ExecutedSafe(g.(pending := None), g.pending.value, r);
    } else if g.controls.command.Some? {
      ExecutedSafe(g.(controls := g.controls.(command := None)), g.controls.command.value, r);
    }
  }

  lemma {:induction false} SafetyStep(cfg: Config, s: System, act: Action)
    requires SafetyOk(s.gate) && Enabled(cfg, s, act)
    ensures SafetyOk(Step(cfg, s, act).gate)
  {
    if act.PollGate? {
      PolledSafe(s.gate, act.readings);
    }
  }

  ghost predicate AllRelaysLow(g: GateView) {
    !g.a.openHigh && !g.a.closeHigh && !g.b.openHigh && !g.b.closeHigh
  }

  /** Once a movement is blocked, the gate's next segment ends it with all four relays low. */
  lemma {:induction false} BlockedMovementStops(cfg: Config, s: System, r: Reads)
    requires SystemOk(cfg, s) && SafetyOk(s.gate) && Enabled(cfg, s, PollGate(r))
    requires s.gate.point.Driving? && Blocked(s.gate.controls, s.gate.point.direction).Some?
    ensures var s' := Step(cfg, s, PollGate(r));
      s'.gate.point.Resting? && AllRelaysLow(s'.gate)
  {
    DrivePolledSafe(s.gate, r);
    PolledOk(cfg, s.gate, r);
  }
}
