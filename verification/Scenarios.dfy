/** Concrete runs of the installation, each reaching a state where documented behaviour fails. */
module Scenarios {
  import opened Base
  import opened M = MotorModel
  import opened C = ControlsModel
  import opened G = GateModel
  import opened S = SystemModel
  import opened O = LeafOrder
  import W = WindLock

  /** A segment all of whose clock readings are `t`. */
  function At(t: nat): Reads { Reads(t, t, t, t, t) }

  /** Booted at instant 0 with both leaves at `position` and the wind lock off. */
  function Booted(skew: nat, position: U8): System {
    Boot(Installed(skew), NewControls(), Some(GateState(position, position, false)), 0)
  }

  /** A leaf at `position` that is not running, last released at `stoppedAt`. */
  ghost predicate Rests(m: MotorState, timing: LeafTiming, position: U8, stoppedAt: Option<nat>) {
    && m.state.Idle? && !m.openHigh && !m.closeHigh && m.position == position && m.stoppedAt == stoppedAt
    && m.timing == timing && m.endStopOverrun == FromMillis(1000) && m.reversePause == FromMillis(1000)
  }

  /** Unlocked, clear of both barriers, and without any signal but the slot's `command`. */
  ghost predicate Clear(c: ControlsState, command: Option<GateCommand>) {
    && c.command == command && !c.windLocked && !c.barrier1Active && !c.barrier2Active
    && !c.barrierChanged && !c.windLockReset
  }

  /** At rest with nothing left to save. */
  ghost predicate AtRest(s: System, position: U8, command: Option<GateCommand>) {
    && s.now == 0 && s.gate.point.Resting? && s.gate.pending.None? && Clear(s.gate.controls, command)
    && s.store.saving.None? && s.store.saved == GateState(position, position, false)
  }

  lemma {:induction false} BootsAtRest(skew: nat, position: U8, late: nat) returns (s: System)
    ensures ReachableOnTime(Installed(skew), Some(late), s) && AtRest(s, position, None)
    ensures s.store.flash == Some(GateState(position, position, false))
    ensures Rests(s.gate.a, LEAF_A, position, None) && Rests(s.gate.b, LEAF_B, position, None)
    ensures s.gate.controls.position == Classify(position, position)
  {
    s := Booted(skew, position);
    OnTimeBoot(Installed(skew), Some(late), NewControls(), Some(GateState(position, position, false)), 0);
  }

  // ----- The leaf order fails by the skew of one segment -----

  /** From fully open, a close at instant 0 starts leaf B at once and leaves A waiting. */
  lemma {:induction false} CloseStarts(g: GateView)
    requires g.point.Resting? && g.pending.None? && Clear(g.controls, Some(Close))
    requires Rests(g.a, LEAF_A, 255, None) && Rests(g.b, LEAF_B, 255, None)
    ensures var g' := Polled(g, At(0)).gate;
      && g'.point == Driving(Closing, Waiting(3000000), Energized(16000000), true, 3000000)
      && g'.a == g.a && g'.b == Started(g.b, Closing, 0)
      && Clear(g'.controls, None) && g'.pending.None? && Polled(g, At(0)).snapshot.None?
  {
  }

  /** Stopped at the same instant, B has not moved but owes its reverse pause. */
  lemma {:induction false} StopTaken(g: GateView, b: MotorState)
    requires g.point == Driving(Closing, Waiting(3000000), Energized(16000000), true, 3000000)
    requires Rests(g.a, LEAF_A, 255, None) && Rests(b, LEAF_B, 255, None) && g.b == Started(b, Closing, 0)
    requires Clear(g.controls, Some(Stop)) && g.pending.None?
    ensures var o := Polled(g, At(0));
      && o.gate.point.Resting? && o.gate.pending.None? && Clear(o.gate.controls, None)
      && Rests(o.gate.a, LEAF_A, 255, None) && Rests(o.gate.b, LEAF_B, 255, Some(0))
      && o.snapshot == Some(Snapshot(255, 255, false))
  {
  }

  lemma {:induction false} CloseWaits(g: GateView)
    requires g.point.Resting? && g.pending.None? && Clear(g.controls, Some(Close))
    requires Rests(g.a, LEAF_A, 255, None) && Rests(g.b, LEAF_B, 255, Some(0))
    ensures var g' := Polled(g, At(0)).gate;
      && g'.point == Driving(Closing, Waiting(3000000), Waiting(1000000), false, 1000000)
      && g'.a == g.a && g'.b == g.b && Clear(g'.controls, None) && Polled(g, At(0)).snapshot.None?
  {
  }

  lemma {:induction false} BothDue(g: GateView)
    requires g.point == Driving(Closing, Waiting(3000000), Waiting(1000000), false, 1000000)
    requires Rests(g.a, LEAF_A, 255, None) && Rests(g.b, LEAF_B, 255, Some(0)) && Clear(g.controls, None)
    ensures !DocumentedOrder(Polled(g, Reads(3000000, 3000000, 3000000, 3000000, 3000001)).gate)
  {
  }

  /** A close begun at instant 0, leaf B started and A waiting. */
  lemma {:induction false} ClosesFromOpen(skew: nat, late: nat) returns (s: System, b: MotorState)
    ensures ReachableOnTime(Installed(skew), Some(late), s) && s.now == 0
    ensures s.store.saving.None? && s.store.saved == GateState(255, 255, false)
    ensures s.gate.point == Driving(Closing, Waiting(3000000), Energized(16000000), true, 3000000)
    ensures Rests(s.gate.a, LEAF_A, 255, None) && Rests(b, LEAF_B, 255, None) && s.gate.b == Started(b, Closing, 0)
    ensures Clear(s.gate.controls, None) && s.gate.pending.None?
  {
    var cfg := Installed(skew);
    s := BootsAtRest(skew, 255, late);
    b := s.gate.b;
    OnTimeStep(cfg, Some(late), s, Mqtt(MqttClose));
    s := Step(cfg, s, Mqtt(MqttClose));
    CloseStarts(s.gate);
    OnTimeStep(cfg, Some(late), s, PollGate(At(0)));
    s := Step(cfg, s, PollGate(At(0)));
  }

  /** The stop of that close is in the slot. */
  lemma {:induction false} StopQueued(skew: nat, late: nat) returns (s: System, b: MotorState)
    ensures ReachableOnTime(Installed(skew), Some(late), s) && s.now == 0
    ensures s.store.saving.None? && s.store.saved == GateState(255, 255, false)
    ensures s.gate.point == Driving(Closing, Waiting(3000000), Energized(16000000), true, 3000000)
    ensures Rests(s.gate.a, LEAF_A, 255, None) && Rests(b, LEAF_B, 255, None) && s.gate.b == Started(b, Closing, 0)
    ensures Clear(s.gate.controls, Some(Stop)) && s.gate.pending.None?
  {
    s, b := ClosesFromOpen(skew, late);
    OnTimeStep(Installed(skew), Some(late), s, Mqtt(MqttStop));
    s := Step(Installed(skew), s, Mqtt(MqttStop));
  }

  /** A close begun and stopped at once: leaf B owes its reverse pause, and nothing has changed in flash. */
  lemma {:induction false} CloseThenStop(skew: nat, late: nat) returns (s: System)
    ensures ReachableOnTime(Installed(skew), Some(late), s) && AtRest(s, 255, None)
    ensures Rests(s.gate.a, LEAF_A, 255, None) && Rests(s.gate.b, LEAF_B, 255, Some(0))
  {
    var b;
    s, b := StopQueued(skew, late);
    StopTaken(s.gate, b);
    OnTimeStep(Installed(skew), Some(late), s, PollGate(At(0)));
    s := Step(Installed(skew), s, PollGate(At(0)));
  }

  /** Closing again at once, leaf B waits out its reverse pause and A its delay. */
  lemma {:induction false} ClosesAgain(skew: nat, late: nat) returns (s: System)
    ensures ReachableOnTime(Installed(skew), Some(late), s) && s.now == 0 && s.store.saving.None?
    ensures s.gate.point == Driving(Closing, Waiting(3000000), Waiting(1000000), false, 1000000)
    ensures Rests(s.gate.a, LEAF_A, 255, None) && Rests(s.gate.b, LEAF_B, 255, Some(0)) && Clear(s.gate.controls, None)
  {
    var cfg := Installed(skew);
    s := CloseThenStop(skew, late);
    OnTimeStep(cfg, Some(late), s, Mqtt(MqttClose));
    s := Step(cfg, s, Mqtt(MqttClose));
    CloseWaits(s.gate);
    OnTimeStep(cfg, Some(late), s, PollGate(At(0)));
    s := Step(cfg, s, PollGate(At(0)));
  }

  /**
   * Closing again within the reverse pause, and then polled exactly 2 s late, when
   * leaf A is due as well, the gate energizes A one tick before B.
   */
  lemma {:induction false} LatePollSwapsLeaves(skew: nat, late: nat) returns (s: System)
    requires skew > 0 && late >= FromMillis(2000)
    ensures ReachableOnTime(Installed(skew), Some(late), s) && !DocumentedOrder(s.gate)
  {
    var cfg := Installed(skew);
    s := ClosesAgain(skew, late);
    OnTimeStep(cfg, Some(late), s, Tick(3000000));
    s := Step(cfg, s, Tick(3000000));
    BothDue(s.gate);
    var r := Reads(3000000, 3000000, 3000000, 3000000, 3000001);
    OnTimeStep(cfg, Some(late), s, PollGate(r));
    s := Step(cfg, s, PollGate(r));
  }

  // ----- A press repeats the movement, and a due timer goes ahead of a stop -----

  /** From fully closed, an open or a press at instant 0 starts leaf A at once and leaves B waiting. */
  lemma {:induction false} OpenStarts(g: GateView, command: GateCommand)
    requires g.point.Resting? && g.pending.None? && Clear(g.controls, Some(command)) && command in {Open, Impulse}
    requires Rests(g.a, LEAF_A, 0, None) && Rests(g.b, LEAF_B, 0, None) && g.controls.position.FullyClosed?
    ensures var g' := Polled(g, At(0)).gate;
      && g'.point == Driving(Opening, Energized(16000000), Waiting(3000000), true, 3000000)
      && g'.a == Started(g.a, Opening, 0) && g'.b == g.b
      && Clear(g'.controls, None) && g'.pending.None? && Polled(g, At(0)).snapshot.None?
  {
  }

  lemma {:induction false} OpensFromClosed(skew: nat, command: GateCommand) returns (s: System, a: MotorState)
    requires command in {Open, Impulse}
    ensures Reachable(Installed(skew), s) && s.now == 0 && s.store.saving.None?
    ensures s.gate.point == Driving(Opening, Energized(16000000), Waiting(3000000), true, 3000000)
    ensures Rests(a, LEAF_A, 0, None) && s.gate.a == Started(a, Opening, 0) && Rests(s.gate.b, LEAF_B, 0, None)
    ensures Clear(s.gate.controls, None) && s.store.flash == Some(GateState(0, 0, false))
  {
    var cfg := Installed(skew);
    s := BootsAtRest(skew, 0, 0);
    OnTimeIsReachable(cfg, Some(0), s);
    a := s.gate.a;
    var act := if command == Open then Mqtt(MqttOpen) else PressImpulse;
    ReachableStep(cfg, s, act);
    s := Step(cfg, s, act);
    OpenStarts(s.gate, command);
    ReachableStep(cfg, s, PollGate(At(0)));
    s := Step(cfg, s, PollGate(At(0)));
  }

  /** Pressed again at the same instant, the gate stops where it was and is still fully closed. */
  lemma {:induction false} PressTaken(g: GateView, a: MotorState)
    requires g.point == Driving(Opening, Energized(16000000), Waiting(3000000), true, 3000000)
    requires Rests(a, LEAF_A, 0, None) && g.a == Started(a, Opening, 0) && Rests(g.b, LEAF_B, 0, None)
    requires Clear(g.controls, Some(Impulse))
    ensures var g' := Polled(g, At(0)).gate;
      g'.point.Resting? && g'.controls.position.FullyClosed?
  {
  }

  /** Two presses at the same instant: leaf A was energized, and yet the third press opens again. */
  lemma {:induction false} ThirdPressRepeats(skew: nat) returns (s: System)
    ensures Reachable(Installed(skew), s) && Enabled(Installed(skew), s, PollGate(At(0)))
    ensures s.gate.point.Driving? && s.gate.point.direction.Opening? && s.gate.a.openHigh
    ensures s.gate.controls.command == Some(Impulse)
    ensures var g' := Step(Installed(skew), s, PollGate(At(0))).gate;
      g'.point.Resting? && ResolveImpulse(g'.controls, Impulse) == Open
  {
    var a;
    s, a := OpensFromClosed(skew, Impulse);
    ReachableStep(Installed(skew), s, PressImpulse);
    s := Step(Installed(skew), s, PressImpulse);
    PressTaken(s.gate, a);
  }

  lemma {:induction false} DueLeafStarts(g: GateView, a: MotorState)
    requires g.point == Driving(Opening, Energized(16000000), Waiting(3000000), true, 3000000)
    requires Rests(a, LEAF_A, 0, None) && g.a == Started(a, Opening, 0) && Rests(g.b, LEAF_B, 0, None)
    requires Clear(g.controls, Some(Stop))
    ensures Polled(g, At(3000000)).gate.b.openHigh
  {
  }

  /** With a stop in the slot, a segment that finds the other leaf due still energizes it. */
  lemma {:induction false} DueLeafStartsDespiteStop(skew: nat) returns (s: System)
    ensures Reachable(Installed(skew), s) && Enabled(Installed(skew), s, PollGate(At(3000000)))
    ensures s.gate.point.Driving? && s.gate.controls.command == Some(Stop) && !s.gate.b.openHigh
    ensures Step(Installed(skew), s, PollGate(At(3000000))).gate.b.openHigh
  {
    var cfg := Installed(skew);
    var a;
    s, a := OpensFromClosed(skew, Open);
    ReachableStep(cfg, s, Mqtt(MqttStop));
    s := Step(cfg, s, Mqtt(MqttStop));
    ReachableStep(cfg, s, Tick(3000000));
    s := Step(cfg, s, Tick(3000000));
    DueLeafStarts(s.gate, a);
  }

  // ----- A power loss during a movement -----

  /** Five seconds into an opening the flash still says closed, while stopping there would find leaf A a third open. */
  lemma {:induction false} PowerLossForgetsMovement(skew: nat) returns (s: System)
    ensures Reachable(Installed(skew), s) && s.gate.point.Driving? && s.now == 5000000
    ensures Settled(s.gate.a, s.now).position == 85
    ensures LoadOrDefault(s.store.flash) == GateState(0, 0, false)
  {
    var a;
    s, a := OpensFromClosed(skew, Open);
    ReachableStep(Installed(skew), s, Tick(5000000));
    s := Step(Installed(skew), s, Tick(5000000));
    TravelledIn5s(a);
  }

  lemma {:induction false} TravelledIn5s(a: MotorState)
    requires Rests(a, LEAF_A, 0, None)
    ensures Settled(Started(a, Opening, 0), 5000000).position == 85
  {
  }

  // ----- A wind lock that nothing pursues -----

  /** The wind guard trips behind an interrupted barrier 1: the opening is refused, and the lock saved. */
  lemma {:induction false} LockRefused(skew: nat) returns (s: System)
    ensures Reachable(Installed(skew), s) && W.Stranded(s.gate) && s.store.saving.None?
    ensures s.gate.a.position == 0 == s.gate.b.position && s.gate.controls.barrier1Active && s.gate.pending.None?
  {
    var cfg, c := Installed(skew), NewControls().(barrier1Active := true, barrierChanged := true);
    s := Boot(cfg, c, Some(GateState(0, 0, false)), 0);
    ReachableBoot(cfg, c, Some(GateState(0, 0, false)), 0);
    ReachableStep(cfg, s, WindGuard);
    s := Step(cfg, s, WindGuard);
    RefusedByBarrier1(s.gate);
    ReachableStep(cfg, s, PollGate(At(0)));
    s := Step(cfg, s, PollGate(At(0)));
    if s.store.saving.Some? {
      ReachableStep(cfg, s, FinishSave(true));
      s := Step(cfg, s, FinishSave(true));
    }
  }

  lemma {:induction false} RefusedByBarrier1(g: GateView)
    requires g.point.Resting? && g.pending.None? && g.controls.command == Some(Open)
    requires g.controls.windLocked && g.controls.barrier1Active && !g.controls.barrierBypass
    requires g.a.position == 0 == g.b.position
    ensures var g' := Polled(g, At(0)).gate;
      && W.Stranded(g') && g'.pending.None? && g'.controls.barrier1Active
      && g'.a.position == 0 == g'.b.position
  {
  }

  /**
   * Then the bypass is armed: the gate is locked, closed and free to open, and yet
   * nothing is queued, so that no further poll moves it.
   */
  lemma {:induction false} BypassStrandsLock(skew: nat) returns (s: System)
    ensures Reachable(Installed(skew), s)
    ensures s.gate.controls.windLocked && MayMove(s.gate.controls, Opening)
    ensures W.Stranded(s.gate) && !W.OnItsWay(s.gate)
  {
    s := LockRefused(skew);
    ReachableStep(Installed(skew), s, ArmBypass);
    s := Step(Installed(skew), s, ArmBypass);
  }
}
