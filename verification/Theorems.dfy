/** The main results, for every state that any run of the whole system can reach. */
module Theorems {
  import opened Base
  import opened M = MotorModel
  import opened C = ControlsModel
  import opened G = GateModel
  import opened S = SystemModel
  import opened I = GateInvariant
  import opened J = Inputs
  import opened W = WindLock
  import opened Y = Safety
  import opened P = Publishing
  import opened F = Persistence
  import opened L = WarningLight
  import opened O = LeafOrder
  import opened R = Response
  import opened A = Lateness
  import D = Schedule
  import T = Travel
  import N = ImpulseCycle
  import X = Scenarios
  import opened U = Announcing
  import Q = Outgoing

  /** Everything every step keeps. */
  ghost predicate Inv(cfg: Config, s: System) {
    && SystemOk(cfg, s)
    && SafetyOk(s.gate)
    && PublishedOk(s.gate)
    && StoreOk(s)
    && LampOk(cfg, s)
    && OrderOk(cfg, None, s.gate)
    && (Sound(cfg) ==> WindOk(s.gate))
  }

  lemma {:induction false} InvStep(cfg: Config, s: System, act: Action)
    requires Inv(cfg, s) && Enabled(cfg, s, act)
    ensures Inv(cfg, Step(cfg, s, act))
  {
    StepOk(cfg, s, act);
    SafetyStep(cfg, s, act);
    PublishedStep(cfg, s, act);
    StoreStep(cfg, s, act);
    LampStep(cfg, s, act);
    OrderStep(cfg, None, s, act);
    if Sound(cfg) {
      WindStep(cfg, s, act);
    }
  }

  lemma {:induction false} InvBoot(cfg: Config, c: ControlsState, flash: Option<GateState>, at: nat)
    requires FreshControls(c)
    ensures Inv(cfg, Boot(cfg, c, flash, at))
  {
    BootOk(cfg, c, flash, at);
    PublishedBoot(cfg, c, flash, at);
    StoreBoot(cfg, c, flash, at);
    LampBoot(cfg, c, flash, at);
    WindBoot(cfg, c, flash, at);
  }

  lemma {:induction false} InvRun(cfg: Config, s: System, acts: seq<Action>)
    requires Inv(cfg, s) && ValidRun(cfg, s, acts)
    ensures Inv(cfg, After(cfg, s, acts))
    decreases |acts|
  {
    if acts != [] {
      InvStep(cfg, s, acts[0]);
      InvRun(cfg, Step(cfg, s, acts[0]), acts[1..]);
    }
  }

  lemma {:induction false} InvReachable(cfg: Config, s: System)
    requires Reachable(cfg, s)
    ensures Inv(cfg, s)
  {
    var c, flash, at, acts :| RunsTo(cfg, c, flash, at, acts, s);
    InvBoot(cfg, c, flash, at);
    InvRun(cfg, Boot(cfg, c, flash, at), acts);
  }

  // ----- Booting -----

  /** A resting leaf whose two relays have been driven low and never touched since. */
  ghost predicate FreshLeaf(m: MotorState, timing: LeafTiming, position: U8, at: nat) {
    && m.state.Idle? && m.stoppedAt.None? && m.position == position && m.timing == timing
    && m.trace == [PinWrite(Opening, false, at), PinWrite(Closing, false, at)]
  }

  /**
   * A gate never saved boots closed and unlocked with nothing to do; any other
   * boots at the positions in flash, with the wind lock in flash, and with an Open
   * queued if that is engaged. Both relays of both leaves are driven low first,
   * and the state is announced once.
   */
  lemma {:induction false} BootsAsRecorded(cfg: Config, c: ControlsState, flash: Option<GateState>, at: nat)
    ensures var s := Boot(cfg, c, flash, at);
      var locked := flash.Some? && flash.value.windLocked;
      && FreshLeaf(s.gate.a, cfg.leafA, if flash.Some? then flash.value.leafA else 0, at)
      && FreshLeaf(s.gate.b, cfg.leafB, if flash.Some? then flash.value.leafB else 0, at)
      && s.gate.controls.windLocked == locked
      && s.gate.pending == (if locked then Some(Open) else None)
      && s.gate.point.Resting? && s.gate.outbox == Announcement(s.gate)
      && s.store.flash == flash && s.store.saving.None?
  {
    BootOk(cfg, c, flash, at);
    AnnouncementIsState(cfg, Boot(cfg, c, flash, at).gate);
  }

  // ----- Relays -----

  /**
   * In every prefix of each leaf's pin writes the two relays are never both
   * energized and every energizing keeps the reverse pause; a high relay
   * matches the announced direction; outside a movement - so during every
   * flash save - all four are low.
   */
  lemma {:induction false} RelaysAlwaysSafe(cfg: Config, s: System)
    requires Reachable(cfg, s)
    ensures Interlocked(s.gate.a.trace) && Interlocked(s.gate.b.trace)
    ensures PauseRespected(s.gate.a.trace, cfg.pause) && PauseRespected(s.gate.b.trace, cfg.pause)
    ensures forall d :: PinHigh(s.gate.a, d) || PinHigh(s.gate.b, d) ==> s.gate.controls.currentDirection == Some(d)
    ensures s.gate.point.Resting? || s.store.saving.Some? ==> AllRelaysLow(s.gate)
  {
    InvReachable(cfg, s);
  }

  /** A blocked movement has its wake-up pending, and the next segment releases all four relays. */
  lemma {:induction false} NoLostSafetyWakeUp(cfg: Config, s: System, r: Reads)
    requires Reachable(cfg, s) && s.gate.point.Driving?
    requires Blocked(s.gate.controls, s.gate.point.direction).Some?
    ensures s.gate.controls.barrierChanged || s.gate.controls.command.Some?
    ensures Enabled(cfg, s, PollGate(r)) ==>
      var s' := Step(cfg, s, PollGate(r)); s'.gate.point.Resting? && AllRelaysLow(s'.gate)
  {
    InvReachable(cfg, s);
    if Enabled(cfg, s, PollGate(r)) {
      BlockedMovementStops(cfg, s, r);
    }
  }

  ghost predicate StartsOnlyPermitted(c: ControlsState, m: MotorState, m': MotorState) {
    && m.trace <= m'.trace
    && forall i :: |m.trace| <= i < |m'.trace| && m'.trace[i].high ==> MayMove(c, m'.trace[i].relay)
  }

  lemma {:induction false} UnblockedIsPermitted(c: ControlsState, m: MotorState, m': MotorState)
    requires StartsOnlyUnblocked(c, m, m')
    ensures StartsOnlyPermitted(c, m, m')
  {
  }

  /** From any reachable state no action energizes a relay that may not move at that moment. */
  lemma {:induction false} NeverStartsForbidden(cfg: Config, s: System, act: Action)
    requires Reachable(cfg, s) && Enabled(cfg, s, act)
    ensures StartsOnlyPermitted(s.gate.controls, s.gate.a, Step(cfg, s, act).gate.a)
    ensures StartsOnlyPermitted(s.gate.controls, s.gate.b, Step(cfg, s, act).gate.b)
  {
    InvReachable(cfg, s);
    NoStartWhileBlocked(cfg, s, act);
    UnblockedIsPermitted(s.gate.controls, s.gate.a, Step(cfg, s, act).gate.a);
    UnblockedIsPermitted(s.gate.controls, s.gate.b, Step(cfg, s, act).gate.b);
  }

  // ----- The same, in terms of what the inputs last reported -----

  /** The levels the inputs last reported in a run, and the bypass as it is. */
  ghost predicate Permitted(acts: seq<Action>, c: ControlsState, flash: Option<GateState>, bypass: bool, d: Direction) {
    && (LastReport(acts, Barrier1Report, c.barrier1Active) ==> bypass)
    && (d.Closing? && LastReport(acts, Barrier2Report, c.barrier2Active) ==> bypass)
    && (d.Closing? ==> !LastReport(acts, WindReport, flash.Some? && flash.value.windLocked))
  }

  /**
   * In every run from boot the wind lock is engaged if and only if the last of
   * wind guard, reset input and MQTT reset was the wind guard, or none came and
   * the flash record was locked; and each light barrier is as last reported.
   */
  lemma {:induction false} FlagsAreAsReported(cfg: Config, c: ControlsState, flash: Option<GateState>, at: nat, acts: seq<Action>)
    requires ValidRun(cfg, Boot(cfg, c, flash, at), acts)
    ensures var now := After(cfg, Boot(cfg, c, flash, at), acts).gate.controls;
      && now.windLocked == LastReport(acts, WindReport, flash.Some? && flash.value.windLocked)
      && now.barrier1Active == LastReport(acts, Barrier1Report, c.barrier1Active)
      && now.barrier2Active == LastReport(acts, Barrier2Report, c.barrier2Active)
  {
    FlagsFollowReports(cfg, Boot(cfg, c, flash, at), acts);
  }

  lemma {:induction false} PermittedIffMayMove(cfg: Config, c: ControlsState, flash: Option<GateState>, at: nat, acts: seq<Action>, d: Direction)
    requires ValidRun(cfg, Boot(cfg, c, flash, at), acts)
    ensures var now := After(cfg, Boot(cfg, c, flash, at), acts).gate.controls;
      Permitted(acts, c, flash, now.barrierBypass, d) <==> MayMove(now, d)
  {
    FlagsAreAsReported(cfg, c, flash, at, acts);
  }

  ghost predicate OnlyPermittedStarts(acts: seq<Action>, c: ControlsState, flash: Option<GateState>, bypass: bool, m: MotorState, m': MotorState) {
    && m.trace <= m'.trace
    && forall i :: |m.trace| <= i < |m'.trace| && m'.trace[i].high ==> Permitted(acts, c, flash, bypass, m'.trace[i].relay)
  }

  /** In every run, no action energizes a relay against what the light barriers and the wind guard last reported. */
  lemma {:induction false} NothingStartsAgainstInputs(cfg: Config, c: ControlsState, flash: Option<GateState>, at: nat, acts: seq<Action>, act: Action)
    requires FreshControls(c) && ValidRun(cfg, Boot(cfg, c, flash, at), acts)
    requires Enabled(cfg, After(cfg, Boot(cfg, c, flash, at), acts), act)
    ensures var s := After(cfg, Boot(cfg, c, flash, at), acts);
      var g, g' := s.gate, Step(cfg, s, act).gate;
      && OnlyPermittedStarts(acts, c, flash, g.controls.barrierBypass, g.a, g'.a)
      && OnlyPermittedStarts(acts, c, flash, g.controls.barrierBypass, g.b, g'.b)
  {
    var s := After(cfg, Boot(cfg, c, flash, at), acts);
    InvBoot(cfg, c, flash, at);
    InvRun(cfg, Boot(cfg, c, flash, at), acts);
    NoStartWhileBlocked(cfg, s, act);
    forall d
      ensures Permitted(acts, c, flash, s.gate.controls.barrierBypass, d) <==> Blocked(s.gate.controls, d).None?
    {
      PermittedIffMayMove(cfg, c, flash, at, acts, d);
      MayMoveIffUnblocked(s.gate.controls, d);
    }
  }

  /** In every run, a movement the inputs last reported against is over with the gate's next segment. */
  lemma {:induction false} InputsStopMovement(cfg: Config, c: ControlsState, flash: Option<GateState>, at: nat, acts: seq<Action>, r: Reads)
    requires FreshControls(c) && ValidRun(cfg, Boot(cfg, c, flash, at), acts)
    requires var s := After(cfg, Boot(cfg, c, flash, at), acts);
      && s.gate.point.Driving? && Enabled(cfg, s, PollGate(r))
      && !Permitted(acts, c, flash, s.gate.controls.barrierBypass, s.gate.point.direction)
    ensures var g' := Step(cfg, After(cfg, Boot(cfg, c, flash, at), acts), PollGate(r)).gate;
      g'.point.Resting? && AllRelaysLow(g')
  {
    var s := After(cfg, Boot(cfg, c, flash, at), acts);
    InvBoot(cfg, c, flash, at);
    InvRun(cfg, Boot(cfg, c, flash, at), acts);
    PermittedIffMayMove(cfg, c, flash, at, acts, s.gate.point.direction);
    MayMoveIffUnblocked(s.gate.controls, s.gate.point.direction);
    BlockedMovementStops(cfg, s, r);
  }

  /**
   * Between its deadlines a movement that has received nothing, or just its own
   * command again, goes on unchanged if it may, and is over if it may not.
   */
  lemma {:induction false} BarriersStopExactlyWhatTheyShould(cfg: Config, s: System, r: Reads)
    requires Reachable(cfg, s) && s.gate.point.Driving? && Enabled(cfg, s, PollGate(r))
    requires s.gate.controls.command in {None, Some(CommandFor(s.gate.point.direction))}
    requires r.now < s.gate.point.deadline
    ensures var g' := Step(cfg, s, PollGate(r)).gate;
      if MayMove(s.gate.controls, s.gate.point.direction)
      then g'.point == s.gate.point && g'.a == s.gate.a && g'.b == s.gate.b
      else g'.point.Resting? && g'.pending.None? && AllRelaysLow(g')
  {
    InvReachable(cfg, s);
    if MayMove(s.gate.controls, s.gate.point.direction) {
      EarlyPollKeepsMoving(s.gate, r);
    } else {
      BlockedMovementStops(cfg, s, r);
      EarlyPollKeepsNothingPending(s.gate, r);
    }
  }

  lemma {:induction false} EarlyPollKeepsMoving(g: GateView, r: Reads)
    requires g.point.Driving? && g.controls.command in {None, Some(CommandFor(g.point.direction))}
    requires MayMove(g.controls, g.point.direction)
    requires Earliest(Deadline(g.point.a), Deadline(g.point.b)) == Some(g.point.deadline)
    requires r.wake <= r.now < g.point.deadline
    ensures var g' := DrivePolled(g, r).gate;
      g'.point == g.point && g'.a == g.a && g'.b == g.b
  {
    var w := DriveWinner(g.controls, g.point.deadline, r.wake);
    assert Blocked(Woken(g, w).controls, g.point.direction).None?;
    var x := PollLeaf(g.a, g.point.a, g.point.direction, r.now, r.a);
    var y := PollLeaf(g.b, g.point.b, g.point.direction, r.now, r.b);
    assert x.phase == g.point.a && y.phase == g.point.b;
  }

  lemma {:induction false} EarlyPollKeepsNothingPending(g: GateView, r: Reads)
    requires g.point.Driving? && g.controls.command in {None, Some(CommandFor(g.point.direction))}
    requires g.pending.None?
    ensures DrivePolled(g, r).gate.pending.None?
  {
    var w := DriveWinner(g.controls, g.point.deadline, r.wake);
    assert !Interrupts(w, g.point.direction);
    RoundHandsNothingBack(Woken(g, w), g.point.direction, g.point.a, g.point.b, g.point.moved, r);
  }

  lemma {:induction false} RoundHandsNothingBack(g: GateView, d: Direction, a: Phase, b: Phase, moved: bool, r: Reads)
    requires g.pending.None?
    ensures DriveRound(g, d, a, b, moved, r).gate.pending.None?
  {
  }

  /**
   * Any other command ends the movement: before the deadline at once, with the
   * command obeyed. From the deadline on the timer goes first; the command is
   * kept, and the movement is over or has less left to do.
   */
  lemma {:induction false} CommandEndsMovement(cfg: Config, s: System, r: Reads)
    requires Reachable(cfg, s) && Enabled(cfg, s, PollGate(r)) && Countermanded(s.gate)
    ensures var g' := Step(cfg, s, PollGate(r)).gate;
      && (g'.point.Resting? ==> AllRelaysLow(g'))
      && (if r.wake < s.gate.point.deadline then g'.point.Resting? && CommandObeyed(s.gate, g')
          else && CommandKept(s.gate, g')
               && (g'.point.Driving? ==> Countermanded(g') && D.WorkLeft(g') < D.WorkLeft(s.gate)))
  {
    ReachableOk(cfg, s);
    CountermandedSegment(cfg, s.gate, r);
    DrivePolledOk(cfg, s.gate, r);
  }

  /**
   * In every run, whatever the readings and the other inputs, a movement is over
   * no later than the fourth segment after a command other than its own was
   * queued, unless its own is queued again.
   */
  lemma {:induction false} CommandEndsWithinFourSegments(cfg: Config, s: System, acts: seq<Action>)
    requires Reachable(cfg, s) && Countermanded(s.gate) && ValidRun(cfg, s, acts)
    requires NeverRenewed(acts, s.gate.point.direction) && GatePolls(acts) >= 4
    ensures EndsWithin(cfg, s, acts, 4)
  {
    ReachableOk(cfg, s);
    DrivingHasWork(cfg, s.gate);
    CountermandedRun(cfg, s, acts);
    EndsSooner(cfg, s, acts, D.WorkLeft(s.gate), 4);
  }

  /** A drive that may start, with a leaf that has to move, suspends in its own direction. */
  lemma {:induction false} PermittedDriveMoves(cfg: Config, g: GateView, d: Direction, r: Reads)
    requires Sound(cfg) && g.a.endStopOverrun == cfg.overrun && g.b.endStopOverrun == cfg.overrun
    requires MayMove(g.controls, d) && (RunTime(g.a, d).Some? || RunTime(g.b, d).Some?)
    ensures var g' := DriveStarted(g, d, r).gate;
      && g'.point.Driving? && g'.point.direction == d
      && g'.pending == g.pending && g'.controls.command == g.controls.command
  {
    MayMoveIffUnblocked(g.controls, d);
    var g1 := Notified(g.(controls := DirectionSet(g.controls, d)));
    N.FirstRoundLast(cfg, g1, d, r);
    RoundEnds(g1, d, Plan(g.a, d, r.plan), Plan(g.b, d, r.plan), false, r);
  }

  /** A handed-back command runs next, ahead of anything queued since, if it may and has something to move. */
  lemma {:induction false} HandedBackCommandRuns(cfg: Config, s: System, r: Reads, d: Direction)
    requires Sound(cfg) && Reachable(cfg, s) && Enabled(cfg, s, PollGate(r))
    requires s.gate.point.Resting? && s.gate.pending == Some(CommandFor(d)) && MayMove(s.gate.controls, d)
    requires RunTime(s.gate.a, d).Some? || RunTime(s.gate.b, d).Some?
    ensures var g' := Step(cfg, s, PollGate(r)).gate;
      && g'.point.Driving? && g'.point.direction == d && g'.pending.None?
      && g'.controls.command == s.gate.controls.command
  {
    InvReachable(cfg, s);
    var g1 := s.gate.(pending := None);
    assert Polled(s.gate, r) == DriveStarted(g1, d, r);
    PermittedDriveMoves(cfg, g1, d, r);
  }

  /**
   * A wind lock reset during a movement is announced by the segment that takes it,
   * and the movement goes on.
   */
  lemma {:induction false} ResetIsAnnouncedAtOnce(cfg: Config, s: System, r: Reads)
    requires Reachable(cfg, s) && s.gate.point.Driving? && Enabled(cfg, s, PollGate(r))
    requires r.now < s.gate.point.deadline && s.gate.controls.windLockReset
    requires s.gate.controls.command.None? && !s.gate.controls.barrierChanged
    ensures var g' := Step(cfg, s, PollGate(r)).gate;
      && g'.point == s.gate.point && !g'.controls.windLockReset
      && g'.outbox == s.gate.outbox + Announcement(s.gate) && Announcement(g') == Announcement(s.gate)
  {
    InvReachable(cfg, s);
    MayMoveIffUnblocked(s.gate.controls, s.gate.point.direction);
    EarlyPollKeepsMoving(s.gate, r);
    ResetPoll(s.gate, r);
    AnnouncementIsState(cfg, s.gate);
  }

  lemma {:induction false} ResetPoll(g: GateView, r: Reads)
    requires g.point.Driving? && r.wake < g.point.deadline && g.controls.windLockReset
    requires g.controls.command.None? && !g.controls.barrierChanged
    requires DrivePolled(g, r).gate.point == g.point
    ensures var g' := DrivePolled(g, r).gate;
      && g'.controls == g.controls.(windLockReset := false)
      && g'.outbox == g.outbox + StateMessages(g.controls)
  {
    var w := DriveWinner(g.controls, g.point.deadline, r.wake);
    assert w == ResetSignal;
    RoundKeepsControls(Woken(g, w), g.point.direction, g.point.a, g.point.b, g.point.moved, r);
  }

  lemma {:induction false} RoundKeepsControls(g: GateView, d: Direction, a: Phase, b: Phase, moved: bool, r: Reads)
    requires DriveRound(g, d, a, b, moved, r).gate.point.Driving?
    ensures var g' := DriveRound(g, d, a, b, moved, r).gate; g'.controls == g.controls && g'.outbox == g.outbox
  {
  }

  /** What a segment that goes on makes of one leaf: a due one starts for its planned time, a finished one stops. */
  ghost predicate Served(m: MotorState, phase: Phase, d: Direction, now: nat, read: nat, m': MotorState, phase': Phase) {
    match phase
    case Waiting(at) =>
      if at <= now then phase' == Energized(now + T.PlannedTicks(m, d)) && m'.state == Running(d, read) && PinHigh(m', d)
      else m' == m && phase' == phase
    case Energized(until) =>
      if until <= now then phase'.Done? && m'.state.Idle? && m'.stoppedAt == Some(read) && !m'.openHigh && !m'.closeHigh
      else m' == m && phase' == phase
    case Done => m' == m && phase'.Done?
  }

  lemma {:induction false} LeafServed(cfg: Config, m: MotorState, phase: Phase, d: Direction, now: nat, read: nat)
    requires Sound(cfg) && m.endStopOverrun == cfg.overrun && LeafOk(cfg, m, phase, d)
    ensures var p := PollLeaf(m, phase, d, now, read); Served(m, phase, d, now, read, p.motor, p.phase)
  {
    T.RunTimeIsPlanned(m, d);
  }

  /** A segment woken by the deadline that goes on serves each leaf by its loop reading. */
  lemma {:induction false} DeadlineServesLeaves(cfg: Config, s: System, r: Reads)
    requires Sound(cfg) && Reachable(cfg, s) && s.gate.point.Driving? && Enabled(cfg, s, PollGate(r))
    requires s.gate.point.deadline <= r.wake && Step(cfg, s, PollGate(r)).gate.point.Driving?
    ensures var g, g' := s.gate, Step(cfg, s, PollGate(r)).gate;
      && g'.point.direction == g.point.direction
      && Served(g.a, g.point.a, g.point.direction, r.now, r.a, g'.a, g'.point.a)
      && Served(g.b, g.point.b, g.point.direction, r.now, r.b, g'.b, g'.point.b)
  {
    ReachableOk(cfg, s);
    var g := s.gate;
    LeafServed(cfg, g.a, g.point.a, g.point.direction, r.now, r.a);
    LeafServed(cfg, g.b, g.point.b, g.point.direction, r.now, r.b);
    RoundServes(Woken(g, Timer), g.point.direction, g.point.a, g.point.b, g.point.moved, r);
  }

  lemma {:induction false} RoundServes(g: GateView, d: Direction, a: Phase, b: Phase, moved: bool, r: Reads)
    requires DriveRound(g, d, a, b, moved, r).gate.point.Driving?
    ensures var g' := DriveRound(g, d, a, b, moved, r).gate;
      var x, y := PollLeaf(g.a, a, d, r.now, r.a), PollLeaf(g.b, b, d, r.now, r.b);
      && g'.point.direction == d
      && g'.a == x.motor && g'.point.a == x.phase && g'.b == y.motor && g'.point.b == y.phase
  {
  }

  /**
   * A movement waits for its deadline, a command, a barrier change and a wind lock
   * reset, in this order: a segment that goes on takes the first that is there
   * and leaves the others for the next.
   */
  lemma {:induction false} FirstReadyIsTaken(cfg: Config, s: System, r: Reads)
    requires s.gate.point.Driving? && Enabled(cfg, s, PollGate(r))
    requires Step(cfg, s, PollGate(r)).gate.point.Driving?
    ensures var c, c' := s.gate.controls, Step(cfg, s, PollGate(r)).gate.controls;
      if s.gate.point.deadline <= r.wake then c' == c
      else if c.command.Some? then c' == c.(command := None)
      else if c.barrierChanged then c' == c.(barrierChanged := false)
      else c' == c.(windLockReset := false)
  {
    var g := s.gate;
    var w := DriveWinner(g.controls, g.point.deadline, r.wake);
    if !w.Nothing? && !Interrupts(w, g.point.direction) {
      RoundKeepsControls(Woken(g, w), g.point.direction, g.point.a, g.point.b, g.point.moved, r);
    }
  }

  lemma {:induction false} ConfiguredOverruns(cfg: Config, s: System)
    requires Reachable(cfg, s)
    ensures s.gate.a.endStopOverrun == cfg.overrun && s.gate.b.endStopOverrun == cfg.overrun
  {
    ReachableOk(cfg, s);
  }

  /** A command for direction `d` taken at rest moves that way, if it may and has to. */
  lemma {:induction false} CommandAtRestMoves(cfg: Config, g: GateView, d: Direction, r: Reads)
    requires Sound(cfg) && g.a.endStopOverrun == cfg.overrun && g.b.endStopOverrun == cfg.overrun
    requires g.point.Resting? && g.pending.None? && g.controls.command == Some(CommandFor(d))
    requires MayMove(g.controls, d) && (RunTime(g.a, d).Some? || RunTime(g.b, d).Some?)
    ensures var g' := Polled(g, r).gate; g'.point.Driving? && g'.point.direction == d
  {
    var g1 := g.(controls := g.controls.(command := None));
    assert Polled(g, r) == DriveStarted(g1, d, r);
    PermittedDriveMoves(cfg, g1, d, r);
  }

  /** An MQTT open or close reaches an unlocked gate at rest: its next segment moves that way, if it may and has to. */
  lemma {:induction false} MqttCommandMovesGate(cfg: Config, s: System, d: Direction, r: Reads)
    requires Sound(cfg) && Reachable(cfg, s) && s.gate.point.Resting? && s.gate.pending.None?
    requires !s.gate.controls.windLocked && MayMove(s.gate.controls, d)
    requires RunTime(s.gate.a, d).Some? || RunTime(s.gate.b, d).Some?
    requires Enabled(cfg, s, PollGate(r))
    ensures var s1 := Step(cfg, s, Mqtt(if d.Opening? then MqttOpen else MqttClose));
      && Enabled(cfg, s1, PollGate(r))
      && var g' := Step(cfg, s1, PollGate(r)).gate; g'.point.Driving? && g'.point.direction == d
  {
    ConfiguredOverruns(cfg, s);
    var s1 := Step(cfg, s, Mqtt(if d.Opening? then MqttOpen else MqttClose));
    assert s1.gate == s.gate.(controls := s.gate.controls.(command := Some(CommandFor(d))));
    CommandAtRestMoves(cfg, s1.gate, d, r);
  }

  /**
   * An MQTT stop during a movement: ignored under the wind lock; otherwise it
   * ends the movement in the next segment before the deadline, and within four
   * segments in every run that does not queue the movement's direction again.
   */
  lemma {:induction false} MqttStopStopsGate(cfg: Config, s: System, acts: seq<Action>)
    requires Reachable(cfg, s) && s.gate.point.Driving?
    requires ValidRun(cfg, Step(cfg, s, Mqtt(MqttStop)), acts)
    requires NeverRenewed(acts, s.gate.point.direction) && GatePolls(acts) >= 4
    ensures var s1 := Step(cfg, s, Mqtt(MqttStop));
      if s.gate.controls.windLocked then s1 == s
      else
        && EndsWithin(cfg, s1, acts, 4)
        && (acts[0].PollGate? && acts[0].readings.wake < s.gate.point.deadline ==>
              var g' := Step(cfg, s1, acts[0]).gate; g'.point.Resting? && g'.pending.None? && g'.controls.command.None?)
  {
    ReachableStep(cfg, s, Mqtt(MqttStop));
    var s1 := Step(cfg, s, Mqtt(MqttStop));
    if !s.gate.controls.windLocked {
      assert s1.gate == s.gate.(controls := s.gate.controls.(command := Some(Stop)));
      CommandEndsWithinFourSegments(cfg, s1, acts);
      if acts[0].PollGate? {
        CommandEndsMovement(cfg, s1, acts[0].readings);
      }
    }
  }

  /** A movement that ends undisturbed leaves both leaves at the end it was going to. */
  lemma {:induction false} MovementCompletes(cfg: Config, s: System, r: Reads)
    requires Sound(cfg) && Reachable(cfg, s) && s.gate.point.Driving? && Enabled(cfg, s, PollGate(r))
    requires D.Undisturbed(s.gate, r) && Step(cfg, s, PollGate(r)).gate.point.Resting?
    ensures var g' := Step(cfg, s, PollGate(r)).gate;
      Remaining(g'.a, s.gate.point.direction) == 0 && Remaining(g'.b, s.gate.point.direction) == 0
  {
    ReachableOk(cfg, s);
    UndisturbedEnd(cfg, s.gate, r);
  }

  // ----- Wind lock -----

  /**
   * While the wind lock is engaged the gate is open, opening or about to open,
   * unless and only unless it is stranded: barrier 1 has refused the Open and is
   * still interrupted. Then the gate may open if and only if the bypass is
   * armed - and nothing will make it, until `WindLock.Releases`.
   */
  lemma {:induction false} WindLockIsPursued(cfg: Config, s: System)
    requires Sound(cfg) && Reachable(cfg, s) && s.gate.controls.windLocked
    ensures PursuesOpen(s.gate)
    ensures s.gate.controls.command in {None, Some(Open)}
    ensures OnItsWay(s.gate) <==> !Stranded(s.gate)
    ensures Stranded(s.gate) ==>
      && s.gate.controls.barrier1Active
      && (MayMove(s.gate.controls, Opening) <==> s.gate.controls.barrierBypass)
  {
    InvReachable(cfg, s);
  }

  /** Some segment of the run found the forced opening blocked by barrier 1. */
  ghost predicate RefusedSomewhere(cfg: Config, s: System, acts: seq<Action>)
    requires ValidRun(cfg, s, acts)
    decreases |acts|
  {
    acts != [] &&
    (|| (acts[0].PollGate? && s.gate.controls.windLocked && Blocked(s.gate.controls, Opening) == Some(LightBarrier1))
     || RefusedSomewhere(cfg, Step(cfg, s, acts[0]), acts[1..]))
  }

  lemma {:induction false} StrandedRun(cfg: Config, s: System, acts: seq<Action>)
    requires Sound(cfg) && Inv(cfg, s) && ValidRun(cfg, s, acts)
    requires !Stranded(s.gate) && Stranded(After(cfg, s, acts).gate)
    ensures RefusedSomewhere(cfg, s, acts)
    decreases |acts|
  {
    var s' := Step(cfg, s, acts[0]);
    if Stranded(s'.gate) {
      StrandedOnlyByRefusal(cfg, s, acts[0]);
    } else {
      InvStep(cfg, s, acts[0]);
      StrandedRun(cfg, s', acts[1..]);
    }
  }

  /**
   * No gate boots stranded, and one that is stranded has been refused by barrier 1:
   * in every run it became so in a segment that found the opening blocked by it,
   * never by an input, nor while the barrier was clear or bypassed.
   */
  lemma {:induction false} OnlyBarrier1Strands(cfg: Config, c: ControlsState, flash: Option<GateState>, at: nat, acts: seq<Action>)
    requires Sound(cfg) && FreshControls(c) && ValidRun(cfg, Boot(cfg, c, flash, at), acts)
    requires Stranded(After(cfg, Boot(cfg, c, flash, at), acts).gate)
    ensures RefusedSomewhere(cfg, Boot(cfg, c, flash, at), acts)
  {
    InvBoot(cfg, c, flash, at);
    StrandedRun(cfg, Boot(cfg, c, flash, at), acts);
  }

  /** Under the lock an open, close, stop or impulse changes nothing at all. */
  lemma {:induction false} IgnoredUnderLock(cfg: Config, s: System, act: Action)
    requires s.gate.controls.windLocked && act in {PressImpulse, Mqtt(MqttOpen), Mqtt(MqttClose), Mqtt(MqttStop)}
    ensures Step(cfg, s, act) == s
  {
  }

  ghost predicate NoReset(acts: seq<Action>) {
    WindReset !in acts && Mqtt(ResetWindLock) !in acts
  }

  ghost predicate OnlyOpenings(m: MotorState, m': MotorState) {
    m.trace <= m'.trace && forall i :: |m.trace| <= i < |m'.trace| && m'.trace[i].high ==> m'.trace[i].relay == Opening
  }

  lemma {:induction false} OnlyOpeningsChain(m: MotorState, m1: MotorState, m2: MotorState)
    requires OnlyOpenings(m, m1) && OnlyOpenings(m1, m2)
    ensures OnlyOpenings(m, m2)
  {
  }

  lemma {:induction false} LockedStep(cfg: Config, s: System, act: Action)
    requires SystemOk(cfg, s) && s.gate.controls.windLocked && Enabled(cfg, s, act)
    ensures OnlyOpenings(s.gate.a, Step(cfg, s, act).gate.a) && OnlyOpenings(s.gate.b, Step(cfg, s, act).gate.b)
  {
    NoStartWhileBlocked(cfg, s, act);
    assert Blocked(s.gate.controls, Closing).Some?;
  }

  lemma {:induction false} LockedRun(cfg: Config, s: System, acts: seq<Action>)
    requires SystemOk(cfg, s) && s.gate.controls.windLocked && ValidRun(cfg, s, acts) && NoReset(acts)
    ensures var s' := After(cfg, s, acts);
      && s'.gate.controls.windLocked
      && OnlyOpenings(s.gate.a, s'.gate.a) && OnlyOpenings(s.gate.b, s'.gate.b)
    decreases |acts|
  {
    if acts != [] {
      var s', last := Step(cfg, s, acts[0]), After(cfg, s, acts);
      LockedStep(cfg, s, acts[0]);
      StepReports(cfg, s, acts[0]);
      StepOk(cfg, s, acts[0]);
      LockedRun(cfg, s', acts[1..]);
      OnlyOpeningsChain(s.gate.a, s'.gate.a, last.gate.a);
      OnlyOpeningsChain(s.gate.b, s'.gate.b, last.gate.b);
    }
  }

  /**
   * Once the wind guard has tripped, in every run without a reset since: the lock
   * holds, nothing but Open is queued, no relay for closing is energized, and a
   * movement that was closing is over with the next segment.
   */
  lemma {:induction false} NothingClosesInStorm(cfg: Config, s: System, acts: seq<Action>, r: Reads)
    requires Sound(cfg) && Reachable(cfg, s)
    requires ValidRun(cfg, Step(cfg, s, WindGuard), acts) && NoReset(acts)
    ensures var s1 := Step(cfg, s, WindGuard);
      var s2 := After(cfg, s1, acts);
      && s2.gate.controls.windLocked && s2.gate.controls.command in {None, Some(Open)}
      && OnlyOpenings(s1.gate.a, s2.gate.a) && OnlyOpenings(s1.gate.b, s2.gate.b)
      && (s2.gate.point.Driving? && s2.gate.point.direction.Closing? && Enabled(cfg, s2, PollGate(r)) ==>
            Step(cfg, s2, PollGate(r)).gate.point.Resting?)
  {
    var s1 := Step(cfg, s, WindGuard);
    var s2 := After(cfg, s1, acts);
    InvReachable(cfg, s);
    InvStep(cfg, s, WindGuard);
    InvRun(cfg, s1, acts);
    LockedRun(cfg, s1, acts);
    if s2.gate.point.Driving? && s2.gate.point.direction.Closing? && Enabled(cfg, s2, PollGate(r)) {
      BlockedMovementStops(cfg, s2, r);
    }
  }

  /** Locked and permitted to open, a forced opening cannot be disturbed by anything. */
  lemma {:induction false} ForcedOpeningIsUndisturbed(cfg: Config, s: System, r: Reads)
    requires Sound(cfg) && Reachable(cfg, s) && s.gate.controls.windLocked && MayMove(s.gate.controls, Opening)
    requires s.gate.point.Driving? && s.gate.point.direction.Opening?
    ensures D.Undisturbed(s.gate, r)
  {
    InvReachable(cfg, s);
  }

  /** Whatever the skew and however late its segments, a forced opening that is permitted ends fully open. */
  lemma {:induction false} ForcedOpeningEndsOpen(cfg: Config, s: System, r: Reads)
    requires Sound(cfg) && Reachable(cfg, s) && s.gate.controls.windLocked && MayMove(s.gate.controls, Opening)
    requires s.gate.point.Driving? && s.gate.point.direction.Opening?
    requires Enabled(cfg, s, PollGate(r)) && Step(cfg, s, PollGate(r)).gate.point.Resting?
    ensures BothOpen(Step(cfg, s, PollGate(r)).gate)
  {
    ForcedOpeningIsUndisturbed(cfg, s, r);
    MovementCompletes(cfg, s, r);
  }

  /**
   * A locked gate that rests, may open and is not open begins to open with its
   * next segment, or with the one after a handed-back close is refused - except
   * that once stranded behind barrier 1 it stays so after the bypass is armed.
   */
  lemma {:induction false} ForcedOpeningBegins(cfg: Config, s: System, r: Reads)
    requires Sound(cfg) && Reachable(cfg, s) && s.gate.controls.windLocked && MayMove(s.gate.controls, Opening)
    requires s.gate.point.Resting? && !BothOpen(s.gate) && Enabled(cfg, s, PollGate(r))
    ensures var g' := Step(cfg, s, PollGate(r)).gate;
      if Stranded(s.gate) then s.gate.controls.barrier1Active && s.gate.controls.barrierBypass && Stranded(g')
      else
        || D.Begins(cfg, s, Opening, r)
        || (&& s.gate.pending == Some(Close) && g'.point.Resting?
            && D.WillExecute(g', Opening) && Blocked(g'.controls, Opening).None?)
  {
    InvReachable(cfg, s);
    MayMoveIffUnblocked(s.gate.controls, Opening);
    if Stranded(s.gate) {
      PolledStranded(cfg, s.gate, r);
    } else if s.gate.pending == Some(Close) {
      CloseRefused(s.gate, r);
    }
  }

  /** Under the lock a handed-back close is dropped, and the queued Open is next. */
  lemma {:induction false} CloseRefused(g: GateView, r: Reads)
    requires g.point.Resting? && g.pending == Some(Close) && g.controls.windLocked
    requires g.controls.command == Some(Open) && Blocked(g.controls, Opening).None?
    ensures var g' := Polled(g, r).gate;
      g'.point.Resting? && D.WillExecute(g', Opening) && Blocked(g'.controls, Opening).None?
  {
    assert Polled(g, r) == Finished(g.(pending := None));
  }

  /** A run of a forced opening: locked and permitted throughout, polled at most `late` after its deadlines. */
  ghost predicate ForcedRun(cfg: Config, s: System, acts: seq<Action>, late: nat)
    decreases |acts|
  {
    acts == [] ||
    (&& s.gate.point.Driving? && s.gate.controls.windLocked && MayMove(s.gate.controls, Opening)
     && Enabled(cfg, s, acts[0]) && Punctual(s, acts[0], late)
     && ForcedRun(cfg, Step(cfg, s, acts[0]), acts[1..], late))
  }

  lemma {:induction false} ForcedRunIsUndisturbed(cfg: Config, s: System, acts: seq<Action>, late: nat)
    requires Sound(cfg) && Inv(cfg, s) && ForcedRun(cfg, s, acts, late)
    requires s.gate.point.Driving? ==> s.gate.point.direction.Opening?
    ensures PunctualRun(cfg, s, acts, late) && ValidRun(cfg, s, acts)
    decreases |acts|
  {
    if acts != [] {
      InvStep(cfg, s, acts[0]);
      if acts[0].PollGate? {
        DrivePolledMoves(cfg, s.gate, acts[0].readings);
      }
      ForcedRunIsUndisturbed(cfg, Step(cfg, s, acts[0]), acts[1..], late);
    }
  }

  /**
   * The forced opening arrives: begun from the wind trigger's Open, one handed
   * back by an interrupted closing or one restored at boot, and polled no more
   * than `late` after its deadlines while the lock holds and barrier 1 is clear or
   * bypassed, it is over by the end of its schedule plus twice the slack, with
   * both leaves fully open - whatever else happens meanwhile.
   */
  lemma {:induction false} ForcedOpeningArrives(cfg: Config, s: System, r: Reads, acts: seq<Action>, late: nat)
    requires Sound(cfg) && Reachable(cfg, s) && D.Begins(cfg, s, Opening, r)
    requires ForcedRun(cfg, Step(cfg, s, PollGate(r)), acts, late)
    ensures var s1 := Step(cfg, s, PollGate(r));
      && ValidRun(cfg, s1, acts)
      && var s2 := After(cfg, s1, acts);
      && s2.now <= D.EndOf(D.Movement(Opening, s.gate.a, s.gate.b, r.plan)) + 2 * (late + cfg.skew)
      && (s2.gate.point.Resting? ==> BothOpen(s2.gate))
  {
    InvReachable(cfg, s);
    InvStep(cfg, s, PollGate(r));
    OpeningBegun(cfg, s, r);
    ForcedRunIsUndisturbed(cfg, Step(cfg, s, PollGate(r)), acts, late);
    LateMovementArrives(cfg, s, Opening, r, acts, late);
  }

  lemma {:induction false} OpeningBegun(cfg: Config, s: System, r: Reads)
    requires SystemOk(cfg, s) && D.Begins(cfg, s, Opening, r)
    ensures var g' := Step(cfg, s, PollGate(r)).gate; g'.point.Driving? ==> g'.point.direction.Opening?
  {
    BeginsNear(cfg, s, Opening, r, cfg.skew);
  }

  // ----- Published and persisted state -----

  /** Steps on which the gate has something to say: a movement begins or ends, a reset is taken, the bypass changes, the broker is back. */
  ghost predicate MustAnnounce(cfg: Config, s: System, act: Action)
    requires Enabled(cfg, s, act)
  {
    var g, g' := s.gate, Step(cfg, s, act).gate;
    match act
    case Republish => true
    case ArmBypass => true
    case Mqtt(command) => command.SetBarrierBypass?
    case PollGate(_) =>
      || g.point.Resting? != g'.point.Resting?
      || (g.controls.windLockReset && !g'.controls.windLockReset)
    case _ => false
  }

  /**
   * Whenever the gate must announce its state it does, and whatever it announces
   * ends with its state as it then is - movement or position, wind lock and
   * bypass, in the topics and payloads the broker sees.
   */
  lemma {:induction false} AnnouncementsAreTrue(cfg: Config, s: System, act: Action)
    requires Reachable(cfg, s) && Enabled(cfg, s, act)
    ensures var o, g' := s.gate.outbox, Step(cfg, s, act).gate;
      && (MustAnnounce(cfg, s, act) ==> |o| < |g'.outbox|)
      && (g'.outbox != o ==> EndsWith(g'.outbox, Announcement(g')))
  {
    ReachableOk(cfg, s);
    StepOk(cfg, s, act);
    AnnouncingStep(cfg, s, act);
    DueStep(cfg, s, act);
  }

  lemma {:induction false} AnnouncingStep(cfg: Config, s: System, act: Action)
    requires SystemOk(cfg, s) && Enabled(cfg, s, act) && SystemOk(cfg, Step(cfg, s, act))
    ensures var g' := Step(cfg, s, act).gate; g'.outbox != s.gate.outbox ==> EndsWith(g'.outbox, Announcement(g'))
  {
    StepAnnouncesState(cfg, s, act);
    AnnouncementIsState(cfg, Step(cfg, s, act).gate);
  }

  lemma {:induction false} DueStep(cfg: Config, s: System, act: Action)
    requires Enabled(cfg, s, act)
    ensures MustAnnounce(cfg, s, act) ==> |s.gate.outbox| < |Step(cfg, s, act).gate.outbox|
  {
    if MustAnnounce(cfg, s, act) && act.PollGate? {
      PolledAnnouncesChange(s.gate, act.readings);
    }
  }

  /** The state of the gate at its last announcement in the run, `g` before it. */
  ghost function LastSpoken(cfg: Config, s: System, acts: seq<Action>, g: GateView): GateView
    requires ValidRun(cfg, s, acts)
    decreases |acts|
  {
    if acts == [] then g
    else
      var s' := Step(cfg, s, acts[0]);
      LastSpoken(cfg, s', acts[1..], if s'.gate.outbox == s.gate.outbox then g else s'.gate)
  }

  lemma {:induction false} SpokenRun(cfg: Config, s: System, acts: seq<Action>, g: GateView)
    requires SystemOk(cfg, s) && ValidRun(cfg, s, acts) && EndsWith(s.gate.outbox, Announcement(g))
    ensures EndsWith(After(cfg, s, acts).gate.outbox, Announcement(LastSpoken(cfg, s, acts, g)))
    decreases |acts|
  {
    if acts != [] {
      var s' := Step(cfg, s, acts[0]);
      StepOk(cfg, s, acts[0]);
      AnnouncingStep(cfg, s, acts[0]);
      SpokenRun(cfg, s', acts[1..], if s'.gate.outbox == s.gate.outbox then g else s'.gate);
    }
  }

  /** In every run the last three messages state the gate as it was at its last announcement, the wind lock included. */
  lemma {:induction false} LastMessagesWereTrue(cfg: Config, c: ControlsState, flash: Option<GateState>, at: nat, acts: seq<Action>)
    requires ValidRun(cfg, Boot(cfg, c, flash, at), acts)
    ensures var s0 := Boot(cfg, c, flash, at);
      EndsWith(After(cfg, s0, acts).gate.outbox, Announcement(LastSpoken(cfg, s0, acts, s0.gate)))
  {
    var s0 := Boot(cfg, c, flash, at);
    BootOk(cfg, c, flash, at);
    AnnouncementIsState(cfg, s0.gate);
    assert s0.gate.outbox == StateMessages(s0.gate.controls);
    SpokenRun(cfg, s0, acts, s0.gate);
  }

  /**
   * At rest with nothing outstanding, the last three messages tell the truth:
   * closed exactly when both leaves are fully closed, and the wind lock and
   * bypass as they are.
   */
  lemma {:induction false} PublishedStateIsCurrent(cfg: Config, s: System)
    requires Reachable(cfg, s) && s.gate.point.Resting?
    requires s.gate.controls.command.None? && !s.gate.controls.windLockReset
    ensures EndsWith(s.gate.outbox, Announcement(s.gate))
  {
    InvReachable(cfg, s);
    AnnouncementIsState(cfg, s.gate);
  }

  /** At rest with nothing outstanding, not drained since the last announcement, and with at most 13 newer messages. */
  ghost predicate Quiet(l: Link) {
    && l.system.gate.point.Resting? && l.system.gate.controls.command.None? && !l.system.gate.controls.windLockReset
    && !l.drained && l.newer <= 13
  }

  /** All three are delivered or queued, in order behind the same earlier messages. */
  ghost predicate StateKept(l: Link) {
    && l.newer + 3 <= |l.channel.published|
    && forall i :: 0 <= i < 3 ==> MessageKept(l, Announcement(l.system.gate), i)
  }

  ghost predicate MessageKept(l: Link, messages: seq<Message>, i: nat)
    requires i < |messages| && l.newer + 3 <= |l.channel.published|
  {
    Q.Kept(l.channel, |l.channel.published| - l.newer - 3 + i, messages[i])
  }

  lemma {:induction false} LinkKeepsState(cfg: Config, l: Link)
    requires Reachable(cfg, l.system) && LinkOk(l)
    ensures Quiet(l) ==> StateKept(l)
  {
    if Quiet(l) {
      PublishedStateIsCurrent(cfg, l.system);
      forall i | 0 <= i < 3
        ensures l.newer + 3 <= |l.channel.published| && MessageKept(l, Announcement(l.system.gate), i)
      {
        LastAnnouncementKept(l, Announcement(l.system.gate), i);
      }
    }
  }

  /**
   * The current state reaches the broker or waits to. In every interleaving of the
   * controller with other publishers, the sender and reconnects, behind whatever
   * was queued before it started: at rest with nothing outstanding, the three
   * messages that state the gate as it is are delivered or queued, until the
   * queue is drained by a reconnect or 14 newer messages have been published.
   */
  lemma {:induction false} CurrentStateIsKept(cfg: Config, c: ControlsState, flash: Option<GateState>, at: nat, before: Q.Channel<Message>, es: seq<LinkStep>)
    requires FreshControls(c) && Q.ChannelOk(before) && ValidLinkRun(cfg, LinkBoot(cfg, c, flash, at, before), es)
    ensures var l := LinkAfter(cfg, LinkBoot(cfg, c, flash, at, before), es);
      Quiet(l) ==> StateKept(l)
  {
    BootIsAnnounced(cfg, c, flash, at);
    StartedRunOk(cfg, Boot(cfg, c, flash, at), before, es);
    LinkKeepsState(cfg, LinkAfter(cfg, LinkBoot(cfg, c, flash, at, before), es));
  }

  lemma {:induction false} BootIsAnnounced(cfg: Config, c: ControlsState, flash: Option<GateState>, at: nat)
    requires FreshControls(c)
    ensures Reachable(cfg, Boot(cfg, c, flash, at)) && |Boot(cfg, c, flash, at).gate.outbox| == 3
  {
    ReachableBoot(cfg, c, flash, at);
  }

  /** During a movement the announced cover state is its direction, and the announced bypass is current. */
  lemma {:induction false} PublishedMovementIsCurrent(cfg: Config, s: System)
    requires Reachable(cfg, s) && s.gate.point.Driving?
    ensures |s.gate.outbox| >= 3
    ensures s.gate.outbox[|s.gate.outbox| - 3]
         == Message("mqtt_gate/cover/state", if s.gate.point.direction.Opening? then "opening" else "closing")
    ensures s.gate.outbox[|s.gate.outbox| - 1]
         == Message("mqtt_gate/barrier_bypass/state", if s.gate.controls.barrierBypass then "ON" else "OFF")
  {
    InvReachable(cfg, s);
    var tail := s.gate.outbox[|s.gate.outbox| - 3..];
    assert s.gate.outbox[|s.gate.outbox| - 3] == tail[0] && s.gate.outbox[|s.gate.outbox| - 1] == tail[2];
  }

  /** The same leaf positions and the same wind lock. */
  ghost predicate Resumes(booted: GateView, g: GateView) {
    && booted.a.position == g.a.position && booted.b.position == g.b.position
    && booted.controls.windLocked == g.controls.windLocked
  }

  /**
   * Flash always holds what the gate task believes. At rest a reboot resumes
   * exactly if and only if that is the last settled state with the wind lock as it
   * is now; a lock changed since leaves a signal behind that settles the gate again.
   */
  lemma {:induction false} RebootReproducesState(cfg: Config, s: System, c: ControlsState, at: nat)
    requires Reachable(cfg, s)
    ensures LoadOrDefault(s.store.flash) == s.store.saved
    ensures s.gate.point.Resting? ==>
      (Resumes(Boot(cfg, c, s.store.flash, at).gate, s.gate) <==>
       s.store.saved == s.store.settled.(windLocked := s.gate.controls.windLocked))
    ensures s.gate.point.Resting? && s.gate.controls.windLocked != s.store.settled.windLocked ==>
      s.gate.controls.command.Some? || s.gate.controls.windLockReset
  {
    InvReachable(cfg, s);
  }

  ghost predicate Faultless(acts: seq<Action>) {
    FinishSave(false) !in acts
  }

  /** Without failed saves, whatever has settled is in flash or being saved. */
  lemma {:induction false} FaultlessRun(cfg: Config, s: System, acts: seq<Action>)
    requires Inv(cfg, s) && SavedOrSaving(s.store) && ValidRun(cfg, s, acts) && Faultless(acts)
    ensures SavedOrSaving(After(cfg, s, acts).store)
    decreases |acts|
  {
    if acts != [] {
      SavingStep(cfg, s, acts[0]);
      InvStep(cfg, s, acts[0]);
      FaultlessRun(cfg, Step(cfg, s, acts[0]), acts[1..]);
    }
  }

  /**
   * In every run without a failed save: at rest with no save in progress and no
   * command or reset outstanding, a power loss loses nothing - booting from flash
   * restores both positions and the wind lock.
   */
  lemma {:induction false} PowerLossAtRestLosesNothing(cfg: Config, c: ControlsState, flash: Option<GateState>, at: nat, acts: seq<Action>, c': ControlsState, at': nat)
    requires FreshControls(c) && ValidRun(cfg, Boot(cfg, c, flash, at), acts) && Faultless(acts)
    requires var s := After(cfg, Boot(cfg, c, flash, at), acts);
      && s.gate.point.Resting? && s.store.saving.None?
      && s.gate.controls.command.None? && !s.gate.controls.windLockReset
    ensures var s := After(cfg, Boot(cfg, c, flash, at), acts);
      Resumes(Boot(cfg, c', s.store.flash, at').gate, s.gate)
  {
    var s0 := Boot(cfg, c, flash, at);
    InvBoot(cfg, c, flash, at);
    InvRun(cfg, s0, acts);
    FaultlessRun(cfg, s0, acts);
  }

  // ----- Warning light and leaf order -----

  /** The lamp task is parked in the dark, and while the gate moves or the bypass is armed never without a wake-up pending. */
  lemma {:induction false} LampNeverMissesActivity(cfg: Config, s: System)
    requires Reachable(cfg, s) && s.lamp.parked
    ensures !s.lamp.lit
    ensures s.gate.point.Driving? || s.gate.controls.barrierBypass ==> s.gate.controls.lightChanged
  {
    InvReachable(cfg, s);
  }

  /**
   * However late its segments, in the installation leaf A is never energized after
   * B when opening, nor B more than the skew of one segment after A when closing.
   */
  lemma {:induction false} InstalledLeavesKeepOrder(skew: nat, s: System)
    requires Reachable(Installed(skew), s) && s.gate.point.Driving?
    ensures s.gate.point.direction.Opening? ==> InOrder(0, 0, s.gate.a, s.gate.point.a, s.gate.b, s.gate.point.b)
    ensures s.gate.point.direction.Closing? ==> InOrder(skew, 0, s.gate.b, s.gate.point.b, s.gate.a, s.gate.point.a)
  {
    InvReachable(Installed(skew), s);
    InstalledOrder(skew);
  }

  /**
   * The documented order holds throughout every run of the installation whose
   * segments are at most `late` late if and only if that is less than 2 s, or the
   * clock does not advance within a segment.
   */
  lemma {:induction false} DocumentedOrderIff(skew: nat, late: nat)
    ensures (forall s :: ReachableOnTime(Installed(skew), Some(late), s) ==> DocumentedOrder(s.gate))
       <==> late < FromMillis(2000) || skew == 0
  {
    if late < FromMillis(2000) || skew == 0 {
      forall s | ReachableOnTime(Installed(skew), Some(late), s)
        ensures DocumentedOrder(s.gate)
      {
        PromptLeavesKeepOrder(skew, late, s);
      }
    } else {
      var s := X.LatePollSwapsLeaves(skew, late);
    }
  }
}
