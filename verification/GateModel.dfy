/**
 * The gate task between two awaits, as functions on values. A poll of it
 * runs one atomic segment: from the idle wait or from the suspended drive up
 * to the next suspension or to the settled end of the step.
 */
module GateModel {
  import opened Base
  import opened M = MotorModel
  import opened C = ControlsModel

  /** A leaf's stage in a movement: due at an instant, energized until one, or finished. */
  datatype Phase = Waiting(at: nat) | Energized(until: nat) | Done

  /** The clock readings one segment takes, in the order it takes them. */
  datatype Reads = Reads(wake: nat, plan: nat, now: nat, a: nat, b: nat)

  datatype Point =
    | Resting
    | Driving(direction: Direction, a: Phase, b: Phase, moved: bool, deadline: nat)

  datatype Snapshot = Snapshot(leafA: U8, leafB: U8, windLocked: bool)

  datatype GateView = GateView(
    controls: ControlsState,
    a: MotorState,
    b: MotorState,
    pending: Option<GateCommand>,
    point: Point,
    outbox: seq<Message>)

  /** A segment either suspends again or ends the step with a snapshot. */
  datatype Outcome = Outcome(gate: GateView, snapshot: Option<Snapshot>)

  function SnapshotOf(g: GateView): Snapshot {
    Snapshot(g.a.position, g.b.position, g.controls.windLocked)
  }

  function Notified(g: GateView): GateView {
    g.(outbox := g.outbox + StateMessages(g.controls))
  }

  /** `Gate::settle`. */
  function SettledGate(g: GateView): GateView {
    Notified(g.(controls := g.controls.(
                  currentDirection := None, position := Classify(g.a.position, g.b.position)),
                point := Resting))
  }

  function Finished(g: GateView): Outcome {
    Outcome(SettledGate(g), Some(SnapshotOf(g)))
  }

  /** `Gate::new`. */
  function NewGate(c: ControlsState, a: MotorState, b: MotorState, windLocked: bool): GateView {
    SettledGate(GateView(c.(windLocked := windLocked), a, b,
                         if windLocked then Some(Open) else None, Resting, []))
  }

  function Plan(m: MotorState, d: Direction, now: nat): Phase {
    if RunTime(m, d).None? then Done
    else Waiting(Max(now + InitialDelay(m, d), ReadyAt(m)))
  }

  datatype LeafPoll = LeafPoll(motor: MotorState, phase: Phase, moved: bool)

  function BeginLeaf(m: MotorState, phase: Phase, d: Direction, now: nat, read: nat): LeafPoll {
    if phase.Waiting? && phase.at <= now then
      match RunTime(m, d)
      case Some(runTime) => LeafPoll(Started(m, d, read), Energized(now + runTime), true)
      case None => LeafPoll(m, Done, false)
    else LeafPoll(m, phase, false)
  }

  /** One pass of the leaf loop: begin a due leaf, release a finished one. */
  function PollLeaf(m: MotorState, phase: Phase, d: Direction, now: nat, read: nat): LeafPoll {
    var begun := BeginLeaf(m, phase, d, now, read);
    if begun.phase.Energized? && begun.phase.until <= now
    then LeafPoll(Settled(begun.motor, read), Done, begun.moved)
    else begun
  }

  function Deadline(phase: Phase): Option<nat> {
    match phase
    case Waiting(at) => Some(at)
    case Energized(until) => Some(until)
    case Done => None
  }

  function Earliest(x: Option<nat>, y: Option<nat>): Option<nat> {
    if x.None? then y else if y.None? then x else Some(Min(x.value, y.value))
  }

  /** Leaving `drive`: both motors stop, and a movement uses up the bypass. */
  function DriveEnded(g: GateView, moved: bool, result: Option<GateCommand>, r: Reads): Outcome {
    Finished(g.(a := Settled(g.a, r.a), b := Settled(g.b, r.b), pending := result,
                controls := g.controls.(barrierBypass := g.controls.barrierBypass && !moved)))
  }

  /** One round of the drive loop. */
  function DriveRound(g: GateView, d: Direction, a: Phase, b: Phase, moved: bool, r: Reads): Outcome {
    if Blocked(g.controls, d).Some? then DriveEnded(g, moved, None, r)
    else
      var x := PollLeaf(g.a, a, d, r.now, r.a);
      var y := PollLeaf(g.b, b, d, r.now, r.b);
      var moved' := moved || x.moved || y.moved;
      var g' := g.(a := x.motor, b := y.motor);
      match Earliest(Deadline(x.phase), Deadline(y.phase))
      case None => DriveEnded(g', moved', None, r)
      case Some(deadline) => Outcome(g'.(point := Driving(d, x.phase, y.phase, moved', deadline)), None)
  }

  function DriveStarted(g: GateView, d: Direction, r: Reads): Outcome {
    if Blocked(g.controls, d).Some? then Finished(g)
    else
      var g' := Notified(g.(controls := DirectionSet(g.controls, d)));
      DriveRound(g', d, Plan(g.a, d, r.plan), Plan(g.b, d, r.plan), false, r)
  }

  function Executed(g: GateView, command: GateCommand, r: Reads): Outcome {
    match ResolveImpulse(g.controls, command)
    case Open => DriveStarted(g, Opening, r)
    case Close => DriveStarted(g, Closing, r)
    case _ => Finished(g.(a := Settled(g.a, r.a), b := Settled(g.b, r.b)))
  }

  /** An interrupting command is executed next, unless all it asked for was to stop. */
  function HandedBack(command: GateCommand): Option<GateCommand> {
    if command.Stop? || command.Impulse? then None else Some(command)
  }

  /** Which future of a `select` is ready first, in argument order. */
  datatype Winner = Timer | GotCommand(command: GateCommand) | BarrierSignal | ResetSignal | Nothing

  function DriveWinner(c: ControlsState, deadline: nat, wake: nat): Winner {
    if deadline <= wake then Timer
    else if c.command.Some? then GotCommand(c.command.value)
    else if c.barrierChanged then BarrierSignal
    else if c.windLockReset then ResetSignal
    else Nothing
  }

  /** Only the winning signal is taken. */
  function Taken(c: ControlsState, w: Winner): ControlsState {
    c.(command := if w.GotCommand? then None else c.command,
       barrierChanged := c.barrierChanged && !w.BarrierSignal?,
       windLockReset := c.windLockReset && !w.ResetSignal?)
  }

  /** Taking a wind lock reset also announces it. */
  function Woken(g: GateView, w: Winner): GateView {
    g.(controls := Taken(g.controls, w),
       outbox := if w.ResetSignal? then g.outbox + StateMessages(Taken(g.controls, w)) else g.outbox)
  }

  /** Any command but the one for the movement's own direction ends it. */
  function Interrupts(w: Winner, d: Direction): bool {
    w.GotCommand? && w.command != CommandFor(d)
  }

  function DrivePolled(g: GateView, r: Reads): Outcome
    requires g.point.Driving?
  {
    var Driving(d, a, b, moved, deadline) := g.point;
    var w := DriveWinner(g.controls, deadline, r.wake);
    if w.Nothing? then Outcome(g, None)
    else if Interrupts(w, d) then DriveEnded(Woken(g, w), moved, HandedBack(w.command), r)
    else DriveRound(Woken(g, w), d, a, b, moved, r)
  }

  function RestPolled(g: GateView, r: Reads): Outcome {
    if g.pending.Some? then Executed(g.(pending := None), g.pending.value, r)
    else if g.controls.command.Some? then
      Executed(g.(controls := g.controls.(command := None)), g.controls.command.value, r)
    else if g.controls.windLockReset then
      Finished(g.(controls := g.controls.(windLockReset := false)))
    else Outcome(g, None)
  }

  function Polled(g: GateView, r: Reads): Outcome {
    if g.point.Driving? then DrivePolled(g, r) else RestPolled(g, r)
  }
}
