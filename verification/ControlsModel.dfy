/**
 * The flags and one-place signals shared by the gate task, the input watchers,
 * the MQTT handler and the warning light, as a value. A signal holds at most
 * one value, a later one overwrites it, and only its waiter takes it.
 */
module ControlsModel {
  import opened Base

  datatype Position = FullyClosed | Partial | FullyOpen

  datatype CoverState = CoverOpen | CoverOpening | CoverClosed | CoverClosing

  datatype Obstacle = LightBarrier1 | LightBarrier2 | WindLock

  datatype ControlsState = ControlsState(
    command: Option<GateCommand>,
    barrierChanged: bool,
    windLockReset: bool,
    currentDirection: Option<Direction>,
    lastDirection: Direction,
    position: Position,
    windLocked: bool,
    barrier1Active: bool,
    barrier2Active: bool,
    barrierBypass: bool,
    lightChanged: bool)

  function NewControls(): ControlsState {
    ControlsState(None, false, false, None, Closing, FullyClosed, false, false, false, false, false)
  }

  /** `open`, `close`, `stop` and `impulse`: ignored while the wind lock is engaged. */
  function Requested(c: ControlsState, command: GateCommand): ControlsState {
    if c.windLocked then c else c.(command := Some(command))
  }

  function WindTriggered(c: ControlsState): ControlsState {
    c.(windLocked := true, command := Some(Open))
  }

  function WindLockCleared(c: ControlsState): ControlsState {
    c.(windLocked := false, windLockReset := true)
  }

  function Barrier1Set(c: ControlsState, active: bool): ControlsState {
    c.(barrier1Active := active,
       barrierChanged := true,
       command := if !active && c.windLocked then Some(Open) else c.command)
  }

  function Barrier2Set(c: ControlsState, active: bool): ControlsState {
    c.(barrier2Active := active, barrierChanged := true)
  }

  function BypassSet(c: ControlsState, active: bool): ControlsState {
    c.(barrierBypass := active, barrierChanged := true, lightChanged := true)
  }

  function WarningLightActive(c: ControlsState): bool {
    c.currentDirection.Some? || c.barrierBypass
  }

  function Cover(c: ControlsState): CoverState {
    match c.currentDirection
    case Some(Opening) => CoverOpening
    case Some(Closing) => CoverClosing
    case None => if c.position.FullyClosed? then CoverClosed else CoverOpen
  }

  /** The first obstacle to a movement in direction `d`, barriers before the wind lock. */
  function Blocked(c: ControlsState, d: Direction): Option<Obstacle> {
    if !c.barrierBypass && c.barrier1Active then Some(LightBarrier1)
    else if !c.barrierBypass && d.Closing? && c.barrier2Active then Some(LightBarrier2)
    else if d.Closing? && c.windLocked then Some(WindLock)
    else None
  }

  /**
   * The documented permission to move: barrier 1 stops both directions and
   * barrier 2 closing only, unless bypassed; the wind lock always forbids closing.
   */
  predicate MayMove(c: ControlsState, d: Direction) {
    && (c.barrier1Active ==> c.barrierBypass)
    && (d == Closing && c.barrier2Active ==> c.barrierBypass)
    && (d == Closing ==> !c.windLocked)
  }

  lemma {:induction false} MayMoveIffUnblocked(c: ControlsState, d: Direction)
    ensures Blocked(c, d).None? <==> MayMove(c, d)
  {
  }

  function ResolveImpulse(c: ControlsState, command: GateCommand): GateCommand {
    if command != Impulse then command
    else match c.position
      case FullyClosed => Open
      case FullyOpen => Close
      case Partial => if c.lastDirection.Opening? then Close else Open
  }

  function DirectionSet(c: ControlsState, d: Direction): ControlsState {
    c.(currentDirection := Some(d), lastDirection := d, lightChanged := true)
  }

  function Classify(a: U8, b: U8): Position {
    if a == 0 && b == 0 then FullyClosed
    else if a == 255 && b == 255 then FullyOpen
    else Partial
  }

  // ----- The published view -----

  datatype Message = Message(topic: string, payload: string)

  const COVER_STATE_TOPIC := "mqtt_gate/cover/state"
  const WIND_STATE_TOPIC := "mqtt_gate/wind/state"
  const BARRIER_BYPASS_STATE_TOPIC := "mqtt_gate/barrier_bypass/state"

  function OnOff(on: bool): string {
    if on then "ON" else "OFF"
  }

  function CoverPayload(s: CoverState): string {
    match s
    case CoverOpen => "open"
    case CoverOpening => "opening"
    case CoverClosed => "closed"
    case CoverClosing => "closing"
  }

  function StateMessages(c: ControlsState): seq<Message> {
    [Message(COVER_STATE_TOPIC, CoverPayload(Cover(c))),
     Message(WIND_STATE_TOPIC, OnOff(c.windLocked)),
     Message(BARRIER_BYPASS_STATE_TOPIC, OnOff(c.barrierBypass))]
  }

  // ----- MQTT commands -----

  datatype Command = MqttOpen | MqttClose | MqttStop | ResetWindLock | SetBarrierBypass(active: bool)

  function Applied(command: Command, c: ControlsState): ControlsState {
    match command
    case MqttOpen => Requested(c, Open)
    case MqttClose => Requested(c, Close)
    case MqttStop => Requested(c, Stop)
    case ResetWindLock => WindLockCleared(c)
    case SetBarrierBypass(active) => BypassSet(c, active)
  }
}
