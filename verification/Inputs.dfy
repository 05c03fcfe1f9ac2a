/**
 * What the inputs last reported, read off the actions of a run, against the flags
 * the gate works with. Nothing but its own inputs ever changes such a flag.
 */
module Inputs {
  import opened Base
  import opened M = MotorModel
  import opened C = ControlsModel
  import opened G = GateModel
  import opened S = SystemModel

  // ----- The last report -----

  /** The value of the last action that reports one, or else `initial`. */
  function LastReport(acts: seq<Action>, report: Action -> Option<bool>, initial: bool): bool
    decreases |acts|
  {
    if acts == [] then initial else LastReport(acts[1..], report, Reported(report(acts[0]), initial))
  }

  function Reported(value: Option<bool>, otherwise: bool): bool {
    if value.Some? then value.value else otherwise
  }

  ghost predicate Silent(acts: seq<Action>, report: Action -> Option<bool>) {
    forall i :: 0 <= i < |acts| ==> report(acts[i]).None?
  }

  /** An action that reports, followed by none that does, decides; and without any the initial value stands. */
  lemma {:induction false} LastReportIsLast(acts: seq<Action>, report: Action -> Option<bool>, initial: bool)
    ensures Silent(acts, report) ==> LastReport(acts, report, initial) == initial
    ensures forall i :: 0 <= i < |acts| && report(acts[i]).Some? && Silent(acts[i + 1..], report) ==>
      LastReport(acts, report, initial) == report(acts[i]).value
    decreases |acts|
  {
    if acts != [] {
      var next, rest := Reported(report(acts[0]), initial), acts[1..];
      LastReportIsLast(rest, report, next);
      if Silent(acts, report) {
        assert Silent(rest, report) by {
          forall i | 0 <= i < |rest| ensures report(rest[i]).None? { assert rest[i] == acts[i + 1]; }
        }
      }
      forall i | 0 <= i < |acts| && report(acts[i]).Some? && Silent(acts[i + 1..], report)
        ensures LastReport(acts, report, initial) == report(acts[i]).value
      {
        if i > 0 {
          assert rest[i - 1] == acts[i] && rest[i..] == acts[i + 1..];
        }
      }
    }
  }

  /** The wind guard engages the lock; its reset input and the MQTT reset clear it. */
  function WindReport(act: Action): Option<bool> {
    match act
    case WindGuard => Some(true)
    case WindReset => Some(false)
    case Mqtt(ResetWindLock) => Some(false)
    case _ => None
  }

  function Barrier1Report(act: Action): Option<bool> {
    match act
    case Barrier1(active) => Some(active)
    case _ => None
  }

  function Barrier2Report(act: Action): Option<bool> {
    match act
    case Barrier2(active) => Some(active)
    case _ => None
  }

  // ----- No segment changes what the inputs reported -----

  ghost predicate SameFlags(c: ControlsState, c': ControlsState) {
    && c'.windLocked == c.windLocked
    && c'.barrier1Active == c.barrier1Active
    && c'.barrier2Active == c.barrier2Active
  }

  lemma {:induction false} EndedKeepsFlags(g: GateView, moved: bool, result: Option<GateCommand>, r: Reads)
    ensures var g' := DriveEnded(g, moved, result, r).gate;
      SameFlags(g.controls, g'.controls) && g'.point.Resting?
  {
  }

  lemma {:induction false} RoundKeepsFlags(g: GateView, d: Direction, a: Phase, b: Phase, moved: bool, r: Reads)
    ensures var g' := DriveRound(g, d, a, b, moved, r).gate;
      && SameFlags(g.controls, g'.controls)
      && (g'.point.Driving? ==> g'.point.direction == d)
  {
    var x, y := PollLeaf(g.a, a, d, r.now, r.a), PollLeaf(g.b, b, d, r.now, r.b);
    if Blocked(g.controls, d).Some? {
      EndedKeepsFlags(g, moved, None, r);
    } else if Earliest(Deadline(x.phase), Deadline(y.phase)).None? {
      EndedKeepsFlags(g.(a := x.motor, b := y.motor), moved || x.moved || y.moved, None, r);
    }
  }

  lemma {:induction false} DrivePolledKeepsFlags(g: GateView, r: Reads)
    requires g.point.Driving?
    ensures SameFlags(g.controls, DrivePolled(g, r).gate.controls)
  {
    var Driving(d, a, b, moved, deadline) := g.point;
    var w := DriveWinner(g.controls, deadline, r.wake);
    if Interrupts(w, d) {
      EndedKeepsFlags(Woken(g, w), moved, HandedBack(w.command), r);
    } else if !w.Nothing? {
      RoundKeepsFlags(Woken(g, w), d, a, b, moved, r);
    }
  }

  lemma {:induction false} ExecutedKeepsFlags(g: GateView, command: GateCommand, r: Reads)
    ensures SameFlags(g.controls, Executed(g, command, r).gate.controls)
  {
    var d := if ResolveImpulse(g.controls, command).Open? then Opening else Closing;
    RoundKeepsFlags(Notified(g.(controls := DirectionSet(g.controls, d))), d,
                    Plan(g.a, d, r.plan), Plan(g.b, d, r.plan), false, r);
  }

  lemma {:induction false} PolledKeepsFlags(g: GateView, r: Reads)
    ensures SameFlags(g.controls, Polled(g, r).gate.controls)
  {
    if g.point.Driving? {
      DrivePolledKeepsFlags(g, r);
    } else if g.pending.Some? {
      ExecutedKeepsFlags(g.(pending := None), g.pending.value, r);
    } else if g.controls.command.Some? {
      ExecutedKeepsFlags(g.(controls := g.controls.(command := None)), g.controls.command.value, r);
    }
  }

  // ----- Runs -----

  ghost predicate FlagsReported(c: ControlsState, c': ControlsState, act: Action) {
    && c'.windLocked == Reported(WindReport(act), c.windLocked)
    && c'.barrier1Active == Reported(Barrier1Report(act), c.barrier1Active)
    && c'.barrier2Active == Reported(Barrier2Report(act), c.barrier2Active)
  }

  lemma {:induction false} MqttReports(c: ControlsState, command: Command)
    ensures FlagsReported(c, Applied(command, c), Mqtt(command))
  {
  }

  lemma {:induction false} StepReports(cfg: Config, s: System, act: Action)
    requires Enabled(cfg, s, act)
    ensures FlagsReported(s.gate.controls, Step(cfg, s, act).gate.controls, act)
  {
    match act {
      case PollGate(r) => PolledKeepsFlags(s.gate, r);
      case Mqtt(command) => MqttReports(s.gate.controls, command);
      case ArmBypass => MqttReports(s.gate.controls, SetBarrierBypass(true));
      case _ =>
    }
  }

  /** In every run from any state, each flag is what its inputs last reported. */
  lemma {:induction false} FlagsFollowReports(cfg: Config, s: System, acts: seq<Action>)
    requires ValidRun(cfg, s, acts)
    ensures var c, c' := s.gate.controls, After(cfg, s, acts).gate.controls;
      && c'.windLocked == LastReport(acts, WindReport, c.windLocked)
      && c'.barrier1Active == LastReport(acts, Barrier1Report, c.barrier1Active)
      && c'.barrier2Active == LastReport(acts, Barrier2Report, c.barrier2Active)
    decreases |acts|
  {
    if acts != [] {
      StepReports(cfg, s, acts[0]);
      FlagsFollowReports(cfg, Step(cfg, s, acts[0]), acts[1..]);
    }
  }

  // ----- Which input raises which signal -----

  /** What each input leaves in the command slot that held `slot`. */
  function SlotAfter(act: Action, locked: bool, slot: Option<GateCommand>): Option<GateCommand> {
    match act
    case PressImpulse => if locked then slot else Some(Impulse)
    case Mqtt(MqttOpen) => if locked then slot else Some(Open)
    case Mqtt(MqttClose) => if locked then slot else Some(Close)
    case Mqtt(MqttStop) => if locked then slot else Some(Stop)
    case WindGuard => Some(Open)
    case Barrier1(active) => if locked && !active then Some(Open) else slot
    case _ => slot
  }

  /** Inputs that may let a movement go on or stop it wake the movement up. */
  predicate WakesMovement(act: Action) {
    match act
    case Barrier1(_) => true
    case Barrier2(_) => true
    case ArmBypass => true
    case Mqtt(SetBarrierBypass(_)) => true
    case _ => false
  }

  /** Inputs that may turn the warning light on or off wake it up. */
  predicate WakesLight(act: Action) {
    act.ArmBypass? || (act.Mqtt? && act.command.SetBarrierBypass?)
  }

  ghost predicate SignalsRaised(c: ControlsState, c': ControlsState, act: Action) {
    && c'.command == SlotAfter(act, c.windLocked, c.command)
    && c'.barrierChanged == (c.barrierChanged || WakesMovement(act))
    && c'.windLockReset == (c.windLockReset || WindReport(act) == Some(false))
  }

  lemma {:induction false} MqttRaises(c: ControlsState, command: Command)
    ensures SignalsRaised(c, Applied(command, c), Mqtt(command))
    ensures Applied(command, c).lightChanged == (c.lightChanged || WakesLight(Mqtt(command)))
  {
  }

  /** Every input raises exactly the signals it should, and leaves motors, movement and handed-back command alone. */
  lemma {:induction false} InputsRaiseSignals(cfg: Config, s: System, act: Action)
    requires Enabled(cfg, s, act) && !act.PollGate?
    ensures var g, g' := s.gate, Step(cfg, s, act).gate;
      && SignalsRaised(g.controls, g'.controls, act)
      && (!act.PollLamp? ==> g'.controls.lightChanged == (g.controls.lightChanged || WakesLight(act)))
      && g'.a == g.a && g'.b == g.b && g'.point == g.point && g'.pending == g.pending
  {
    match act {
      case Mqtt(command) => MqttRaises(s.gate.controls, command);
      case ArmBypass => MqttRaises(s.gate.controls, SetBarrierBypass(true));
      case _ =>
    }
  }
}
