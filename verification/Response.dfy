/**
 * How soon a command ends a movement. The deadline timer comes first in the
 * movement's select, so a due timer can go ahead of any command, but not often.
 */
module Response {
  import opened Base
  import opened M = MotorModel
  import opened C = ControlsModel
  import opened G = GateModel
  import opened S = SystemModel
  import opened I = GateInvariant
  import opened Y = Safety
  import opened D = Schedule

  /** A movement with a command other than its own in the slot. */
  ghost predicate Countermanded(g: GateView) {
    && g.point.Driving? && g.controls.command.Some?
    && g.controls.command.value != CommandFor(g.point.direction)
  }

  /** The command is taken: stop and impulse leave nothing to do, the opposite direction is handed back. */
  ghost predicate CommandObeyed(g: GateView, g': GateView)
    requires Countermanded(g)
  {
    && g'.controls.command.None?
    && g'.pending == if g.controls.command == Some(CommandFor(Opposite(g.point.direction)))
                     then g.controls.command else None
  }

  /** The timer went first: the command stays in the slot, and nothing else is in its way. */
  ghost predicate CommandKept(g: GateView, g': GateView) {
    g'.controls.command == g.controls.command && g'.pending.None?
  }

  lemma {:induction false} RoundKeepsCommand(g: GateView, d: Direction, a: Phase, b: Phase, moved: bool, r: Reads)
    requires g.pending.None?
    ensures var g' := DriveRound(g, d, a, b, moved, r).gate;
      && CommandKept(g, g') && (g'.point.Driving? ==> g'.point.direction == d)
  {
  }

  lemma {:induction false} DrivingHasWork(cfg: Config, g: GateView)
    requires PointOk(cfg, g) && g.point.Driving?
    ensures 1 <= WorkLeft(g) <= 4
  {
  }

  /**
   * One segment of a countermanded movement: before the deadline it is over
   * and the command obeyed; from the deadline on the command is kept, and the
   * movement is over or has less left to do.
   */
  lemma {:induction false} CountermandedSegment(cfg: Config, g: GateView, r: Reads)
    requires PointOk(cfg, g) && Countermanded(g) && r.wake <= r.now
    ensures var g' := DrivePolled(g, r).gate;
      && WorkLeft(g') < WorkLeft(g)
      && (if r.wake < g.point.deadline then g'.point.Resting? && CommandObeyed(g, g')
          else CommandKept(g, g') && (g'.point.Driving? ==> Countermanded(g') && g'.point.direction == g.point.direction))
  {
    DrivingHasWork(cfg, g);
    DrivePolledWork(cfg, g, r);
    if g.point.deadline <= r.wake {
      RoundKeepsCommand(Woken(g, Timer), g.point.direction, g.point.a, g.point.b, g.point.moved, r);
    }
  }

  // ----- Whole runs -----

  /** Inputs that may queue the command for direction `d`. */
  predicate Renews(act: Action, d: Direction) {
    match act
    case Mqtt(MqttOpen) => d.Opening?
    case Mqtt(MqttClose) => d.Closing?
    case WindGuard => d.Opening?
    case Barrier1(active) => !active && d.Opening?
    case _ => false
  }

  ghost predicate NeverRenewed(acts: seq<Action>, d: Direction) {
    forall i :: 0 <= i < |acts| ==> !Renews(acts[i], d)
  }

  function GatePolls(acts: seq<Action>): nat {
    if acts == [] then 0 else (if acts[0].PollGate? then 1 else 0) + GatePolls(acts[1..])
  }

  /**
   * Along the run the movement is over at the latest with the n-th segment of
   * the gate: all relays low, and the command in the slot obeyed or kept.
   */
  ghost predicate EndsWithin(cfg: Config, s: System, acts: seq<Action>, n: nat)
    requires ValidRun(cfg, s, acts)
    decreases |acts|
  {
    && acts != [] && Countermanded(s.gate)
    && var s' := Step(cfg, s, acts[0]);
       if !acts[0].PollGate? then EndsWithin(cfg, s', acts[1..], n)
       else
         && n > 0
         && (if s'.gate.point.Resting?
             then AllRelaysLow(s'.gate) && (CommandObeyed(s.gate, s'.gate) || CommandKept(s.gate, s'.gate))
             else EndsWithin(cfg, s', acts[1..], n - 1))
  }

  /** The slot is left alone or filled, with the command for `d` only if `renewed`. */
  ghost predicate SlotChange(c: ControlsState, c': ControlsState, d: Direction, renewed: bool) {
    c'.command == c.command || (c'.command.Some? && (c'.command.value == CommandFor(d) ==> renewed))
  }

  lemma {:induction false} AppliedSlot(c: ControlsState, command: Command, d: Direction)
    ensures SlotChange(c, Applied(command, c), d, Renews(Mqtt(command), d))
  {
  }

  lemma {:induction false} InputSlot(cfg: Config, s: System, act: Action, d: Direction)
    requires Enabled(cfg, s, act) && !act.PollGate?
    ensures SlotChange(s.gate.controls, Step(cfg, s, act).gate.controls, d, Renews(act, d))
  {
    match act {
      case Mqtt(command) => AppliedSlot(s.gate.controls, command, d);
      case PressImpulse =>
      case WindGuard =>
      case WindReset =>
      case Barrier1(active) =>
      case Barrier2(active) =>
      case ArmBypass => AppliedSlot(s.gate.controls, SetBarrierBypass(true), d);
      case _ =>
    }
  }

  lemma {:induction false} InputKeepsPoint(cfg: Config, s: System, act: Action)
    requires Enabled(cfg, s, act) && !act.PollGate?
    ensures Step(cfg, s, act).gate.point == s.gate.point
  {
  }

  lemma {:induction false} InputStaysCountermanded(cfg: Config, s: System, act: Action)
    requires Countermanded(s.gate) && Enabled(cfg, s, act) && !act.PollGate?
    requires !Renews(act, s.gate.point.direction)
    ensures var g' := Step(cfg, s, act).gate; Countermanded(g') && g'.point == s.gate.point
  {
    InputSlot(cfg, s, act, s.gate.point.direction);
    InputKeepsPoint(cfg, s, act);
  }

  /** The segment's result is as `EndsWithin` wants it, or the movement goes on countermanded with less to do. */
  lemma {:induction false} CountermandedPoll(cfg: Config, s: System, r: Reads)
    requires SystemOk(cfg, s) && Countermanded(s.gate) && Enabled(cfg, s, PollGate(r))
    ensures var g, g' := s.gate, Step(cfg, s, PollGate(r)).gate;
      if g'.point.Resting? then AllRelaysLow(g') && (CommandObeyed(g, g') || CommandKept(g, g'))
      else Countermanded(g') && g'.point.direction == g.point.direction && WorkLeft(g') < WorkLeft(g)
  {
    CountermandedSegment(cfg, s.gate, r);
    DrivePolledOk(cfg, s.gate, r);
  }

  lemma {:induction false} CountermandedRun(cfg: Config, s: System, acts: seq<Action>)
    requires SystemOk(cfg, s) && Countermanded(s.gate) && ValidRun(cfg, s, acts)
    requires NeverRenewed(acts, s.gate.point.direction) && WorkLeft(s.gate) <= GatePolls(acts)
    ensures EndsWithin(cfg, s, acts, WorkLeft(s.gate))
    decreases |acts|
  {
    DrivingHasWork(cfg, s.gate);
    var s', rest := Step(cfg, s, acts[0]), acts[1..];
    StepOk(cfg, s, acts[0]);
    if !acts[0].PollGate? {
      InputStaysCountermanded(cfg, s, acts[0]);
      CountermandedRun(cfg, s', rest);
    } else {
      CountermandedPoll(cfg, s, acts[0].readings);
      if s'.gate.point.Driving? {
        CountermandedRun(cfg, s', rest);
        EndsSooner(cfg, s', rest, WorkLeft(s'.gate), WorkLeft(s.gate) - 1);
      }
    }
  }

  lemma {:induction false} EndsSooner(cfg: Config, s: System, acts: seq<Action>, n: nat, k: nat)
    requires ValidRun(cfg, s, acts) && EndsWithin(cfg, s, acts, n) && n <= k
    ensures EndsWithin(cfg, s, acts, k)
    decreases |acts|
  {
    var s' := Step(cfg, s, acts[0]);
    if !acts[0].PollGate? {
      EndsSooner(cfg, s', acts[1..], n, k);
    } else if s'.gate.point.Driving? {
      EndsSooner(cfg, s', acts[1..], n - 1, k - 1);
    }
  }
}
