/** One-shot barrier bypass: each armed movement is paid for by its own arming. */
module Bypass {
  import opened Base
  import opened M = MotorModel
  import opened C = ControlsModel
  import opened G = GateModel
  import opened S = SystemModel
  import opened I = GateInvariant
  import opened Y = Safety

  ghost predicate Arms(act: Action) {
    act.ArmBypass? || act == Mqtt(SetBarrierBypass(true))
  }

  ghost function ArmCalls(acts: seq<Action>): nat {
    if acts == [] then 0 else (if Arms(acts[0]) then 1 else 0) + ArmCalls(acts[1..])
  }

  /**
   * An observer of the pins: whether the current (or last) movement has
   * energized a relay, whether it did so with the bypass armed, and how many
   * movements so far did.
   */
  datatype Tally = Tally(armedMovements: nat, energized: bool, armed: bool)

  const NOTHING_YET := Tally(0, false, false)

  ghost function Observed(cfg: Config, t: Tally, s: System, act: Action): Tally
    requires Enabled(cfg, s, act)
  {
    Seen(t, s, GateEnergizes(s.gate, Step(cfg, s, act).gate))
  }

  /** From state `s` the observer saw a relay go on, or not. */
  function Seen(t: Tally, s: System, on: bool): Tally {
    var inFlight := s.gate.point.Driving?;
    var armed := (inFlight && t.armed) || (on && s.gate.controls.barrierBypass);
    Tally(t.armedMovements + (if armed && !(inFlight && t.armed) then 1 else 0),
          (inFlight && t.energized) || on,
          armed)
  }

  ghost function ObservedAll(cfg: Config, t: Tally, s: System, acts: seq<Action>): Tally
    requires ValidRun(cfg, s, acts)
    decreases |acts|
  {
    if acts == [] then t
    else ObservedAll(cfg, Observed(cfg, t, s, acts[0]), Step(cfg, s, acts[0]), acts[1..])
  }

  /** With `arms` armings so far, an unspent one is left whenever the bypass is on. */
  ghost predicate TallyOk(s: System, t: Tally, arms: nat) {
    var spent := s.gate.point.Driving? && t.armed;
    && (s.gate.point.Driving? ==> (t.energized <==> s.gate.point.moved))
    && (spent ==> t.energized)
    && t.armedMovements + (if s.gate.controls.barrierBypass && !spent then 1 else 0) <= arms
  }

  lemma {:induction false} NothingNew(g: GateView, g': GateView)
    requires g'.a == g.a && g'.b == g.b
    ensures !GateEnergizes(g, g')
  {
  }

  /** What a movement step leaves of an accounted gate, given what it was seen to energize. */
  lemma {:induction false} MovementTally(s: System, s': System, d: Direction, t: Tally, t': Tally, arms: nat)
    requires TallyOk(s, t, arms)
    requires MovementStep(s.gate, s'.gate, d, s.gate.point.Driving? && s.gate.point.moved)
    requires t' == Seen(t, s, GateEnergizes(s.gate, s'.gate))
    ensures TallyOk(s', t', arms)
  {
  }

  lemma {:induction false} PollTally(cfg: Config, s: System, t: Tally, arms: nat, r: Reads)
    requires SystemOk(cfg, s) && TallyOk(s, t, arms) && Enabled(cfg, s, PollGate(r))
    ensures TallyOk(Step(cfg, s, PollGate(r)), Observed(cfg, t, s, PollGate(r)), arms)
  {
    var d := PolledMoves(cfg, s.gate, r);
    MovementTally(s, Step(cfg, s, PollGate(r)), d, t, Observed(cfg, t, s, PollGate(r)), arms);
  }

  lemma {:induction false} InputArms(cfg: Config, s: System, act: Action)
    requires Enabled(cfg, s, act) && !act.PollGate?
    ensures var g, g' := s.gate, Step(cfg, s, act).gate;
      && g'.a == g.a && g'.b == g.b && g'.point == g.point
      && (g'.controls.barrierBypass ==> g.controls.barrierBypass || Arms(act))
  {
  }

  lemma {:induction false} InputTally(cfg: Config, s: System, t: Tally, arms: nat, act: Action)
    requires TallyOk(s, t, arms) && Enabled(cfg, s, act) && !act.PollGate?
    ensures TallyOk(Step(cfg, s, act), Observed(cfg, t, s, act), arms + if Arms(act) then 1 else 0)
  {
    InputArms(cfg, s, act);
    NothingNew(s.gate, Step(cfg, s, act).gate);
  }

  lemma {:induction false} TallyStep(cfg: Config, s: System, t: Tally, arms: nat, act: Action)
    requires SystemOk(cfg, s) && TallyOk(s, t, arms) && Enabled(cfg, s, act)
    ensures TallyOk(Step(cfg, s, act), Observed(cfg, t, s, act), arms + if Arms(act) then 1 else 0)
  {
    match act {
      case PollGate(r) => PollTally(cfg, s, t, arms, r);
      case _ => InputTally(cfg, s, t, arms, act);
    }
  }

  lemma {:induction false} TallyRun(cfg: Config, s: System, t: Tally, arms: nat, acts: seq<Action>)
    requires SystemOk(cfg, s) && TallyOk(s, t, arms) && ValidRun(cfg, s, acts)
    ensures TallyOk(After(cfg, s, acts), ObservedAll(cfg, t, s, acts), arms + ArmCalls(acts))
    decreases |acts|
  {
    if acts != [] {
      var s', t' := Step(cfg, s, acts[0]), Observed(cfg, t, s, acts[0]);
      TallyStep(cfg, s, t, arms, acts[0]);
      StepOk(cfg, s, acts[0]);
      TallyRun(cfg, s', t', arms + if Arms(acts[0]) then 1 else 0, acts[1..]);
    }
  }

  /** Over every run, no more movements energize a motor under an armed bypass than it was armed. */
  lemma {:induction false} BypassIsOneShot(cfg: Config, c: ControlsState, flash: Option<GateState>, at: nat, acts: seq<Action>)
    requires FreshControls(c) && ValidRun(cfg, Boot(cfg, c, flash, at), acts)
    ensures ObservedAll(cfg, NOTHING_YET, Boot(cfg, c, flash, at), acts).armedMovements <= ArmCalls(acts)
  {
    BootOk(cfg, c, flash, at);
    TallyRun(cfg, Boot(cfg, c, flash, at), NOTHING_YET, 0, acts);
  }

  /** In every run, a segment that ends a movement clears the bypass exactly when the movement energized a motor. */
  lemma {:induction false} BypassUsedUp(cfg: Config, c: ControlsState, flash: Option<GateState>, at: nat, acts: seq<Action>, r: Reads)
    requires FreshControls(c) && ValidRun(cfg, Boot(cfg, c, flash, at), acts)
    requires var s := After(cfg, Boot(cfg, c, flash, at), acts);
      Enabled(cfg, s, PollGate(r)) && Step(cfg, s, PollGate(r)).gate.point.Resting?
    ensures ValidRun(cfg, Boot(cfg, c, flash, at), acts + [PollGate(r)])
    ensures var s := After(cfg, Boot(cfg, c, flash, at), acts);
      var seen := ObservedAll(cfg, NOTHING_YET, Boot(cfg, c, flash, at), acts + [PollGate(r)]);
      Step(cfg, s, PollGate(r)).gate.controls.barrierBypass == (s.gate.controls.barrierBypass && !seen.energized)
  {
    var s0 := Boot(cfg, c, flash, at);
    var s := After(cfg, s0, acts);
    BootOk(cfg, c, flash, at);
    RunOk(cfg, s0, acts);
    TallyRun(cfg, s0, NOTHING_YET, 0, acts);
    RunAppend(cfg, s0, acts, PollGate(r));
    ObservedAppend(cfg, NOTHING_YET, s0, acts, PollGate(r));
    var d := PolledMoves(cfg, s.gate, r);
  }

  lemma {:induction false} ObservedAppend(cfg: Config, t: Tally, s: System, acts: seq<Action>, act: Action)
    requires ValidRun(cfg, s, acts) && Enabled(cfg, After(cfg, s, acts), act) && ValidRun(cfg, s, acts + [act])
    ensures ObservedAll(cfg, t, s, acts + [act])
         == Observed(cfg, ObservedAll(cfg, t, s, acts), After(cfg, s, acts), act)
    decreases |acts|
  {
    if acts == [] {
      assert acts + [act] == [act];
      assert [act][1..] == [];
    } else {
      assert (acts + [act])[1..] == acts[1..] + [act];
      ObservedAppend(cfg, Observed(cfg, t, s, acts[0]), Step(cfg, s, acts[0]), acts[1..], act);
    }
  }

  // ----- The bypass as its inputs and its use leave it -----

  /** Whether the bypass is on after this action, seen from outside: by its own inputs, and off once a movement has used it. */
  ghost function ShownAfter(cfg: Config, t: Tally, s: System, act: Action, on: bool): bool
    requires Enabled(cfg, s, act)
  {
    match act
    case ArmBypass => true
    case Mqtt(SetBarrierBypass(active)) => active
    case PollGate(_) => on && !(Step(cfg, s, act).gate.point.Resting? && Observed(cfg, t, s, act).energized)
    case _ => on
  }

  ghost function Shown(cfg: Config, t: Tally, s: System, acts: seq<Action>, on: bool): bool
    requires ValidRun(cfg, s, acts)
    decreases |acts|
  {
    if acts == [] then on
    else Shown(cfg, Observed(cfg, t, s, acts[0]), Step(cfg, s, acts[0]), acts[1..], ShownAfter(cfg, t, s, acts[0], on))
  }

  lemma {:induction false} InputShown(cfg: Config, t: Tally, s: System, act: Action)
    requires Enabled(cfg, s, act) && !act.PollGate?
    ensures Step(cfg, s, act).gate.controls.barrierBypass == ShownAfter(cfg, t, s, act, s.gate.controls.barrierBypass)
  {
    match act {
      case Mqtt(command) => AppliedBypass(s.gate.controls, command);
      case ArmBypass => AppliedBypass(s.gate.controls, SetBarrierBypass(true));
      case _ =>
    }
  }

  lemma {:induction false} AppliedBypass(c: ControlsState, command: Command)
    ensures Applied(command, c).barrierBypass == if command.SetBarrierBypass? then command.active else c.barrierBypass
  {
  }

  lemma {:induction false} PollShown(cfg: Config, t: Tally, s: System, arms: nat, r: Reads)
    requires SystemOk(cfg, s) && TallyOk(s, t, arms) && Enabled(cfg, s, PollGate(r))
    ensures Step(cfg, s, PollGate(r)).gate.controls.barrierBypass
         == ShownAfter(cfg, t, s, PollGate(r), s.gate.controls.barrierBypass)
  {
    var d := PolledMoves(cfg, s.gate, r);
  }

  lemma {:induction false} ShownRun(cfg: Config, t: Tally, s: System, arms: nat, acts: seq<Action>)
    requires SystemOk(cfg, s) && TallyOk(s, t, arms) && ValidRun(cfg, s, acts)
    ensures After(cfg, s, acts).gate.controls.barrierBypass == Shown(cfg, t, s, acts, s.gate.controls.barrierBypass)
    decreases |acts|
  {
    if acts != [] {
      if acts[0].PollGate? {
        PollShown(cfg, t, s, arms, acts[0].readings);
      } else {
        InputShown(cfg, t, s, acts[0]);
      }
      TallyStep(cfg, s, t, arms, acts[0]);
      StepOk(cfg, s, acts[0]);
      ShownRun(cfg, Observed(cfg, t, s, acts[0]), Step(cfg, s, acts[0]), arms + if Arms(acts[0]) then 1 else 0, acts[1..]);
    }
  }

  /**
   * In every run the bypass is off at boot, on once armed, off once disarmed, and
   * off with the end of a movement whose pins were seen to be energized; nothing
   * else changes it.
   */
  lemma {:induction false} BypassIsAsShown(cfg: Config, c: ControlsState, flash: Option<GateState>, at: nat, acts: seq<Action>)
    requires FreshControls(c) && ValidRun(cfg, Boot(cfg, c, flash, at), acts)
    ensures After(cfg, Boot(cfg, c, flash, at), acts).gate.controls.barrierBypass
         == Shown(cfg, NOTHING_YET, Boot(cfg, c, flash, at), acts, false)
  {
    BootOk(cfg, c, flash, at);
    ShownRun(cfg, NOTHING_YET, Boot(cfg, c, flash, at), 0, acts);
  }
}
