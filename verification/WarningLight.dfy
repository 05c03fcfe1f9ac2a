/** The warning light task never misses activity and goes dark within one half period. */
module WarningLight {
  import opened Base
  import opened M = MotorModel
  import opened C = ControlsModel
  import opened G = GateModel
  import opened S = SystemModel
  import opened I = GateInvariant

  ghost predicate LampOk(cfg: Config, s: System) {
    && (s.lamp.parked ==> !s.lamp.lit)
    && (s.lamp.parked && WarningLightActive(s.gate.controls) ==> s.gate.controls.lightChanged)
    && (!s.lamp.parked ==> s.lamp.wakeAt <= s.now + cfg.halfPeriod)
  }

  /** The gate task never takes the light signal, and raises it whenever it turns the light on. */
  ghost predicate KeepsLight(c: ControlsState, c': ControlsState) {
    && (c.lightChanged ==> c'.lightChanged)
    && (WarningLightActive(c') && !WarningLightActive(c) ==> c'.lightChanged)
  }

  lemma {:induction false} DriveRoundLight(g: GateView, d: Direction, a: Phase, b: Phase, moved: bool, r: Reads)
    requires g.controls.currentDirection.Some?
    ensures KeepsLight(g.controls, DriveRound(g, d, a, b, moved, r).gate.controls)
  {
  }

  lemma {:induction false} DriveEndedLight(g: GateView, moved: bool, result: Option<GateCommand>, r: Reads)
    ensures KeepsLight(g.controls, DriveEnded(g, moved, result, r).gate.controls)
  {
  }

  lemma {:induction false} ExecutedLight(g: GateView, command: GateCommand, r: Reads)
    ensures KeepsLight(g.controls, Executed(g, command, r).gate.controls)
  {
    var d := if ResolveImpulse(g.controls, command).Open? then Opening else Closing;
    var g1 := Notified(g.(controls := DirectionSet(g.controls, d)));
    DriveRoundLight(g1, d, Plan(g.a, d, r.plan), Plan(g.b, d, r.plan), false, r);
  }

  lemma {:induction false} DrivePolledLight(g: GateView, r: Reads)
    requires g.point.Driving? && g.controls.currentDirection.Some?
    ensures KeepsLight(g.controls, DrivePolled(g, r).gate.controls)
  {
    var Driving(d, a, b, moved, deadline) := g.point;
    var w := DriveWinner(g.controls, deadline, r.wake);
    if Interrupts(w, d) {
      DriveEndedLight(Woken(g, w), moved, HandedBack(w.command), r);
    } else if !w.Nothing? {
      DriveRoundLight(Woken(g, w), d, a, b, moved, r);
    }
  }

  lemma {:induction false} PolledLight(g: GateView, r: Reads)
    requires g.point.Driving? ==> g.controls.currentDirection.Some?
    ensures KeepsLight(g.controls, Polled(g, r).gate.controls)
  {
    if g.point.Driving? {
      DrivePolledLight(g, r);
    } else if g.pending.Some? {
      ExecutedLight(g.(pending := None), g.pending.value, r);
    } else if g.controls.command.Some? {
      ExecutedLight(g.(controls := g.controls.(command := None)), g.controls.command.value, r);
    }
  }

  lemma {:induction false} LampStep(cfg: Config, s: System, act: Action)
    requires s.gate.point.Driving? ==> s.gate.controls.currentDirection.Some?
    requires LampOk(cfg, s) && Enabled(cfg, s, act)
    ensures LampOk(cfg, Step(cfg, s, act))
  {
    if act.PollGate? {
      PolledLight(s.gate, act.readings);
    }
  }

  lemma {:induction false} LampBoot(cfg: Config, c: ControlsState, flash: Option<GateState>, at: nat)
    ensures LampOk(cfg, Boot(cfg, c, flash, at))
  {
  }

  // ----- Going dark -----

  /** The gate moves - its initial delays included - or the bypass is armed. */
  ghost predicate ShouldBlink(g: GateView) {
    g.point.Driving? || g.controls.barrierBypass
  }

  lemma {:induction false} ActiveIffShouldBlink(cfg: Config, g: GateView)
    requires PointOk(cfg, g)
    ensures WarningLightActive(g.controls) <==> ShouldBlink(g)
  {
  }

  /** A run during which the light has no reason to blink and the lamp task is never late. */
  ghost predicate QuietRun(cfg: Config, s: System, acts: seq<Action>)
    decreases |acts|
  {
    && !ShouldBlink(s.gate)
    && (!s.lamp.parked ==> s.now <= s.lamp.wakeAt)
    && (acts == [] || (Enabled(cfg, s, acts[0]) && QuietRun(cfg, Step(cfg, s, acts[0]), acts[1..])))
  }

  lemma {:induction false} QuietRunIsValid(cfg: Config, s: System, acts: seq<Action>)
    requires QuietRun(cfg, s, acts)
    ensures ValidRun(cfg, s, acts)
    decreases |acts|
  {
    if acts != [] {
      QuietRunIsValid(cfg, Step(cfg, s, acts[0]), acts[1..]);
    }
  }

  /** Asleep since before the light went quiet, or dark. */
  ghost predicate Fading(s: System, lamp: Lamp) {
    if s.lamp.parked then !s.lamp.lit else s.lamp == lamp
  }

  lemma {:induction false} FadingRun(cfg: Config, s: System, lamp: Lamp, acts: seq<Action>)
    requires SystemOk(cfg, s) && QuietRun(cfg, s, acts) && ValidRun(cfg, s, acts) && Fading(s, lamp)
    ensures Fading(After(cfg, s, acts), lamp)
    ensures var s' := After(cfg, s, acts); !s'.lamp.parked ==> s'.now <= s'.lamp.wakeAt
    decreases |acts|
  {
    if acts != [] {
      ActiveIffShouldBlink(cfg, s.gate);
      StepOk(cfg, s, acts[0]);
      FadingRun(cfg, Step(cfg, s, acts[0]), lamp, acts[1..]);
    }
  }

  /** Once the gate has rested with the bypass off for more than one half period, the lamp is dark. */
  lemma {:induction false} DarkWithinHalfPeriod(cfg: Config, s: System, acts: seq<Action>)
    requires SystemOk(cfg, s) && LampOk(cfg, s) && QuietRun(cfg, s, acts) && ValidRun(cfg, s, acts)
    requires s.now + cfg.halfPeriod < After(cfg, s, acts).now
    ensures After(cfg, s, acts).lamp.parked && !After(cfg, s, acts).lamp.lit
  {
    FadingRun(cfg, s, s.lamp, acts);
  }

  // ----- Blinking -----

  /** A run during which the light keeps blinking and the lamp task is never late. */
  ghost predicate BlinkingRun(cfg: Config, s: System, acts: seq<Action>)
    decreases |acts|
  {
    && ShouldBlink(s.gate) && !s.lamp.parked && s.now <= s.lamp.wakeAt
    && (acts == [] || (Enabled(cfg, s, acts[0]) && BlinkingRun(cfg, Step(cfg, s, acts[0]), acts[1..])))
  }

  ghost function LampPolls(acts: seq<Action>): nat {
    if acts == [] then 0 else (if acts[0].PollLamp? then 1 else 0) + LampPolls(acts[1..])
  }

  /** `n` toggles, each one half period after the one before. */
  ghost predicate Toggled(lamp: Lamp, lamp': Lamp, n: nat, halfPeriod: nat) {
    && lamp'.lit == (if n % 2 == 0 then lamp.lit else !lamp.lit)
    && lamp'.wakeAt == lamp.wakeAt + n * halfPeriod
  }

  lemma {:induction false} ToggledOnceMore(lamp: Lamp, lamp': Lamp, n: nat, halfPeriod: nat)
    requires Toggled(Lamp(!lamp.lit, false, lamp.wakeAt + halfPeriod), lamp', n, halfPeriod)
    ensures Toggled(lamp, lamp', n + 1, halfPeriod)
  {
    assert (n + 1) * halfPeriod == n * halfPeriod + halfPeriod;
  }

  /** While the gate moves or the bypass is armed, the lamp toggles exactly once per half period, and at no other time. */
  lemma {:induction false} BlinksSteadily(cfg: Config, s: System, acts: seq<Action>)
    requires SystemOk(cfg, s) && BlinkingRun(cfg, s, acts) && ValidRun(cfg, s, acts)
    ensures Toggled(s.lamp, After(cfg, s, acts).lamp, LampPolls(acts), cfg.halfPeriod)
    ensures After(cfg, s, acts).now <= After(cfg, s, acts).lamp.wakeAt
    decreases |acts|
  {
    if acts != [] {
      ActiveIffShouldBlink(cfg, s.gate);
      BlinkStep(cfg, s, acts[0]);
      StepOk(cfg, s, acts[0]);
      BlinksSteadily(cfg, Step(cfg, s, acts[0]), acts[1..]);
      if acts[0].PollLamp? {
        ToggledOnceMore(s.lamp, After(cfg, s, acts).lamp, LampPolls(acts[1..]), cfg.halfPeriod);
      }
    }
  }

  /** A pass of the lamp task changes nothing but the lamp, except that a parked one takes the signal it was waiting for. */
  lemma {:induction false} LampTakesItsSignal(cfg: Config, s: System)
    requires Enabled(cfg, s, PollLamp)
    ensures var s' := Step(cfg, s, PollLamp);
      && s' == s.(lamp := s'.lamp, gate := s.gate.(controls := s.gate.controls.(
                    lightChanged := s.gate.controls.lightChanged && !s.lamp.parked)))
  {
  }

  /** Only the lamp task touches the lamp, and a blinking one wakes exactly on time. */
  lemma {:induction false} BlinkStep(cfg: Config, s: System, act: Action)
    requires WarningLightActive(s.gate.controls) && !s.lamp.parked && s.now <= s.lamp.wakeAt
    requires Enabled(cfg, s, act)
    ensures Step(cfg, s, act).lamp ==
      if act.PollLamp? then Lamp(!s.lamp.lit, false, s.lamp.wakeAt + cfg.halfPeriod) else s.lamp
  {
  }

  // ----- The lamp loop -----

  /** The lamp task's loop, one pass per poll. */
  class LampTask {
    var lit: bool
    var pinHigh: bool
    var parked: bool
    var wakeAt: nat

    ghost predicate Valid() reads this { pinHigh == lit }

    ghost function View(): Lamp reads this { Lamp(lit, parked, wakeAt) }

    constructor (at: nat)
      ensures Valid() && View() == Lamp(false, false, at)
    {
      lit, pinHigh, parked, wakeAt := false, false, false, at;
    }

    method Pass(active: bool, now: nat, halfPeriod: nat)
      requires Valid()
      modifies this
      ensures Valid() && View() == LampPass(old(View()), active, now, halfPeriod)
    {
      if active {
        lit := !lit;
        pinHigh := lit;
        parked, wakeAt := false, now + halfPeriod;
      } else {
        lit := false;
        pinHigh := false;
        parked, wakeAt := true, now;
      }
    }
  }
}
