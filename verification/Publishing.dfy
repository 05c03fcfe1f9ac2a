/** The announced state is never stale at rest. */
module Publishing {
  import opened Base
  import opened M = MotorModel
  import opened C = ControlsModel
  import opened G = GateModel
  import opened S = SystemModel
  import opened I = GateInvariant

  /** The gate task still has something to react to. */
  ghost predicate Busy(g: GateView) {
    g.point.Driving? || g.controls.command.Some? || g.controls.windLockReset
  }

  ghost predicate LastAnnounced(outbox: seq<Message>, c: ControlsState) {
    |outbox| >= 3 && outbox[|outbox| - 3..] == StateMessages(c)
  }

  /** Movement and bypass are always announced; the wind lock may lag only while the gate task is busy. */
  ghost predicate PublishedOk(g: GateView) {
    || LastAnnounced(g.outbox, g.controls)
    || (Busy(g) && LastAnnounced(g.outbox, g.controls.(windLocked := !g.controls.windLocked)))
  }

  ghost predicate EndsWith(outbox: seq<Message>, messages: seq<Message>) {
    |outbox| >= |messages| && outbox[|outbox| - |messages|..] == messages
  }

  /** What the broker should be told about the gate: its movement or position, the wind lock and the bypass. */
  function Announcement(g: GateView): seq<Message> {
    var cover :=
      match g.point
      case Driving(d, _, _, _, _) => (if d == Opening then "opening" else "closing")
      case Resting => (if g.a.position == 0 && g.b.position == 0 then "closed" else "open");
    [Message("mqtt_gate/cover/state", cover),
     Message("mqtt_gate/wind/state", if g.controls.windLocked then "ON" else "OFF"),
     Message("mqtt_gate/barrier_bypass/state", if g.controls.barrierBypass then "ON" else "OFF")]
  }

  lemma {:induction false} AnnouncementIsState(cfg: Config, g: GateView)
    requires PointOk(cfg, g)
    ensures StateMessages(g.controls) == Announcement(g)
  {
  }

  lemma {:induction false} NotifiedAnnounces(g: GateView)
    ensures LastAnnounced(Notified(g).outbox, g.controls)
  {
    var o := Notified(g).outbox;
    assert o[|o| - 3..] == StateMessages(g.controls);
  }

  lemma {:induction false} FinishedPublishes(g: GateView)
    ensures PublishedOk(Finished(g).gate)
  {
    NotifiedAnnounces(g.(controls := g.controls.(
      currentDirection := None, position := Classify(g.a.position, g.b.position)), point := Resting));
  }

  lemma {:induction false} DriveEndedPublishes(g: GateView, moved: bool, result: Option<GateCommand>, r: Reads)
    ensures PublishedOk(DriveEnded(g, moved, result, r).gate)
  {
    FinishedPublishes(g.(a := Settled(g.a, r.a), b := Settled(g.b, r.b), pending := result,
                         controls := g.controls.(barrierBypass := g.controls.barrierBypass && !moved)));
  }

  ghost predicate AnnouncedButWind(g: GateView) {
    || LastAnnounced(g.outbox, g.controls)
    || LastAnnounced(g.outbox, g.controls.(windLocked := !g.controls.windLocked))
  }

  lemma {:induction false} DriveRoundPublishes(g: GateView, d: Direction, a: Phase, b: Phase, moved: bool, r: Reads)
    requires AnnouncedButWind(g)
    ensures PublishedOk(DriveRound(g, d, a, b, moved, r).gate)
  {
    var x, y := PollLeaf(g.a, a, d, r.now, r.a), PollLeaf(g.b, b, d, r.now, r.b);
    DriveEndedPublishes(g, moved, None, r);
    DriveEndedPublishes(g.(a := x.motor, b := y.motor), moved || x.moved || y.moved, None, r);
  }

  lemma {:induction false} ExecutedPublishes(g: GateView, command: GateCommand, r: Reads)
    ensures PublishedOk(Executed(g, command, r).gate)
  {
    FinishedPublishes(g);
    FinishedPublishes(g.(a := Settled(g.a, r.a), b := Settled(g.b, r.b)));
    var d := if ResolveImpulse(g.controls, command).Open? then Opening else Closing;
    var g1 := g.(controls := DirectionSet(g.controls, d));
    NotifiedAnnounces(g1);
    DriveRoundPublishes(Notified(g1), d, Plan(g.a, d, r.plan), Plan(g.b, d, r.plan), false, r);
  }

  /** Taking a signal leaves everything that is announced alone. */
  lemma {:induction false} TakenAnnounced(g: GateView, c: ControlsState)
    requires AnnouncedButWind(g)
    requires Cover(c) == Cover(g.controls) && c.windLocked == g.controls.windLocked
    requires c.barrierBypass == g.controls.barrierBypass
    ensures AnnouncedButWind(g.(controls := c))
    ensures LastAnnounced(g.outbox, g.controls) ==> LastAnnounced(g.outbox, c)
  {
    var flipped := c.(windLocked := !c.windLocked);
    assert Cover(flipped) == Cover(c);
    assert StateMessages(flipped) == StateMessages(g.controls.(windLocked := !g.controls.windLocked));
  }

  lemma {:induction false} DrivePolledPublishes(g: GateView, r: Reads)
    requires PublishedOk(g) && g.point.Driving?
    ensures PublishedOk(DrivePolled(g, r).gate)
  {
    var Driving(d, a, b, moved, deadline) := g.point;
    var w := DriveWinner(g.controls, deadline, r.wake);
    var taken := g.(controls := Taken(g.controls, w));
    if Interrupts(w, d) {
      DriveEndedPublishes(Woken(g, w), moved, HandedBack(w.command), r);
    } else if !w.Nothing? {
      TakenAnnounced(g, taken.controls);
      NotifiedAnnounces(taken);
      DriveRoundPublishes(Woken(g, w), d, a, b, moved, r);
    }
  }

  lemma {:induction false} PolledPublishes(g: GateView, r: Reads)
    requires PublishedOk(g)
    ensures PublishedOk(Polled(g, r).gate)
  {
    if g.point.Driving? {
      DrivePolledPublishes(g, r);
    } else if g.pending.Some? {
      ExecutedPublishes(g.(pending := None), g.pending.value, r);
    } else if g.controls.command.Some? {
      ExecutedPublishes(g.(controls := g.controls.(command := None)), g.controls.command.value, r);
    } else if g.controls.windLockReset {
      FinishedPublishes(g.(controls := g.controls.(windLockReset := false)));
    }
  }

  /** An input takes no signal, and raises one if it changes the wind lock. */
  ghost predicate InputKeeps(c: ControlsState, c': ControlsState) {
    && (c.command.Some? ==> c'.command.Some?)
    && (c.windLockReset ==> c'.windLockReset)
    && (c'.windLocked == c.windLocked || c'.command.Some? || c'.windLockReset)
  }

  /** Inputs either leave the announced state alone or raise the signal that gets it announced. */
  lemma {:induction false} InputPublishes(g: GateView, c: ControlsState)
    requires PublishedOk(g)
    requires Cover(c) == Cover(g.controls) && c.barrierBypass == g.controls.barrierBypass
    requires InputKeeps(g.controls, c)
    ensures PublishedOk(g.(controls := c))
  {
    var flipped := c.(windLocked := !c.windLocked);
    assert Cover(flipped) == Cover(c);
    var was := g.controls.(windLocked := !g.controls.windLocked);
    assert Cover(was) == Cover(g.controls);
    assert StateMessages(g.controls) == StateMessages(c) || StateMessages(g.controls) == StateMessages(flipped);
    assert StateMessages(was) == StateMessages(c) || StateMessages(was) == StateMessages(flipped);
  }

  /** `execute` announces a bypass change itself and leaves the rest to the gate task. */
  lemma {:induction false} ExecuteMqttPublishes(g: GateView, command: Command)
    requires PublishedOk(g)
    ensures PublishedOk(ExecutedMqtt(g, command))
  {
    var c := Applied(command, g.controls);
    if command.SetBarrierBypass? {
      NotifiedAnnounces(g.(controls := c));
    } else {
      InputPublishes(g, c);
    }
  }

  /** The inputs that leave cover state and bypass alone. */
  lemma {:induction false} QuietInputPublishes(cfg: Config, s: System, act: Action)
    requires PublishedOk(s.gate) && Enabled(cfg, s, act)
    requires act.PressImpulse? || act.WindGuard? || act.WindReset? || act.Barrier1? || act.Barrier2? || act.PollLamp?
    ensures PublishedOk(Step(cfg, s, act).gate)
  {
    var c, c' := s.gate.controls, Step(cfg, s, act).gate.controls;
    assert Step(cfg, s, act).gate == s.gate.(controls := c');
    assert Cover(c') == Cover(c) && c'.barrierBypass == c.barrierBypass;
    InputPublishes(s.gate, c');
  }

  lemma {:induction false} PublishedStep(cfg: Config, s: System, act: Action)
    requires PublishedOk(s.gate) && Enabled(cfg, s, act)
    ensures PublishedOk(Step(cfg, s, act).gate)
  {
    match act {
      case Tick(_) =>
      case FinishSave(_) =>
      case Republish => NotifiedAnnounces(s.gate);
      case PollGate(r) => PolledPublishes(s.gate, r);
      case Mqtt(command) => ExecuteMqttPublishes(s.gate, command);
      case ArmBypass => ExecuteMqttPublishes(s.gate, SetBarrierBypass(true));
      case _ => QuietInputPublishes(cfg, s, act);
    }
  }

  lemma {:induction false} PublishedBoot(cfg: Config, c: ControlsState, flash: Option<GateState>, at: nat)
    ensures PublishedOk(Boot(cfg, c, flash, at).gate)
  {
    var state := LoadOrDefault(flash);
    var a := NewMotor(cfg.leafA, cfg.overrun, cfg.pause, state.leafA, at);
    var b := NewMotor(cfg.leafB, cfg.overrun, cfg.pause, state.leafB, at);
    FinishedPublishes(GateView(c.(windLocked := state.windLocked), a, b,
                               if state.windLocked then Some(Open) else None, Resting, []));
  }

  // ----- Whatever is announced is the state as it then is -----

  /** Nothing was said and the state is as it was, or the last words state it. */
  ghost predicate Speaks(g: GateView, g': GateView) {
    (g'.outbox == g.outbox && g'.controls == g.controls) || LastAnnounced(g'.outbox, g'.controls)
  }

  lemma {:induction false} FinishedSpeaks(g: GateView)
    ensures LastAnnounced(Finished(g).gate.outbox, Finished(g).gate.controls)
    ensures |g.outbox| < |Finished(g).gate.outbox|
  {
    NotifiedAnnounces(g.(controls := g.controls.(
      currentDirection := None, position := Classify(g.a.position, g.b.position)), point := Resting));
  }

  lemma {:induction false} DriveEndedSpeaks(g: GateView, moved: bool, result: Option<GateCommand>, r: Reads)
    ensures var g' := DriveEnded(g, moved, result, r).gate;
      LastAnnounced(g'.outbox, g'.controls) && |g.outbox| < |g'.outbox| && g'.point.Resting?
  {
    FinishedSpeaks(g.(a := Settled(g.a, r.a), b := Settled(g.b, r.b), pending := result,
                      controls := g.controls.(barrierBypass := g.controls.barrierBypass && !moved)));
  }

  lemma {:induction false} DriveRoundSpeaks(g: GateView, d: Direction, a: Phase, b: Phase, moved: bool, r: Reads)
    ensures var g' := DriveRound(g, d, a, b, moved, r).gate;
      && Speaks(g, g') && |g.outbox| <= |g'.outbox|
      && (DriveRound(g, d, a, b, moved, r).snapshot.Some? ==> |g.outbox| < |g'.outbox|)
      && (g'.point.Resting? ==> |g.outbox| < |g'.outbox|)
  {
    var x, y := PollLeaf(g.a, a, d, r.now, r.a), PollLeaf(g.b, b, d, r.now, r.b);
    if Blocked(g.controls, d).Some? {
      DriveEndedSpeaks(g, moved, None, r);
    } else if Earliest(Deadline(x.phase), Deadline(y.phase)).None? {
      DriveEndedSpeaks(g.(a := x.motor, b := y.motor), moved || x.moved || y.moved, None, r);
    }
  }

  lemma {:induction false} DriveStartedSpeaks(g: GateView, d: Direction, r: Reads)
    ensures var g' := DriveStarted(g, d, r).gate;
      LastAnnounced(g'.outbox, g'.controls) && |g.outbox| < |g'.outbox|
  {
    if Blocked(g.controls, d).Some? {
      FinishedSpeaks(g);
    } else {
      var g1 := g.(controls := DirectionSet(g.controls, d));
      NotifiedAnnounces(g1);
      DriveRoundSpeaks(Notified(g1), d, Plan(g.a, d, r.plan), Plan(g.b, d, r.plan), false, r);
    }
  }

  lemma {:induction false} ExecutedSpeaks(g: GateView, command: GateCommand, r: Reads)
    ensures var g' := Executed(g, command, r).gate;
      LastAnnounced(g'.outbox, g'.controls) && |g.outbox| < |g'.outbox|
  {
    match ResolveImpulse(g.controls, command) {
      case Open => DriveStartedSpeaks(g, Opening, r);
      case Close => DriveStartedSpeaks(g, Closing, r);
      case _ => FinishedSpeaks(g.(a := Settled(g.a, r.a), b := Settled(g.b, r.b)));
    }
  }

  /** Any segment: what it says is the state it leaves, and it speaks when a movement begins or ends, or a reset is taken. */
  ghost predicate PollSpeaks(g: GateView, g': GateView) {
    && (g'.outbox != g.outbox ==> LastAnnounced(g'.outbox, g'.controls))
    && (g.point.Resting? != g'.point.Resting? || (g.controls.windLockReset && !g'.controls.windLockReset) ==>
          |g.outbox| < |g'.outbox|)
  }

  lemma {:induction false} DrivePolledSpeaks(g: GateView, r: Reads)
    requires g.point.Driving?
    ensures PollSpeaks(g, DrivePolled(g, r).gate)
  {
    var Driving(d, a, b, moved, deadline) := g.point;
    var w := DriveWinner(g.controls, deadline, r.wake);
    if Interrupts(w, d) {
      DriveEndedSpeaks(Woken(g, w), moved, HandedBack(w.command), r);
    } else if !w.Nothing? {
      NotifiedAnnounces(g.(controls := Taken(g.controls, w)));
      DriveRoundSpeaks(Woken(g, w), d, a, b, moved, r);
      if !w.ResetSignal? {
        RoundKeepsReset(Woken(g, w), d, a, b, moved, r);
      }
    }
  }

  lemma {:induction false} RoundKeepsReset(g: GateView, d: Direction, a: Phase, b: Phase, moved: bool, r: Reads)
    ensures DriveRound(g, d, a, b, moved, r).gate.controls.windLockReset == g.controls.windLockReset
  {
  }

  lemma {:induction false} PolledSpeaks(g: GateView, r: Reads)
    ensures PollSpeaks(g, Polled(g, r).gate)
  {
    if g.point.Driving? {
      DrivePolledSpeaks(g, r);
    } else if g.pending.Some? {
      ExecutedSpeaks(g.(pending := None), g.pending.value, r);
    } else if g.controls.command.Some? {
      ExecutedSpeaks(g.(controls := g.controls.(command := None)), g.controls.command.value, r);
    } else if g.controls.windLockReset {
      FinishedSpeaks(g.(controls := g.controls.(windLockReset := false)));
    }
  }

  lemma {:induction false} PolledAnnouncesChange(g: GateView, r: Reads)
    requires var g' := Polled(g, r).gate;
      g.point.Resting? != g'.point.Resting? || (g.controls.windLockReset && !g'.controls.windLockReset)
    ensures |g.outbox| < |Polled(g, r).gate.outbox|
  {
    PolledSpeaks(g, r);
  }

  lemma {:induction false} InputSpeaks(cfg: Config, s: System, act: Action)
    requires Enabled(cfg, s, act) && !act.PollGate?
    ensures var g' := Step(cfg, s, act).gate; g'.outbox != s.gate.outbox ==> LastAnnounced(g'.outbox, g'.controls)
  {
    match act {
      case Mqtt(command) => NotifiedAnnounces(s.gate.(controls := Applied(command, s.gate.controls)));
      case ArmBypass => NotifiedAnnounces(s.gate.(controls := Applied(SetBarrierBypass(true), s.gate.controls)));
      case Republish => NotifiedAnnounces(s.gate);
      case _ =>
    }
  }

  lemma {:induction false} StepAnnouncesState(cfg: Config, s: System, act: Action)
    requires Enabled(cfg, s, act)
    ensures var g' := Step(cfg, s, act).gate; g'.outbox != s.gate.outbox ==> LastAnnounced(g'.outbox, g'.controls)
  {
    match act {
      case PollGate(r) => PolledSpeaks(s.gate, r);
      case _ => InputSpeaks(cfg, s, act);
    }
  }
}
