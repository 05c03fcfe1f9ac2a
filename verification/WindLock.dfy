/** The wind lock: in every interleaving an Open is pursued, unless light barrier 1 has refused it. */
module WindLock {
  import opened Base
  import opened M = MotorModel
  import opened C = ControlsModel
  import opened G = GateModel
  import opened S = SystemModel
  import opened I = GateInvariant
  import opened J = Inputs

  ghost predicate BothOpen(g: GateView) {
    g.a.position == 255 && g.b.position == 255
  }

  /** The gate is open, on its way there, or about to go. */
  ghost predicate OnItsWay(g: GateView) {
    || g.controls.command == Some(Open)
    || g.pending == Some(Open)
    || (g.point.Driving? && g.point.direction.Opening?)
    || BothOpen(g)
  }

  /** Or light barrier 1 is interrupted, and will queue the Open again when it clears. */
  ghost predicate PursuesOpen(g: GateView) {
    OnItsWay(g) || g.controls.barrier1Active
  }

  /** While locked nothing but Open is queued, and a closing movement has its Open waiting. */
  ghost predicate WindOk(g: GateView) {
    g.controls.windLocked ==>
      && g.controls.command in {None, Some(Open)}
      && PursuesOpen(g)
      && (g.point.Driving? && g.point.direction.Closing? ==> g.controls.command == Some(Open))
  }

  /** An opening round ends with the gate open, blocked by barrier 1, or still opening. */
  lemma {:induction false} OpeningRound(cfg: Config, g: GateView, a: Phase, b: Phase, moved: bool, r: Reads)
    requires Sound(cfg) && MotorsOk(cfg, g, r.now)
    requires LeafOk(cfg, g.a, a, Opening) && LeafOk(cfg, g.b, b, Opening)
    requires r.now <= r.a <= r.b <= r.now + cfg.skew
    requires g.controls.windLocked ==> g.controls.command in {None, Some(Open)}
    ensures WindOk(DriveRound(g, Opening, a, b, moved, r).gate)
  {
    if Blocked(g.controls, Opening).None? {
      PollLeafOk(cfg, g.a, a, Opening, r.now, r.a);
      PollLeafOk(cfg, g.b, b, Opening, r.now, r.b);
    }
  }

  /** A closing round under the lock gives up at once and leaves the queued Open alone. */
  lemma {:induction false} ClosingRound(g: GateView, a: Phase, b: Phase, moved: bool, r: Reads)
    requires g.controls.windLocked ==> g.controls.command == Some(Open)
    ensures WindOk(DriveRound(g, Closing, a, b, moved, r).gate)
  {
  }

  lemma {:induction false} ExecutedWind(cfg: Config, g: GateView, command: GateCommand, r: Reads)
    requires Sound(cfg) && MotorsOk(cfg, g, r.now) && g.a.state.Idle? && g.b.state.Idle? && g.pending.None?
    requires r.now <= r.a <= r.b <= r.now + cfg.skew
    requires g.controls.windLocked ==> g.controls.command in {None, Some(Open)}
    requires g.controls.windLocked ==> command == Open || (command == Close && PursuesOpen(g) && g.point.Resting?)
    ensures WindOk(Executed(g, command, r).gate)
  {
    match ResolveImpulse(g.controls, command) {
      case Open =>
        if Blocked(g.controls, Opening).None? {
          PlanOk(cfg, g.a, Opening, r.plan);
          PlanOk(cfg, g.b, Opening, r.plan);
          OpeningRound(cfg, Notified(g.(controls := DirectionSet(g.controls, Opening))),
                       Plan(g.a, Opening, r.plan), Plan(g.b, Opening, r.plan), false, r);
        }
      case Close =>
        if Blocked(g.controls, Closing).None? {
          ClosingRound(Notified(g.(controls := DirectionSet(g.controls, Closing))),
                       Plan(g.a, Closing, r.plan), Plan(g.b, Closing, r.plan), false, r);
        }
      case Stop =>
      case Impulse =>
    }
  }

  lemma {:induction false} DrivePolledWind(cfg: Config, g: GateView, r: Reads)
    requires Sound(cfg) && GateOk(cfg, g, r.now) && WindOk(g) && g.point.Driving?
    requires r.now <= r.a <= r.b <= r.now + cfg.skew
    ensures WindOk(DrivePolled(g, r).gate)
  {
    var Driving(d, a, b, moved, deadline) := g.point;
    var w := DriveWinner(g.controls, deadline, r.wake);
    if !w.Nothing? && !Interrupts(w, d) {
      if d.Opening? {
        OpeningRound(cfg, Woken(g, w), a, b, moved, r);
      } else {
        ClosingRound(Woken(g, w), a, b, moved, r);
      }
    }
  }

  lemma {:induction false} PolledWind(cfg: Config, g: GateView, r: Reads)
    requires Sound(cfg) && GateOk(cfg, g, r.now) && WindOk(g)
    requires r.now <= r.a <= r.b <= r.now + cfg.skew
    ensures WindOk(Polled(g, r).gate)
  {
    if g.point.Driving? {
      DrivePolledWind(cfg, g, r);
    } else if g.pending.Some? {
      ExecutedWind(cfg, g.(pending := None), g.pending.value, r);
    } else if g.controls.command.Some? {
      ExecutedWind(cfg, g.(controls := g.controls.(command := None)), g.controls.command.value, r);
    }
  }

  /** Every input keeps the queue and the pursuit of a locked gate. */
  lemma {:induction false} InputWind(cfg: Config, s: System, act: Action)
    requires WindOk(s.gate) && Enabled(cfg, s, act) && !act.PollGate?
    ensures WindOk(Step(cfg, s, act).gate)
  {
  }

  lemma {:induction false} WindStep(cfg: Config, s: System, act: Action)
    requires Sound(cfg) && SystemOk(cfg, s) && WindOk(s.gate) && Enabled(cfg, s, act)
    ensures WindOk(Step(cfg, s, act).gate)
  {
    match act {
      case PollGate(r) => PolledWind(cfg, s.gate, r);
      case _ => InputWind(cfg, s, act);
    }
  }

  /** What matters about the controls at boot is that nothing but Open is queued. */
  lemma {:induction false} WindBoot(cfg: Config, c: ControlsState, flash: Option<GateState>, at: nat)
    requires c.command in {None, Some(Open)}
    ensures WindOk(Boot(cfg, c, flash, at).gate)
  {
  }

  // ----- A lock that nothing pursues -----

  /** Locked, at rest and not open, with no Open queued: barrier 1 has refused it. */
  ghost predicate Stranded(g: GateView) {
    && g.controls.windLocked && g.point.Resting? && !BothOpen(g)
    && g.controls.command.None? && g.pending != Some(Open)
  }

  /** The only actions that get a stranded gate going, or make it ready to. */
  predicate Releases(act: Action) {
    act == WindGuard || act == WindReset || act == Mqtt(ResetWindLock) || act == Barrier1(false)
  }

  lemma {:induction false} PolledStranded(cfg: Config, g: GateView, r: Reads)
    requires PointOk(cfg, g) && Stranded(g) && g.pending in {None, Some(Close)}
    ensures var g' := Polled(g, r).gate; Stranded(g') && g'.a == g.a && g'.b == g.b
  {
    if g.pending == Some(Close) {
      assert Polled(g, r) == Finished(g.(pending := None));
    }
  }

  lemma {:induction false} InputStranded(cfg: Config, s: System, act: Action)
    requires Stranded(s.gate) && Enabled(cfg, s, act) && !act.PollGate?
    ensures var g' := Step(cfg, s, act).gate;
      && (Stranded(g') <==> !Releases(act))
      && g'.a == s.gate.a && g'.b == s.gate.b
  {
  }

  /** A stranded gate stays where it is, and stranded, through exactly the actions that do not release it. */
  lemma {:induction false} StrandedStep(cfg: Config, s: System, act: Action)
    requires SystemOk(cfg, s) && Stranded(s.gate) && Enabled(cfg, s, act)
    ensures var g' := Step(cfg, s, act).gate;
      && (Stranded(g') <==> !Releases(act))
      && g'.a == s.gate.a && g'.b == s.gate.b
  {
    match act {
      case PollGate(r) => PolledStranded(cfg, s.gate, r);
      case _ => InputStranded(cfg, s, act);
    }
  }

  /** However long it goes on being polled: no relay is written and no position changes until it is released. */
  lemma {:induction false} StrandedUntilReleased(cfg: Config, s: System, acts: seq<Action>)
    requires SystemOk(cfg, s) && Stranded(s.gate) && ValidRun(cfg, s, acts)
    requires forall i :: 0 <= i < |acts| ==> !Releases(acts[i])
    ensures var g' := After(cfg, s, acts).gate; Stranded(g') && g'.a == s.gate.a && g'.b == s.gate.b
    decreases |acts|
  {
    if acts != [] {
      StrandedStep(cfg, s, acts[0]);
      StepOk(cfg, s, acts[0]);
      StrandedUntilReleased(cfg, Step(cfg, s, acts[0]), acts[1..]);
    }
  }

  // ----- How a gate becomes stranded -----

  /** An opening round that is not blocked is still opening afterwards, or has arrived. */
  lemma {:induction false} OpeningGoesOn(cfg: Config, g: GateView, a: Phase, b: Phase, moved: bool, r: Reads)
    requires Sound(cfg) && MotorsOk(cfg, g, r.now)
    requires LeafOk(cfg, g.a, a, Opening) && LeafOk(cfg, g.b, b, Opening)
    requires r.now <= r.a <= r.b <= r.now + cfg.skew && Blocked(g.controls, Opening).None?
    ensures OnItsWay(DriveRound(g, Opening, a, b, moved, r).gate)
  {
    PollLeafOk(cfg, g.a, a, Opening, r.now, r.a);
    PollLeafOk(cfg, g.b, b, Opening, r.now, r.b);
    RoundEnds(g, Opening, a, b, moved, r);
  }

  lemma {:induction false} OpenGoesOn(cfg: Config, g: GateView, r: Reads)
    requires Sound(cfg) && MotorsOk(cfg, g, r.now) && g.a.state.Idle? && g.b.state.Idle?
    requires r.now <= r.a <= r.b <= r.now + cfg.skew && Blocked(g.controls, Opening).None?
    ensures OnItsWay(DriveStarted(g, Opening, r).gate)
  {
    PlanOk(cfg, g.a, Opening, r.plan);
    PlanOk(cfg, g.b, Opening, r.plan);
    OpeningGoesOn(cfg, Notified(g.(controls := DirectionSet(g.controls, Opening))),
                  Plan(g.a, Opening, r.plan), Plan(g.b, Opening, r.plan), false, r);
  }

  /** A closing movement under the lock either hands the queued Open back or leaves it in the slot. */
  lemma {:induction false} ClosingGivesWay(g: GateView, r: Reads)
    requires g.point.Driving? && g.point.direction.Closing? && g.controls.windLocked
    requires g.controls.command == Some(Open)
    ensures OnItsWay(DrivePolled(g, r).gate)
  {
    var w := DriveWinner(g.controls, g.point.deadline, r.wake);
    if !Interrupts(w, Closing) {
      assert Blocked(Woken(g, w).controls, Closing).Some?;
    }
  }

  lemma {:induction false} DrivePolledGoesOn(cfg: Config, g: GateView, r: Reads)
    requires Sound(cfg) && GateOk(cfg, g, r.now) && WindOk(g) && g.point.Driving? && g.controls.windLocked
    requires r.now <= r.a <= r.b <= r.now + cfg.skew && Blocked(g.controls, Opening).None?
    ensures OnItsWay(DrivePolled(g, r).gate)
  {
    if g.point.direction.Closing? {
      ClosingGivesWay(g, r);
    } else {
      var Driving(d, a, b, moved, deadline) := g.point;
      var w := DriveWinner(g.controls, deadline, r.wake);
      if !w.Nothing? {
        assert Blocked(Woken(g, w).controls, d).None?;
        OpeningGoesOn(cfg, Woken(g, w), a, b, moved, r);
      }
    }
  }

  lemma {:induction false} RestPolledGoesOn(cfg: Config, g: GateView, r: Reads)
    requires Sound(cfg) && GateOk(cfg, g, r.now) && WindOk(g) && g.point.Resting? && g.controls.windLocked
    requires r.now <= r.a <= r.b <= r.now + cfg.skew && Blocked(g.controls, Opening).None? && OnItsWay(g)
    ensures OnItsWay(RestPolled(g, r).gate)
  {
    if g.pending == Some(Open) {
      var g1 := g.(pending := None);
      assert RestPolled(g, r) == DriveStarted(g1, Opening, r);
      OpenGoesOn(cfg, g1, r);
    } else if g.pending == Some(Close) {
      assert RestPolled(g, r) == Finished(g.(pending := None));
    } else if g.controls.command == Some(Open) {
      var g1 := g.(controls := g.controls.(command := None));
      assert RestPolled(g, r) == DriveStarted(g1, Opening, r);
      OpenGoesOn(cfg, g1, r);
    }
  }

  lemma {:induction false} PolledGoesOn(cfg: Config, g: GateView, r: Reads)
    requires Sound(cfg) && GateOk(cfg, g, r.now) && WindOk(g) && g.controls.windLocked
    requires r.now <= r.a <= r.b <= r.now + cfg.skew && Blocked(g.controls, Opening).None? && OnItsWay(g)
    ensures OnItsWay(Polled(g, r).gate)
  {
    if g.point.Driving? {
      DrivePolledGoesOn(cfg, g, r);
    } else {
      RestPolledGoesOn(cfg, g, r);
    }
  }

  lemma {:induction false} InputKeepsPlace(cfg: Config, s: System, act: Action)
    requires Enabled(cfg, s, act) && !act.PollGate?
    ensures var g, g' := s.gate, Step(cfg, s, act).gate;
      g'.point == g.point && g'.pending == g.pending && g'.a == g.a && g'.b == g.b
  {
  }

  /** An input that engages the lock queues Open, and none takes an Open away under it. */
  lemma {:induction false} InputKeepsOpen(cfg: Config, s: System, act: Action)
    requires Enabled(cfg, s, act) && !act.PollGate?
    ensures var c, c' := s.gate.controls, Step(cfg, s, act).gate.controls;
      c'.windLocked ==> c'.command == Some(Open) || (c.windLocked && c'.command == c.command)
  {
    match act {
      case Mqtt(command) => assert Applied(command, s.gate.controls).windLocked ==> s.gate.controls.windLocked;
      case _ =>
    }
  }

  lemma {:induction false} InputStrandsNothing(cfg: Config, s: System, act: Action)
    requires !Stranded(s.gate) && Enabled(cfg, s, act) && !act.PollGate?
    ensures !Stranded(Step(cfg, s, act).gate)
  {
    InputKeepsPlace(cfg, s, act);
    InputKeepsOpen(cfg, s, act);
  }

  /** A gate that is not stranded becomes so only in a segment that finds opening blocked by barrier 1. */
  lemma {:induction false} StrandedOnlyByRefusal(cfg: Config, s: System, act: Action)
    requires Sound(cfg) && SystemOk(cfg, s) && WindOk(s.gate) && Enabled(cfg, s, act)
    requires !Stranded(s.gate) && Stranded(Step(cfg, s, act).gate)
    ensures act.PollGate? && s.gate.controls.windLocked
    ensures Blocked(s.gate.controls, Opening) == Some(LightBarrier1)
  {
    if act.PollGate? {
      PolledKeepsFlags(s.gate, act.readings);
      StrandedNotOnItsWay(Polled(s.gate, act.readings).gate);
      if Blocked(s.gate.controls, Opening).None? {
        PursuedOrStranded(cfg, s.gate, s.now);
        PolledGoesOn(cfg, s.gate, act.readings);
      }
    } else {
      InputStrandsNothing(cfg, s, act);
    }
  }

  lemma {:induction false} StrandedNotOnItsWay(g: GateView)
    requires Stranded(g)
    ensures !OnItsWay(g) && g.controls.windLocked
  {
  }

  lemma {:induction false} PursuedOrStranded(cfg: Config, g: GateView, now: nat)
    requires GateOk(cfg, g, now) && WindOk(g) && g.controls.windLocked
    ensures OnItsWay(g) <==> !Stranded(g)
  {
  }

  // ----- Exactly which command slot a restored lock tolerates -----

  ghost predicate AlwaysPursues(cfg: Config, s: System) {
    forall acts :: ValidRun(cfg, s, acts) && After(cfg, s, acts).gate.controls.windLocked ==>
      PursuesOpen(After(cfg, s, acts).gate)
  }

  /** The first segment after boot: the restored lock starts opening and suspends. */
  lemma {:induction false} BootStartsOpening(cfg: Config, c: ControlsState, flash: Option<GateState>, at: nat)
    requires Sound(cfg) && LoadOrDefault(flash).windLocked && !c.barrier1Active
    requires !BothOpen(Boot(cfg, c, flash, at).gate)
    ensures var g := Polled(Boot(cfg, c, flash, at).gate, Reads(at, at, at, at, at)).gate;
      && g.point.Driving? && g.point.direction.Opening? && at < g.point.deadline
      && g.controls.command == c.command && !g.controls.barrier1Active && g.controls.windLocked
      && g.pending.None? && !BothOpen(g)
      && Elapses(g.a, at) && Elapses(g.b, at)
      && Polled(Boot(cfg, c, flash, at).gate, Reads(at, at, at, at, at)).snapshot.None?
  {
    var g0 := Boot(cfg, c, flash, at).gate;
    var g1 := g0.(pending := None);
    assert Polled(g0, Reads(at, at, at, at, at)) == DriveStarted(g1, Opening, Reads(at, at, at, at, at));
  }

  /** Nothing has been travelled by the instant `at`. */
  ghost predicate Elapses(m: MotorState, at: nat) {
    m.state.Running? ==> m.state.since == at
  }

  /** Another command taken before anything has been travelled ends the opening where it began. */
  lemma {:induction false} OpeningTakenBack(g: GateView, at: nat)
    requires g.point.Driving? && g.point.direction.Opening? && at < g.point.deadline
    requires g.controls.command.Some? && g.controls.command.value != Open
    requires g.controls.windLocked && !g.controls.barrier1Active && !BothOpen(g)
    requires Elapses(g.a, at) && Elapses(g.b, at)
    ensures var g' := Polled(g, Reads(at, at, at, at, at)).gate;
      g'.controls.windLocked && !PursuesOpen(g')
  {
    NothingTravelled(g.a, at);
    NothingTravelled(g.b, at);
  }

  lemma {:induction false} NothingTravelled(m: MotorState, at: nat)
    requires Elapses(m, at)
    ensures Settled(m, at).position == m.position
  {
  }

  /** A stale command other than Open takes the forced opening back and leaves nothing pursuing it. */
  lemma {:induction false} StaleCommandDefeatsLock(cfg: Config, c: ControlsState, flash: Option<GateState>, at: nat)
    requires Sound(cfg) && LoadOrDefault(flash).windLocked && !c.barrier1Active
    requires !BothOpen(Boot(cfg, c, flash, at).gate)
    requires c.command.Some? && c.command.value != Open
    ensures !AlwaysPursues(cfg, Boot(cfg, c, flash, at))
  {
    var r := Reads(at, at, at, at, at);
    var s0 := Boot(cfg, c, flash, at);
    BootStartsOpening(cfg, c, flash, at);
    var s1 := Step(cfg, s0, PollGate(r));
    OpeningTakenBack(s1.gate, at);
    var s2 := Step(cfg, s1, PollGate(r));
    assert s2.gate.controls.windLocked && !PursuesOpen(s2.gate);
    TwoSteps(cfg, s0, PollGate(r), PollGate(r));
  }

  lemma {:induction false} TwoSteps(cfg: Config, s: System, x: Action, y: Action)
    requires Enabled(cfg, s, x) && Enabled(cfg, Step(cfg, s, x), y)
    ensures ValidRun(cfg, s, [x, y])
    ensures After(cfg, s, [x, y]) == Step(cfg, Step(cfg, s, x), y)
  {
    OneStep(cfg, Step(cfg, s, x), y);
    assert [x, y][1..] == [y];
  }

  lemma {:induction false} OneStep(cfg: Config, s: System, x: Action)
    requires Enabled(cfg, s, x)
    ensures ValidRun(cfg, s, [x]) && After(cfg, s, [x]) == Step(cfg, s, x)
  {
    assert [x][1..] == [];
  }

  // ----- A stale command is harmless behind barrier 1 or at the open end -----

  /** Locked and held by barrier 1, or already open and at rest: a command in the slot can do no harm. */
  ghost predicate Held(g: GateView) {
    && g.controls.windLocked
    && ((g.controls.barrier1Active && !(g.point.Driving? && g.point.direction.Closing?))
        || (g.point.Resting? && BothOpen(g)))
  }

  /** No segment starts to close under the lock, and an open gate at rest stays where it is. */
  lemma {:induction false} ExecutedHeld(g: GateView, command: GateCommand, r: Reads)
    requires Held(g) && g.point.Resting? && g.a.state.Idle? && g.b.state.Idle?
    ensures Held(Executed(g, command, r).gate)
  {
    if ResolveImpulse(g.controls, command) == Open && Blocked(g.controls, Opening).None? {
      var g1 := Notified(g.(controls := DirectionSet(g.controls, Opening)));
      RoundEnds(g1, Opening, Plan(g.a, Opening, r.plan), Plan(g.b, Opening, r.plan), false, r);
      RoundKeepsFlags(g1, Opening, Plan(g.a, Opening, r.plan), Plan(g.b, Opening, r.plan), false, r);
    }
  }

  lemma {:induction false} DrivePolledHeld(cfg: Config, g: GateView, r: Reads)
    requires PointOk(cfg, g) && Held(g) && g.point.Driving?
    ensures Held(DrivePolled(g, r).gate)
  {
    var Driving(d, a, b, moved, deadline) := g.point;
    var w := DriveWinner(g.controls, deadline, r.wake);
    if Interrupts(w, d) {
      EndedKeepsFlags(Woken(g, w), moved, HandedBack(w.command), r);
    } else if !w.Nothing? {
      RoundKeepsFlags(Woken(g, w), d, a, b, moved, r);
    }
  }

  lemma {:induction false} PolledHeld(cfg: Config, g: GateView, r: Reads)
    requires PointOk(cfg, g) && Held(g)
    ensures Held(Polled(g, r).gate)
  {
    if g.point.Driving? {
      DrivePolledHeld(cfg, g, r);
    } else if g.pending.Some? {
      ExecutedHeld(g.(pending := None), g.pending.value, r);
    } else if g.controls.command.Some? {
      ExecutedHeld(g.(controls := g.controls.(command := None)), g.controls.command.value, r);
    }
  }

  /** Clearing barrier 1 under the lock queues Open over whatever was in the slot. */
  lemma {:induction false} InputHeld(cfg: Config, s: System, act: Action)
    requires Held(s.gate) && Enabled(cfg, s, act) && !act.PollGate?
    ensures Held(Step(cfg, s, act).gate) || WindOk(Step(cfg, s, act).gate)
  {
  }

  lemma {:induction false} HeldStep(cfg: Config, s: System, act: Action)
    requires Sound(cfg) && SystemOk(cfg, s) && (Held(s.gate) || WindOk(s.gate)) && Enabled(cfg, s, act)
    ensures Held(Step(cfg, s, act).gate) || WindOk(Step(cfg, s, act).gate)
  {
    if WindOk(s.gate) {
      WindStep(cfg, s, act);
    } else {
      match act {
        case PollGate(r) => PolledHeld(cfg, s.gate, r);
        case _ => InputHeld(cfg, s, act);
      }
    }
  }

  lemma {:induction false} HeldRun(cfg: Config, s: System, acts: seq<Action>)
    requires Sound(cfg) && SystemOk(cfg, s) && (Held(s.gate) || WindOk(s.gate)) && ValidRun(cfg, s, acts)
    ensures Held(After(cfg, s, acts).gate) || WindOk(After(cfg, s, acts).gate)
    decreases |acts|
  {
    if acts != [] {
      HeldStep(cfg, s, acts[0]);
      StepOk(cfg, s, acts[0]);
      HeldRun(cfg, Step(cfg, s, acts[0]), acts[1..]);
    }
  }

  /**
   * A wind lock restored from flash is pursued in every run if and only if, when
   * the gate is created, the command slot holds nothing but an Open, or barrier 1
   * is active, or both leaves are open.
   */
  lemma {:induction false} RestoredLockIsPursuedIff(cfg: Config, c: ControlsState, flash: Option<GateState>, at: nat)
    requires Sound(cfg) && LoadOrDefault(flash).windLocked
    ensures AlwaysPursues(cfg, Boot(cfg, c, flash, at)) <==>
      (c.command in {None, Some(Open)} || c.barrier1Active || BothOpen(Boot(cfg, c, flash, at).gate))
  {
    var s0 := Boot(cfg, c, flash, at);
    if c.command in {None, Some(Open)} || c.barrier1Active || BothOpen(s0.gate) {
      BootOk(cfg, c, flash, at);
      assert Held(s0.gate) || WindOk(s0.gate);
      forall acts | ValidRun(cfg, s0, acts) && After(cfg, s0, acts).gate.controls.windLocked
        ensures PursuesOpen(After(cfg, s0, acts).gate)
      {
        HeldRun(cfg, s0, acts);
      }
    } else {
      StaleCommandDefeatsLock(cfg, c, flash, at);
    }
  }
}
