/** Flash, the gate task's `saved` copy and the gate itself agree at rest, so a reboot resumes exactly. */
module Persistence {
  import opened Base
  import opened M = MotorModel
  import opened C = ControlsModel
  import opened G = GateModel
  import opened S = SystemModel
  import opened I = GateInvariant
  import opened P = Publishing

  ghost predicate StoreOk(s: System) {
    && LoadOrDefault(s.store.flash) == s.store.saved
    && (s.store.saving.Some? ==> s.store.saving.value == s.store.settled && s.store.settled != s.store.saved)
    && (s.gate.point.Resting? ==>
          s.store.settled.leafA == s.gate.a.position && s.store.settled.leafB == s.gate.b.position)
    && (s.store.settled.windLocked == s.gate.controls.windLocked || Busy(s.gate))
  }

  /** A segment that rests again either settled, with the returned snapshot current, or did nothing. */
  lemma {:induction false} PolledSettles(g: GateView, r: Reads)
    ensures var o := Polled(g, r);
      && (o.snapshot.Some? ==> o.gate.point.Resting? && o.snapshot.value == SnapshotOf(o.gate))
      && (o.snapshot.None? && o.gate.point.Resting? ==> o.gate == g)
  {
    if g.point.Driving? {
      DrivePolledSettles(g, r);
    } else if g.pending.Some? {
      ExecutedSettles(g.(pending := None), g.pending.value, r);
    } else if g.controls.command.Some? {
      ExecutedSettles(g.(controls := g.controls.(command := None)), g.controls.command.value, r);
    }
  }

  ghost predicate Settles(o: Outcome) {
    if o.snapshot.Some? then o.gate.point.Resting? && o.snapshot.value == SnapshotOf(o.gate)
    else o.gate.point.Driving?
  }

  lemma {:induction false} DriveRoundSettles(g: GateView, d: Direction, a: Phase, b: Phase, moved: bool, r: Reads)
    ensures Settles(DriveRound(g, d, a, b, moved, r))
  {
  }

  lemma {:induction false} DrivePolledSettles(g: GateView, r: Reads)
    requires g.point.Driving?
    ensures Settles(DrivePolled(g, r))
  {
    var Driving(d, a, b, moved, deadline) := g.point;
    var w := DriveWinner(g.controls, deadline, r.wake);
    if !w.Nothing? && !Interrupts(w, d) {
      DriveRoundSettles(Woken(g, w), d, a, b, moved, r);
    }
  }

  lemma {:induction false} ExecutedSettles(g: GateView, command: GateCommand, r: Reads)
    ensures Settles(Executed(g, command, r))
  {
    var d := if ResolveImpulse(g.controls, command).Open? then Opening else Closing;
    DriveRoundSettles(Notified(g.(controls := DirectionSet(g.controls, d))), d,
                      Plan(g.a, d, r.plan), Plan(g.b, d, r.plan), false, r);
  }

  lemma {:induction false} InputControls(cfg: Config, s: System, act: Action)
    requires Enabled(cfg, s, act) && !act.PollGate?
    ensures InputKeeps(s.gate.controls, Step(cfg, s, act).gate.controls)
  {
  }

  lemma {:induction false} InputStores(cfg: Config, s: System, act: Action)
    requires StoreOk(s) && Enabled(cfg, s, act) && !act.PollGate?
    ensures StoreOk(Step(cfg, s, act))
  {
    InputControls(cfg, s, act);
    var g, g' := s.gate, Step(cfg, s, act).gate;
    assert g'.a == g.a && g'.b == g.b && g'.point == g.point;
  }

  lemma {:induction false} StoreStep(cfg: Config, s: System, act: Action)
    requires StoreOk(s) && Enabled(cfg, s, act)
    ensures StoreOk(Step(cfg, s, act))
  {
    match act {
      case PollGate(r) => PolledSettles(s.gate, r);
      case _ => InputStores(cfg, s, act);
    }
  }

  lemma {:induction false} StoreBoot(cfg: Config, c: ControlsState, flash: Option<GateState>, at: nat)
    ensures StoreOk(Boot(cfg, c, flash, at))
  {
  }

  ghost predicate SavedOrSaving(store: Store) {
    store.saving.None? ==> store.saved == store.settled
  }

  lemma {:induction false} SavingStep(cfg: Config, s: System, act: Action)
    requires StoreOk(s) && SavedOrSaving(s.store) && Enabled(cfg, s, act) && act != FinishSave(false)
    ensures SavedOrSaving(Step(cfg, s, act).store)
  {
  }

  /** A loop iteration succeeded: either nothing had to be saved, or the save went through. */
  lemma {:induction false} IterationPersists(cfg: Config, s: System, act: Action)
    requires StoreOk(s) && Enabled(cfg, s, act)
    requires act == FinishSave(true) || (act.PollGate? && Polled(s.gate, act.readings).snapshot.Some?)
    requires Step(cfg, s, act).store.saving.None?
    ensures var store := Step(cfg, s, act).store;
      LoadOrDefault(store.flash) == store.saved == store.settled
  {
    StoreStep(cfg, s, act);
  }

  /** An outstanding signal at rest makes the next segment settle again or start moving. */
  lemma {:induction false} SignalForcesProgress(g: GateView, r: Reads)
    requires g.point.Resting? && (Busy(g) || g.pending.Some?)
    ensures Polled(g, r).snapshot.Some? || Polled(g, r).gate.point.Driving?
  {
    if g.pending.Some? {
      ExecutedSettles(g.(pending := None), g.pending.value, r);
    } else if g.controls.command.Some? {
      ExecutedSettles(g.(controls := g.controls.(command := None)), g.controls.command.value, r);
    }
  }
}
