/**
 * Everything that runs concurrently on the cooperative executor: the gate task
 * with its flash store, the warning light task, the inputs and MQTT, and the
 * clock. Each action is one atomic step; a run is any sequence of enabled ones.
 */
module SystemModel {
  import opened Base
  import opened M = MotorModel
  import opened C = ControlsModel
  import opened G = GateModel

  /** The flash record. */
  datatype GateState = GateState(leafA: U8, leafB: U8, windLocked: bool)

  /**
   * `saved` is what the gate task believes is in flash, `settled` the state of the
   * last finished step, `saving` the record of a save in progress.
   */
  datatype Store = Store(flash: Option<GateState>, saved: GateState, settled: GateState, saving: Option<GateState>)

  /** The lamp task sleeps until `wakeAt`, or is parked on the light signal. */
  datatype Lamp = Lamp(lit: bool, parked: bool, wakeAt: nat)

  datatype System = System(now: nat, gate: GateView, store: Store, lamp: Lamp)

  /** `skew` bounds how far apart the clock readings of one segment lie. */
  datatype Config = Config(
    leafA: LeafTiming, leafB: LeafTiming, overrun: nat, pause: nat, halfPeriod: nat, skew: nat)

  datatype Action =
    | Tick(to: nat)
    | PressImpulse
    | Mqtt(command: Command)
    | WindGuard
    | WindReset
    | Barrier1(active: bool)
    | Barrier2(active: bool)
    | ArmBypass
    | Republish
    | PollGate(readings: Reads)
    | FinishSave(ok: bool)
    | PollLamp

  function ToGateState(snapshot: Snapshot): GateState {
    GateState(snapshot.leafA, snapshot.leafB, snapshot.windLocked)
  }

  function LoadOrDefault(flash: Option<GateState>): GateState {
    match flash
    case Some(state) => state
    case None => GateState(0, 0, false)
  }

  /** The gate task's loop body after a step: nothing to do, or a save to await. */
  function AfterStep(store: Store, snapshot: Snapshot): Store {
    var state := ToGateState(snapshot);
    store.(settled := state, saving := if state == store.saved then None else Some(state))
  }

  function AfterSave(store: Store, ok: bool): Store
    requires store.saving.Some?
  {
    if ok then store.(flash := store.saving, saved := store.saving.value, saving := None)
    else store.(saving := None)
  }

  /** `execute`: a bypass change is published right away. */
  function ExecutedMqtt(g: GateView, command: Command): GateView {
    var g' := g.(controls := Applied(command, g.controls));
    if command.SetBarrierBypass? then Notified(g') else g'
  }

  /** One pass of the warning light loop up to its next await. */
  function LampPass(lamp: Lamp, active: bool, now: nat, halfPeriod: nat): Lamp {
    if active then Lamp(!lamp.lit, false, now + halfPeriod)
    else Lamp(false, true, now)
  }

  ghost predicate Ordered(r: Reads, now: nat, skew: nat) {
    now <= r.wake <= r.plan <= r.now <= r.a <= r.b <= r.wake + skew
  }

  ghost predicate Enabled(cfg: Config, s: System, act: Action) {
    match act
    case Tick(to) => s.now <= to
    case PollGate(r) => s.store.saving.None? && Ordered(r, s.now, cfg.skew)
    case FinishSave(_) => s.store.saving.Some?
    case PollLamp => if s.lamp.parked then s.gate.controls.lightChanged else s.lamp.wakeAt <= s.now
    case _ => true
  }

  ghost function WithControls(s: System, c: ControlsState): System {
    s.(gate := s.gate.(controls := c))
  }

  ghost function GatePolled(s: System, r: Reads): System {
    var outcome := Polled(s.gate, r);
    s.(now := r.b,
       gate := outcome.gate,
       store := match outcome.snapshot
                case None => s.store
                case Some(snapshot) => AfterStep(s.store, snapshot))
  }

  ghost function LampPolled(cfg: Config, s: System): System {
    var c := if s.lamp.parked then s.gate.controls.(lightChanged := false) else s.gate.controls;
    WithControls(s, c).(lamp := LampPass(s.lamp, WarningLightActive(c), s.now, cfg.halfPeriod))
  }

  ghost function Step(cfg: Config, s: System, act: Action): System
    requires Enabled(cfg, s, act)
  {
    match act
    case Tick(to) => s.(now := to)
    case PressImpulse => WithControls(s, Requested(s.gate.controls, Impulse))
    case Mqtt(command) => s.(gate := ExecutedMqtt(s.gate, command))
    case WindGuard => WithControls(s, WindTriggered(s.gate.controls))
    case WindReset => WithControls(s, WindLockCleared(s.gate.controls))
    case Barrier1(active) => WithControls(s, Barrier1Set(s.gate.controls, active))
    case Barrier2(active) => WithControls(s, Barrier2Set(s.gate.controls, active))
    case ArmBypass => s.(gate := ExecutedMqtt(s.gate, SetBarrierBypass(true)))
    case Republish => s.(gate := Notified(s.gate))
    case PollGate(r) => GatePolled(s, r)
    case FinishSave(ok) => s.(store := AfterSave(s.store, ok))
    case PollLamp => LampPolled(cfg, s)
  }

  // ----- Booting -----

  function BootGate(cfg: Config, c: ControlsState, state: GateState, at: nat): GateView {
    NewGate(c,
            NewMotor(cfg.leafA, cfg.overrun, cfg.pause, state.leafA, at),
            NewMotor(cfg.leafB, cfg.overrun, cfg.pause, state.leafB, at),
            state.windLocked)
  }

  function Boot(cfg: Config, c: ControlsState, flash: Option<GateState>, at: nat): System {
    var state := LoadOrDefault(flash);
    var gate := BootGate(cfg, c, state, at);
    var saved := ToGateState(SnapshotOf(gate));
    System(at, gate, Store(flash, saved, saved, None), Lamp(false, false, at))
  }

  /** What `Gate::new` may find: only the light barrier watchers have run already. */
  ghost predicate FreshControls(c: ControlsState) {
    c.(barrier1Active := false, barrier2Active := false, barrierChanged := false) == NewControls()
  }

  // ----- Runs -----

  ghost predicate ValidRun(cfg: Config, s: System, acts: seq<Action>)
    decreases |acts|
  {
    acts == [] || (Enabled(cfg, s, acts[0]) && ValidRun(cfg, Step(cfg, s, acts[0]), acts[1..]))
  }

  ghost function After(cfg: Config, s: System, acts: seq<Action>): System
    requires ValidRun(cfg, s, acts)
    decreases |acts|
  {
    if acts == [] then s else After(cfg, Step(cfg, s, acts[0]), acts[1..])
  }

  ghost predicate RunsTo(cfg: Config, c: ControlsState, flash: Option<GateState>, at: nat, acts: seq<Action>, s: System) {
    && FreshControls(c)
    && ValidRun(cfg, Boot(cfg, c, flash, at), acts)
    && After(cfg, Boot(cfg, c, flash, at), acts) == s
  }

  ghost predicate Reachable(cfg: Config, s: System) {
    exists c, flash, at, acts :: RunsTo(cfg, c, flash, at, acts, s)
  }

  lemma {:induction false} RunAppend(cfg: Config, s: System, acts: seq<Action>, act: Action)
    requires ValidRun(cfg, s, acts) && Enabled(cfg, After(cfg, s, acts), act)
    ensures ValidRun(cfg, s, acts + [act])
    ensures After(cfg, s, acts + [act]) == Step(cfg, After(cfg, s, acts), act)
    decreases |acts|
  {
    if acts == [] {
      assert acts + [act] == [act];
      assert [act][1..] == [];
    } else {
      assert (acts + [act])[1..] == acts[1..] + [act];
      RunAppend(cfg, Step(cfg, s, acts[0]), acts[1..], act);
    }
  }

  lemma {:induction false} ReachableBoot(cfg: Config, c: ControlsState, flash: Option<GateState>, at: nat)
    requires FreshControls(c)
    ensures Reachable(cfg, Boot(cfg, c, flash, at))
  {
    assert RunsTo(cfg, c, flash, at, [], Boot(cfg, c, flash, at));
  }

  lemma {:induction false} ReachableStep(cfg: Config, s: System, act: Action)
    requires Reachable(cfg, s) && Enabled(cfg, s, act)
    ensures Reachable(cfg, Step(cfg, s, act))
  {
    var c, flash, at, acts :| RunsTo(cfg, c, flash, at, acts, s);
    RunAppend(cfg, Boot(cfg, c, flash, at), acts, act);
    assert RunsTo(cfg, c, flash, at, acts + [act], Step(cfg, s, act));
  }
}
