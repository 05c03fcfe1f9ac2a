/**
 * The firmware's gate task: runs the gate, saves a settled state that differs
 * from what flash is believed to hold, and executes MQTT commands.
 */
module TaskClass {
  import opened Base
  import opened C = ControlsModel
  import opened G = GateModel
  import opened S = SystemModel
  import GateClass

  class GateTask {
    const gate: GateClass.Gate
    var flash: Option<GateState>
    var saved: GateState
    var settled: GateState
    var saving: Option<GateState>

    ghost predicate Valid() { gate.Valid() }

    ghost function StoreView(): Store reads this {
      Store(flash, saved, settled, saving)
    }

    /** `saved` starts as what the gate was booted from. */
    constructor (gate: GateClass.Gate, flash: Option<GateState>)
      requires gate.Valid()
      ensures Valid() && this.gate == gate
      ensures var state := ToGateState(SnapshotOf(gate.View()));
        StoreView() == Store(flash, state, state, None)
    {
      var state := GateState(gate.a.position, gate.b.position, gate.controls.windLocked);
      this.gate := gate;
      this.flash := flash;
      saved, settled, saving := state, state, None;
    }

    /** One poll of the gate task outside a save; a settled step that changed anything begins one. */
    method Poll(r: Reads)
      requires Valid() && saving.None?
      modifies this, gate, gate.controls, gate.a, gate.b
      ensures var outcome := Polled(old(gate.View()), r);
        && gate.View() == outcome.gate
        && StoreView() == match outcome.snapshot
                          case None => old(StoreView())
                          case Some(snapshot) => AfterStep(old(StoreView()), snapshot)
    {
      var snapshot := gate.Poll(r);
      if snapshot.Some? {
        var s := snapshot.value;
        settled := GateState(s.leafA, s.leafB, s.windLocked);
        if settled != saved {
          saving := Some(settled);
        }
      }
    }

    /** The save came back; only a successful one changes the record and `saved`. */
    method SaveFinished(ok: bool)
      requires saving.Some?
      modifies this
      ensures StoreView() == AfterSave(old(StoreView()), ok)
    {
      if ok {
        flash := saving;
        saved := saving.value;
      }
      saving := None;
    }

    method Execute(command: Command)
      modifies gate, gate.controls
      ensures gate.View() == ExecutedMqtt(old(gate.View()), command)
    {
      gate.controls.Apply(command);
      if command.SetBarrierBypass? {
        gate.Notify();
      }
    }
  }
}
