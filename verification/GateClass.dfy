/**
 * The gate controller as an object owning two motors. The async `step` is cut
 * at its awaits: `Poll` runs one segment, and the suspended movement's locals
 * live in `point`. Every method is proved against the functions of `GateModel`.
 */
module GateClass {
  import opened Base
  import opened M = MotorModel
  import opened C = ControlsModel
  import opened G = GateModel
  import MotorClass
  import ControlsClass

  class Gate {
    const controls: ControlsClass.Controls
    const a: MotorClass.Motor
    const b: MotorClass.Motor
    var pending: Option<GateCommand>
    var point: Point
    var outbox: seq<Message>

    ghost predicate Valid() { a != b }

    ghost function View(): GateView
      reads this, controls, a, b
    {
      GateView(controls.View(), a.View(), b.View(), pending, point, outbox)
    }

    constructor (controls: ControlsClass.Controls, a: MotorClass.Motor, b: MotorClass.Motor, initialWindLocked: bool)
      requires a != b
      modifies controls
      ensures Valid() && this.controls == controls && this.a == a && this.b == b
      ensures View() == NewGate(old(controls.View()), a.View(), b.View(), initialWindLocked)
    {
      this.controls, this.a, this.b := controls, a, b;
      pending := if initialWindLocked then Some(Open) else None;
      point := Resting;
      outbox := [];
      new;
      controls.windLocked := initialWindLocked;
      var _ := Settle();
    }

    method Notify()
      modifies this`outbox
      ensures View() == Notified(old(View()))
    {
      var cover;
      match controls.currentDirection {
        case Some(Opening) => cover := "opening";
        case Some(Closing) => cover := "closing";
        case None => cover := if controls.position == FullyClosed then "closed" else "open";
      }
      outbox := outbox + [Message(COVER_STATE_TOPIC, cover),
                          Message(WIND_STATE_TOPIC, OnOff(controls.windLocked)),
                          Message(BARRIER_BYPASS_STATE_TOPIC, OnOff(controls.barrierBypass))];
    }

    method Settle() returns (snapshot: Snapshot)
      modifies this`outbox, this`point, controls
      ensures Outcome(View(), Some(snapshot)) == Finished(old(View()))
    {
      controls.currentDirection := None;
      point := Resting;
      snapshot := Snapshot(a.position, b.position, controls.windLocked);
      match (snapshot.leafA, snapshot.leafB) {
        case (0, 0) => controls.position := FullyClosed;
        case (255, 255) => controls.position := FullyOpen;
        case _ => controls.position := Partial;
      }
      Notify();
    }

    method PlanLeaf(motor: MotorClass.Motor, d: Direction, now: nat) returns (phase: Phase)
      ensures phase == Plan(motor.View(), d, now)
    {
      var runTime := motor.PlannedRunTime(d);
      if runTime.None? { return Done; }
      var delay := match d case Opening => motor.timing.openInitialDelay case Closing => motor.timing.closeInitialDelay;
      var ready := motor.EarliestStart();
      phase := Waiting(Max(now + delay, ready));
    }

    method AdvanceLeaf(motor: MotorClass.Motor, planned: Phase, d: Direction, now: nat, read: nat)
      returns (phase: Phase, moved: bool)
      modifies motor
      ensures LeafPoll(motor.View(), phase, moved) == PollLeaf(old(motor.View()), planned, d, now, read)
    {
      phase, moved := planned, false;
      if phase.Waiting? && now >= phase.at {
        var runTime := motor.PlannedRunTime(d);
        match runTime {
          case Some(time) =>
            motor.Start(d, read);
            moved := true;
            phase := Energized(now + time);
          case None =>
            phase := Done;
        }
      }
      if phase.Energized? && now >= phase.until {
        motor.Halt(read);
        phase := Done;
      }
    }

    method EndDrive(moved: bool, result: Option<GateCommand>, r: Reads) returns (snapshot: Snapshot)
      requires Valid()
      modifies this, controls, a, b
      ensures Outcome(View(), Some(snapshot)) == DriveEnded(old(View()), moved, result, r)
    {
      a.Halt(r.a);
      b.Halt(r.b);
      if moved {
        controls.barrierBypass := false;
      }
      pending := result;
      snapshot := Settle();
    }

    method Round(d: Direction, aPhase: Phase, bPhase: Phase, movedBefore: bool, r: Reads)
      returns (snapshot: Option<Snapshot>)
      requires Valid()
      modifies this, controls, a, b
      ensures Outcome(View(), snapshot) == DriveRound(old(View()), d, aPhase, bPhase, movedBefore, r)
    {
      ghost var before := View();
      var obstacle := controls.Obstruction(d);
      if obstacle.Some? {
        assert DriveRound(before, d, aPhase, bPhase, movedBefore, r) == DriveEnded(before, movedBefore, None, r);
        var s := EndDrive(movedBefore, None, r);
        return Some(s);
      }
      ghost var x := PollLeaf(before.a, aPhase, d, r.now, r.a);
      ghost var y := PollLeaf(before.b, bPhase, d, r.now, r.b);
      var aNext, aMoved := AdvanceLeaf(a, aPhase, d, r.now, r.a);
      var bNext, bMoved := AdvanceLeaf(b, bPhase, d, r.now, r.b);
      var moved := movedBefore || aMoved || bMoved;
      assert View() == before.(a := x.motor, b := y.motor) && aNext == x.phase && bNext == y.phase;
      match Earliest(Deadline(aNext), Deadline(bNext)) {
        case None =>
          var s := EndDrive(moved, None, r);
          snapshot := Some(s);
        case Some(deadline) =>
          point := Driving(d, aNext, bNext, moved, deadline);
          snapshot := None;
      }
    }

    method BeginDrive(d: Direction, r: Reads) returns (snapshot: Option<Snapshot>)
      requires Valid()
      modifies this, controls, a, b
      ensures Outcome(View(), snapshot) == DriveStarted(old(View()), d, r)
    {
      var obstacle := controls.Obstruction(d);
      if obstacle.Some? {
        var s := Settle();
        return Some(s);
      }
      controls.SetDirection(d);
      Notify();
      var aPhase := PlanLeaf(a, d, r.plan);
      var bPhase := PlanLeaf(b, d, r.plan);
      snapshot := Round(d, aPhase, bPhase, false, r);
    }

    method Execute(command: GateCommand, r: Reads) returns (snapshot: Option<Snapshot>)
      requires Valid()
      modifies this, controls, a, b
      ensures Outcome(View(), snapshot) == Executed(old(View()), command, r)
    {
      var resolved := controls.Resolve(command);
      if resolved == Open {
        snapshot := BeginDrive(Opening, r);
      } else if resolved == Close {
        snapshot := BeginDrive(Closing, r);
      } else {
        a.Halt(r.a);
        b.Halt(r.b);
        var s := Settle();
        snapshot := Some(s);
      }
    }

    method Obey(command: GateCommand, d: Direction, aPhase: Phase, bPhase: Phase, moved: bool, r: Reads)
      returns (snapshot: Option<Snapshot>)
      requires Valid()
      modifies this, controls, a, b
      ensures Outcome(View(), snapshot) ==
        if command == CommandFor(d) then DriveRound(old(View()), d, aPhase, bPhase, moved, r)
        else DriveEnded(old(View()), moved, HandedBack(command), r)
    {
      if command == CommandFor(d) {
        snapshot := Round(d, aPhase, bPhase, moved, r);
      } else if command == Stop || command == Impulse {
        var s := EndDrive(moved, None, r);
        snapshot := Some(s);
      } else {
        var s := EndDrive(moved, Some(command), r);
        snapshot := Some(s);
      }
    }

    /** The `select4` of a movement: the first ready future wins, and only it is consumed. */
    method Select(deadline: nat, wake: nat) returns (w: Winner)
      modifies this`outbox, controls
      ensures w == DriveWinner(old(controls.View()), deadline, wake)
      ensures View() == Woken(old(View()), w)
    {
      if wake >= deadline {
        w := Timer;
      } else if controls.command.Some? {
        w := GotCommand(controls.command.value);
        controls.command := None;
      } else if controls.barrierChanged {
        w := BarrierSignal;
        controls.barrierChanged := false;
      } else if controls.windLockReset {
        w := ResetSignal;
        controls.windLockReset := false;
        Notify();
      } else {
        w := Nothing;
      }
    }

    method PollDrive(r: Reads) returns (snapshot: Option<Snapshot>)
      requires Valid() && point.Driving?
      modifies this, controls, a, b
      ensures Outcome(View(), snapshot) == DrivePolled(old(View()), r)
    {
      var Driving(d, aPhase, bPhase, moved, deadline) := point;
      var w := Select(deadline, r.wake);
      if w.Nothing? {
        snapshot := None;
      } else if w.GotCommand? {
        snapshot := Obey(w.command, d, aPhase, bPhase, moved, r);
      } else {
        snapshot := Round(d, aPhase, bPhase, moved, r);
      }
    }

    /** One segment of the gate task; a snapshot means the step has settled. */
    method Poll(r: Reads) returns (snapshot: Option<Snapshot>)
      requires Valid()
      modifies this, controls, a, b
      ensures Outcome(View(), snapshot) == Polled(old(View()), r)
    {
      if point.Driving? {
        snapshot := PollDrive(r);
      } else if pending.Some? {
        var command := pending.value;
        pending := None;
        snapshot := Execute(command, r);
      } else if controls.command.Some? {
        var command := controls.command.value;
        controls.command := None;
        snapshot := Execute(command, r);
      } else if controls.windLockReset {
        controls.windLockReset := false;
        var s := Settle();
        snapshot := Some(s);
      } else {
        snapshot := None;
      }
    }
  }
}
