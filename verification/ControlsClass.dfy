/** `Controls` as the object the tasks share; each setter is one atomic method. */
module ControlsClass {
  import opened Base
  import opened C = ControlsModel

  class Controls {
    var command: Option<GateCommand>
    var barrierChanged: bool
    var windLockReset: bool
    var currentDirection: Option<Direction>
    var lastDirection: Direction
    var position: Position
    var windLocked: bool
    var barrier1Active: bool
    var barrier2Active: bool
    var barrierBypass: bool
    var lightChanged: bool

    ghost function View(): ControlsState
      reads this
    {
      ControlsState(command, barrierChanged, windLockReset, currentDirection, lastDirection, position,
                    windLocked, barrier1Active, barrier2Active, barrierBypass, lightChanged)
    }

    constructor ()
      ensures View() == NewControls()
    {
      command := None;
      barrierChanged, windLockReset, lightChanged := false, false, false;
      currentDirection, lastDirection, position := None, Closing, FullyClosed;
      windLocked, barrier1Active, barrier2Active, barrierBypass := false, false, false, false;
    }

    method Send(c: GateCommand)
      modifies this`command
      ensures View() == old(View()).(command := Some(c))
    {
      command := Some(c);
    }

    method Request(c: GateCommand)
      modifies this`command
      ensures View() == Requested(old(View()), c)
    {
      if windLocked { return; }
      Send(c);
    }

    method WindTrigger()
      modifies this`windLocked, this`command
      ensures View() == WindTriggered(old(View()))
    {
      windLocked := true;
      Send(Open);
    }

    method ResetWindLock()
      modifies this`windLocked, this`windLockReset
      ensures View() == WindLockCleared(old(View()))
    {
      windLocked := false;
      windLockReset := true;
    }

    method SetBarrier1(active: bool)
      modifies this`barrier1Active, this`barrierChanged, this`command
      ensures View() == Barrier1Set(old(View()), active)
    {
      barrier1Active := active;
      barrierChanged := true;
      if !active && windLocked {
        Send(Open);
      }
    }

    method SetBarrier2(active: bool)
      modifies this`barrier2Active, this`barrierChanged
      ensures View() == Barrier2Set(old(View()), active)
    {
      barrier2Active := active;
      barrierChanged := true;
    }

    method SetBarrierBypass(active: bool)
      modifies this`barrierBypass, this`barrierChanged, this`lightChanged
      ensures View() == BypassSet(old(View()), active)
    {
      barrierBypass := active;
      barrierChanged := true;
      lightChanged := true;
    }

    method Obstruction(d: Direction) returns (o: Option<Obstacle>)
      ensures o == Blocked(View(), d)
      ensures o.None? <==> MayMove(View(), d)
    {
      var barriersChecked := !barrierBypass;
      if barriersChecked && barrier1Active {
        o := Some(LightBarrier1);
      } else if barriersChecked && d == Closing && barrier2Active {
        o := Some(LightBarrier2);
      } else if d == Closing && windLocked {
        o := Some(WindLock);
      } else {
        o := None;
      }
    }

    method Resolve(c: GateCommand) returns (r: GateCommand)
      ensures r == ResolveImpulse(View(), c)
    {
      if c != Impulse { return c; }
      match position {
        case FullyClosed => r := Open;
        case FullyOpen => r := Close;
        case Partial => r := if lastDirection == Opening then Close else Open;
      }
    }

    method SetDirection(d: Direction)
      modifies this`currentDirection, this`lastDirection, this`lightChanged
      ensures View() == DirectionSet(old(View()), d)
    {
      currentDirection := Some(d);
      lastDirection := d;
      lightChanged := true;
    }

    method Apply(c: Command)
      modifies this
      ensures View() == Applied(c, old(View()))
    {
      match c {
        case MqttOpen => Request(Open);
        case MqttClose => Request(Close);
        case MqttStop => Request(Stop);
        case ResetWindLock => ResetWindLock();
        case SetBarrierBypass(active) => SetBarrierBypass(active);
      }
    }
  }
}
