/**
 * The leaf motor as an object whose methods switch pins and update its fields
 * in place. `View` is its value in `MotorModel`; every method is proved to have
 * exactly the effect of the model function of the same name.
 */
module MotorClass {
  import opened Base
  import opened M = MotorModel

  class Motor {
    var openHigh: bool
    var closeHigh: bool
    var position: U8
    const timing: LeafTiming
    const endStopOverrun: nat
    const reversePause: nat
    var state: RelayState
    var stoppedAt: Option<nat>
    var trace: seq<PinWrite>

    ghost function View(): MotorState
      reads this
    {
      MotorState(openHigh, closeHigh, position, timing, endStopOverrun, reversePause, state, stoppedAt, trace)
    }

    constructor (timing: LeafTiming, overrun: nat, pause: nat, initialPosition: U8, at: nat)
      ensures View() == NewMotor(timing, overrun, pause, initialPosition, at)
      ensures MotorOk(View(), at)
    {
      this.timing := timing;
      endStopOverrun := overrun;
      reversePause := pause;
      position := initialPosition;
      openHigh, closeHigh := false, false;
      state, stoppedAt := Idle, None;
      trace := [PinWrite(Opening, false, at), PinWrite(Closing, false, at)];
      new;
      NewMotorOk(timing, overrun, pause, initialPosition, at);
    }

    method WritePin(relay: Direction, high: bool, at: nat)
      modifies this`openHigh, this`closeHigh, this`trace
      ensures View() == SetPin(old(View()), relay, high, at)
    {
      trace := trace + [PinWrite(relay, high, at)];
      match relay {
        case Opening => openHigh := high;
        case Closing => closeHigh := high;
      }
    }

    /** How long the leaf must run in `d`, including the overrun; `None` at the end stop. */
    method PlannedRunTime(d: Direction) returns (r: Option<nat>)
      ensures r == RunTime(View(), d)
    {
      var remaining := match d case Opening => 255 - position case Closing => position;
      if remaining == 0 {
        return None;
      }
      var full := Millis(match d case Opening => timing.openDuration case Closing => timing.closeDuration);
      r := Some(FromMillis(full * remaining / 255) + endStopOverrun);
    }

    method EarliestStart() returns (r: nat)
      ensures r == ReadyAt(View())
    {
      match stoppedAt {
        case Some(at) => r := at + reversePause;
        case None => r := 0;
      }
    }

    method TravelledIn(d: Direction, elapsed: nat) returns (units: U8)
      ensures units == Travelled(View(), d, elapsed)
    {
      var full := Max(Millis(match d case Opening => timing.openDuration case Closing => timing.closeDuration), 1);
      units := Min(Millis(elapsed) * 255 / full, 255);
    }

    method Settle(now: nat)
      modifies this
      ensures View() == Settled(old(View()), now)
    {
      match state {
        case Idle =>
        case Running(d, since) =>
          WritePin(Opening, false, now);
          WritePin(Closing, false, now);
          state := Idle;
          stoppedAt := Some(now);
          var travelled := TravelledIn(d, Elapsed(since, now));
          match d {
            case Opening => position := Min(position + travelled, 255);
            case Closing => position := Max(position - travelled, 0);
          }
      }
    }

    method Start(d: Direction, now: nat)
      modifies this
      ensures View() == Started(old(View()), d, now)
    {
      Settle(now);
      WritePin(Opposite(d), false, now);
      WritePin(d, true, now);
      state := Running(d, now);
    }

    method Halt(now: nat)
      modifies this
      ensures View() == Settled(old(View()), now)
    {
      Settle(now);
    }
  }
}
