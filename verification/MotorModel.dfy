/**
 * One gate leaf as a value: two relay pins, a time-based position estimate and
 * the instant it was last released. Instants and durations are clock ticks;
 * `trace` records every pin write in order.
 */
module MotorModel {
  import opened Base

  /** embassy-time's default tick rate is 1 MHz. */
  const TICKS_PER_MS := 1000

  function Millis(ticks: nat): nat { ticks / TICKS_PER_MS }

  function FromMillis(ms: nat): nat { ms * TICKS_PER_MS }

  datatype LeafTiming = LeafTiming(
    openInitialDelay: nat, openDuration: nat, closeInitialDelay: nat, closeDuration: nat)

  datatype RelayState = Idle | Running(direction: Direction, since: nat)

  datatype PinWrite = PinWrite(relay: Direction, high: bool, at: nat)

  datatype MotorState = MotorState(
    openHigh: bool,
    closeHigh: bool,
    position: U8,
    timing: LeafTiming,
    endStopOverrun: nat,
    reversePause: nat,
    state: RelayState,
    stoppedAt: Option<nat>,
    trace: seq<PinWrite>)

  function PinHigh(m: MotorState, relay: Direction): bool {
    if relay.Opening? then m.openHigh else m.closeHigh
  }

  function SetPin(m: MotorState, relay: Direction, high: bool, at: nat): MotorState {
    m.(openHigh := if relay.Opening? then high else m.openHigh,
       closeHigh := if relay.Closing? then high else m.closeHigh,
       trace := m.trace + [PinWrite(relay, high, at)])
  }

  /** `Motor::new`: both relays are driven low before anything else. */
  function NewMotor(timing: LeafTiming, overrun: nat, pause: nat, position: U8, at: nat): MotorState {
    var unwritten := MotorState(false, false, position, timing, overrun, pause, Idle, None, []);
    SetPin(SetPin(unwritten, Opening, false, at), Closing, false, at)
  }

  function FullDuration(m: MotorState, d: Direction): nat {
    if d.Opening? then m.timing.openDuration else m.timing.closeDuration
  }

  function InitialDelay(m: MotorState, d: Direction): nat {
    if d.Opening? then m.timing.openInitialDelay else m.timing.closeInitialDelay
  }

  function ReadyAt(m: MotorState): nat {
    match m.stoppedAt
    case Some(at) => at + m.reversePause
    case None => 0
  }

  /** Position units left to the end stop in direction `d`. */
  function Remaining(m: MotorState, d: Direction): U8 {
    if d.Opening? then 255 - m.position else m.position
  }

  function RunTime(m: MotorState, d: Direction): Option<nat> {
    if Remaining(m, d) == 0 then None
    else Some(FromMillis(Millis(FullDuration(m, d)) * Remaining(m, d) / 255) + m.endStopOverrun)
  }

  /** The settle arithmetic divides by the full duration in ms, at least 1. */
  function Divisor(m: MotorState, d: Direction): nat
  {
    Max(Millis(FullDuration(m, d)), 1)
  }

  function Elapsed(since: nat, now: nat): nat {
    if since <= now then now - since else 0
  }

  function Travelled(m: MotorState, d: Direction, elapsed: nat): U8
  {
    Min(Millis(elapsed) * 255 / Divisor(m, d), 255)
  }

  function MovedBy(position: U8, d: Direction, units: U8): U8 {
    if d.Opening? then Min(position + units, 255) else Max(position - units, 0)
  }

  /** `Motor::settle`, with `now` the clock reading it takes. */
  function Settled(m: MotorState, now: nat): MotorState {
    match m.state
    case Idle => m
    case Running(d, since) =>
      var low := SetPin(SetPin(m, Opening, false, now), Closing, false, now);
      low.(state := Idle,
           stoppedAt := Some(now),
           position := MovedBy(m.position, d, Travelled(m, d, Elapsed(since, now))))
  }

  /** `Motor::start`: the opposite relay is released before this one is energized. */
  function Started(m: MotorState, d: Direction, now: nat): MotorState {
    var settled := Settled(m, now);
    SetPin(SetPin(settled, Opposite(d), false, now), d, true, now).(state := Running(d, now))
  }

  // ----- What the pin-write trace means -----

  /** The level a relay has after the writes in `trace`. */
  function Level(trace: seq<PinWrite>, relay: Direction): bool {
    if trace == [] then false
    else
      var last := trace[|trace| - 1];
      if last.relay == relay then last.high else Level(trace[..|trace| - 1], relay)
  }

  /** At no point of the trace are both relays energized. */
  ghost predicate Interlocked(trace: seq<PinWrite>) {
    forall k :: 0 <= k <= |trace| ==> !(Level(trace[..k], Opening) && Level(trace[..k], Closing))
  }

  /** Write `i` takes an energized relay low. */
  ghost predicate Releases(trace: seq<PinWrite>, i: nat)
    requires i < |trace|
  {
    !trace[i].high && Level(trace[..i], trace[i].relay)
  }

  /** Every energizing write comes at least `pause` after every earlier release. */
  ghost predicate PauseRespected(trace: seq<PinWrite>, pause: nat) {
    forall i, j :: 0 <= i < j < |trace| && trace[j].high && Releases(trace, i) ==>
      trace[i].at + pause <= trace[j].at
  }

  /** All releases so far happened no later than `stoppedAt`. */
  ghost predicate ReleasesRecorded(trace: seq<PinWrite>, stoppedAt: Option<nat>) {
    forall i :: 0 <= i < |trace| && Releases(trace, i) ==>
      stoppedAt.Some? && trace[i].at <= stoppedAt.value
  }

  /** The pins agree with the relay state and with the trace, which is safe in every prefix. */
  ghost predicate RelaysSafe(m: MotorState) {
    && m.openHigh == (m.state.Running? && m.state.direction.Opening?)
    && m.closeHigh == (m.state.Running? && m.state.direction.Closing?)
    && TraceSafe(m)
  }

  ghost predicate TraceSafe(m: MotorState) {
    && (forall d :: Level(m.trace, d) == PinHigh(m, d))
    && Interlocked(m.trace)
    && PauseRespected(m.trace, m.reversePause)
  }

  lemma {:induction false} SetPinLevels(m: MotorState, relay: Direction, high: bool, at: nat)
    requires TraceSafe(m)
    requires high ==> !PinHigh(m, Opposite(relay))
    requires high ==> ReleasesRecorded(m.trace, m.stoppedAt) && ReadyAt(m) <= at
    ensures TraceSafe(SetPin(m, relay, high, at))
  {
    var n := SetPin(m, relay, high, at);
    assert n.trace[..|m.trace|] == m.trace;
    forall k | 0 <= k <= |n.trace|
      ensures !(Level(n.trace[..k], Opening) && Level(n.trace[..k], Closing))
    {
      if k <= |m.trace| {
        assert n.trace[..k] == m.trace[..k];
      } else {
        assert n.trace[..k] == n.trace;
      }
    }
    forall i, j | 0 <= i < j < |n.trace| && n.trace[j].high && Releases(n.trace, i)
      ensures n.trace[i].at + n.reversePause <= n.trace[j].at
    {
      assert n.trace[..i] == m.trace[..i];
      assert Releases(m.trace, i);
    }
  }

  /** A low write only adds a release, if any, at its own instant. */
  lemma {:induction false} SetLowReleases(m: MotorState, relay: Direction, at: nat)
    requires ReleasesRecorded(m.trace, m.stoppedAt)
    ensures forall stopped: nat :: at <= stopped && (m.stoppedAt.Some? ==> m.stoppedAt.value <= stopped) ==>
      ReleasesRecorded(SetPin(m, relay, false, at).trace, Some(stopped))
    ensures TraceSafe(m) && !PinHigh(m, relay) ==>
      ReleasesRecorded(SetPin(m, relay, false, at).trace, m.stoppedAt)
  {
    var n := SetPin(m, relay, false, at);
    forall i | 0 <= i < |m.trace| && Releases(n.trace, i)
      ensures Releases(m.trace, i)
    {
      assert n.trace[..i] == m.trace[..i];
    }
    assert n.trace[..|m.trace|] == m.trace;
  }

  lemma {:induction false} SetHighReleases(m: MotorState, relay: Direction, at: nat)
    requires ReleasesRecorded(m.trace, m.stoppedAt)
    ensures ReleasesRecorded(SetPin(m, relay, true, at).trace, m.stoppedAt)
  {
    var n := SetPin(m, relay, true, at);
    forall i | 0 <= i < |n.trace| && Releases(n.trace, i)
      ensures Releases(m.trace, i)
    {
      assert n.trace[..i] == m.trace[..i];
    }
  }

  /** `stoppedAt` never lies in the future of `now`, nor does a running relay's start. */
  ghost predicate ClockSane(m: MotorState, now: nat) {
    && (m.stoppedAt.Some? ==> m.stoppedAt.value <= now)
    && (m.state.Running? ==> m.state.since <= now)
  }

  ghost predicate MotorOk(m: MotorState, now: nat) {
    RelaysSafe(m) && ReleasesRecorded(m.trace, m.stoppedAt) && ClockSane(m, now)
  }

  lemma {:induction false} NewMotorOk(timing: LeafTiming, overrun: nat, pause: nat, position: U8, at: nat)
    ensures MotorOk(NewMotor(timing, overrun, pause, position, at), at)
  {
    var unwritten := MotorState(false, false, position, timing, overrun, pause, Idle, None, []);
    var first := SetPin(unwritten, Opening, false, at);
    SetPinLevels(unwritten, Opening, false, at);
    SetLowReleases(unwritten, Opening, at);
    SetPinLevels(first, Closing, false, at);
    SetLowReleases(first, Closing, at);
  }

  /** Stopping releases both relays and keeps the whole trace interlocked and paused. */
  lemma {:induction false} SettledOk(m: MotorState, now: nat)
    requires MotorOk(m, now)
    ensures MotorOk(Settled(m, now), now)
    ensures Settled(m, now).state.Idle?
    ensures !Settled(m, now).openHigh && !Settled(m, now).closeHigh
  {
    if m.state.Running? {
      var first := SetPin(m, Opening, false, now);
      var second := SetPin(first, Closing, false, now);
      SetPinLevels(m, Opening, false, now);
      SetPinLevels(first, Closing, false, now);
      SetLowReleases(m, Opening, now);
      SetLowReleases(first.(stoppedAt := Some(now)), Closing, now);
    }
  }

  /** Starting a rested leaf energizes exactly the relay of its direction. */
  lemma {:induction false} StartedOk(m: MotorState, d: Direction, now: nat)
    requires MotorOk(m, now) && m.state.Idle? && ReadyAt(m) <= now
    ensures MotorOk(Started(m, d, now), now)
    ensures PinHigh(Started(m, d, now), d) && !PinHigh(Started(m, d, now), Opposite(d))
  {
    var low := SetPin(m, Opposite(d), false, now);
    SetPinLevels(m, Opposite(d), false, now);
    SetLowReleases(m, Opposite(d), now);
    SetPinLevels(low, d, true, now);
    SetHighReleases(low, d, now);
  }
}
