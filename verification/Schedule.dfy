/**
 * An undisturbed movement follows a closed-form schedule. With a clock that
 * stands still within a segment, and the gate polled no later than each of its
 * deadlines, every leaf goes on once and off once at instants fixed when the
 * movement begins - whatever other inputs arrive meanwhile.
 */
module Schedule {
  import opened Base
  import opened M = MotorModel
  import opened C = ControlsModel
  import opened G = GateModel
  import opened S = SystemModel
  import opened I = GateInvariant
  import opened Y = Safety
  import T = Travel

  // ----- The closed form of one leaf -----

  /** When a leaf that has to move goes on: after its own delay, and its reverse pause if that ends later. */
  function OnAt(m: MotorState, d: Direction, t0: nat): nat {
    var due := t0 + T.WaitTime(m.timing, d);
    if m.stoppedAt.Some? then Max(due, m.stoppedAt.value + m.reversePause) else due
  }

  /** When it goes off: the planned run time later. */
  function OffAt(m: MotorState, d: Direction, t0: nat): nat {
    OnAt(m, d, t0) + T.PlannedTicks(m, d)
  }

  /** The leaf's motor at time `t` of a movement begun at `t0` with motor `m`. */
  function LeafAt(m: MotorState, d: Direction, t0: nat, t: nat): MotorState {
    if RunTime(m, d).None? || t < OnAt(m, d, t0) then m
    else if t < OffAt(m, d, t0) then Started(m, d, OnAt(m, d, t0))
    else Settled(Started(m, d, OnAt(m, d, t0)), OffAt(m, d, t0))
  }

  function PhaseAt(m: MotorState, d: Direction, t0: nat, t: nat): Phase {
    if RunTime(m, d).None? then Done
    else if t < OnAt(m, d, t0) then Waiting(OnAt(m, d, t0))
    else if t < OffAt(m, d, t0) then Energized(OffAt(m, d, t0))
    else Done
  }

  /** After its schedule a leaf that had to move has written exactly one on and one off. */
  lemma {:induction false} CompletedTrace(m: MotorState, d: Direction, t0: nat, t: nat)
    requires m.state.Idle? && RunTime(m, d).Some? && OffAt(m, d, t0) <= t
    ensures var on, off := OnAt(m, d, t0), OffAt(m, d, t0);
      && LeafAt(m, d, t0, t).trace == m.trace
         + [PinWrite(Opposite(d), false, on), PinWrite(d, true, on),
            PinWrite(Opening, false, off), PinWrite(Closing, false, off)]
      && off == on + T.PlannedTicks(m, d)
  {
  }

  /** Polling a leaf on schedule, no later than its next deadline, keeps it on schedule. */
  lemma {:induction false} PollOnSchedule(m: MotorState, d: Direction, t0: nat, p: nat, t: nat)
    requires p <= t
    requires Deadline(PhaseAt(m, d, t0, p)).Some? ==> t <= Deadline(PhaseAt(m, d, t0, p)).value
    ensures var polled := PollLeaf(LeafAt(m, d, t0, p), PhaseAt(m, d, t0, p), d, t, t);
      polled.motor == LeafAt(m, d, t0, t) && polled.phase == PhaseAt(m, d, t0, t)
  {
  }

  lemma {:induction false} FirstPollOnSchedule(m: MotorState, d: Direction, t0: nat)
    ensures var polled := PollLeaf(m, Plan(m, d, t0), d, t0, t0);
      polled.motor == LeafAt(m, d, t0, t0) && polled.phase == PhaseAt(m, d, t0, t0)
  {
  }

  // ----- A movement -----

  /** A movement in direction `d`, begun at `t0` with motors `a` and `b`. */
  datatype Movement = Movement(d: Direction, a: MotorState, b: MotorState, t0: nat)

  /** As of its last poll at `p`, the gate is where the closed form says. */
  ghost predicate OnSchedule(g: GateView, v: Movement, p: nat) {
    && g.a == LeafAt(v.a, v.d, v.t0, p) && g.b == LeafAt(v.b, v.d, v.t0, p)
    && (g.point.Driving? ==>
          && g.point.direction == v.d
          && g.point.a == PhaseAt(v.a, v.d, v.t0, p) && g.point.b == PhaseAt(v.b, v.d, v.t0, p)
          && Earliest(Deadline(g.point.a), Deadline(g.point.b)) == Some(g.point.deadline))
    && (g.point.Resting? ==>
          PhaseAt(v.a, v.d, v.t0, p).Done? && PhaseAt(v.b, v.d, v.t0, p).Done?)
  }

  lemma {:induction false} RoundOnSchedule(g: GateView, v: Movement, p: nat, a: Phase, b: Phase, moved: bool, r: Reads)
    requires v.a.state.Idle? && v.b.state.Idle?
    requires Blocked(g.controls, v.d).None? && r.a == r.b == r.now && p <= r.now
    requires g.a == LeafAt(v.a, v.d, v.t0, p) && g.b == LeafAt(v.b, v.d, v.t0, p)
    requires a == PhaseAt(v.a, v.d, v.t0, p) && b == PhaseAt(v.b, v.d, v.t0, p)
    requires Deadline(a).Some? ==> r.now <= Deadline(a).value
    requires Deadline(b).Some? ==> r.now <= Deadline(b).value
    ensures OnSchedule(DriveRound(g, v.d, a, b, moved, r).gate, v, r.now)
  {
    PollOnSchedule(v.a, v.d, v.t0, p, r.now);
    PollOnSchedule(v.b, v.d, v.t0, p, r.now);
    if PhaseAt(v.a, v.d, v.t0, r.now).Done? && PhaseAt(v.b, v.d, v.t0, r.now).Done? {
      DoneIsIdle(v.a, v.d, v.t0, r.now);
      DoneIsIdle(v.b, v.d, v.t0, r.now);
    }
    RoundEnds(g, v.d, a, b, moved, r);
  }

  lemma {:induction false} DoneIsIdle(m: MotorState, d: Direction, t0: nat, t: nat)
    requires m.state.Idle? && PhaseAt(m, d, t0, t).Done?
    ensures LeafAt(m, d, t0, t).state.Idle?
  {
  }

  /** Nothing that the poll would notice ends the movement early. */
  ghost predicate Undisturbed(g: GateView, r: Reads)
    requires g.point.Driving?
  {
    && Blocked(g.controls, g.point.direction).None?
    && !Interrupts(DriveWinner(g.controls, g.point.deadline, r.wake), g.point.direction)
  }

  /** Time does not pass the gate's deadline, and its polls are undisturbed. */
  ghost predicate Prompt(s: System, act: Action)
    requires s.gate.point.Driving?
  {
    match act
    case Tick(to) => to <= s.gate.point.deadline
    case PollGate(r) => r.wake <= s.gate.point.deadline && Undisturbed(s.gate, r)
    case _ => true
  }

  /** A prompt, undisturbed run of one movement, up to and including the segment that ends it. */
  ghost predicate MovementRun(cfg: Config, s: System, acts: seq<Action>)
    decreases |acts|
  {
    acts == [] ||
    (&& s.gate.point.Driving? && Enabled(cfg, s, acts[0]) && Prompt(s, acts[0])
     && MovementRun(cfg, Step(cfg, s, acts[0]), acts[1..]))
  }

  ghost predicate Timely(s: System, p: nat) {
    && p <= s.now
    && (s.gate.point.Driving? ==> s.now <= s.gate.point.deadline)
    && (s.gate.point.Resting? ==> s.now == p)
  }

  lemma {:induction false} DrivePolledOnSchedule(g: GateView, v: Movement, p: nat, r: Reads)
    requires v.a.state.Idle? && v.b.state.Idle?
    requires g.point.Driving? && OnSchedule(g, v, p)
    requires p <= r.now == r.a == r.b <= g.point.deadline && Undisturbed(g, r)
    requires !DriveWinner(g.controls, g.point.deadline, r.wake).Nothing?
    ensures OnSchedule(DrivePolled(g, r).gate, v, r.now)
  {
    var w := DriveWinner(g.controls, g.point.deadline, r.wake);
    assert Blocked(Woken(g, w).controls, v.d) == Blocked(g.controls, v.d);
    RoundOnSchedule(Woken(g, w), v, p, g.point.a, g.point.b, g.point.moved, r);
  }

  /** A gate on schedule never waits for a deadline that has already passed. */
  lemma {:induction false} DeadlineAhead(g: GateView, v: Movement, p: nat)
    requires OnSchedule(g, v, p) && g.point.Driving?
    ensures p <= g.point.deadline
  {
  }

  lemma {:induction false} PollStaysOnSchedule(cfg: Config, s: System, v: Movement, p: nat, r: Reads)
    requires cfg.skew == 0 && v.a.state.Idle? && v.b.state.Idle?
    requires s.gate.point.Driving? && OnSchedule(s.gate, v, p) && Timely(s, p)
    requires Enabled(cfg, s, PollGate(r)) && Prompt(s, PollGate(r))
    requires !DriveWinner(s.gate.controls, s.gate.point.deadline, r.wake).Nothing?
    ensures OnSchedule(Step(cfg, s, PollGate(r)).gate, v, r.now)
    ensures Timely(Step(cfg, s, PollGate(r)), r.now)
  {
    DrivePolledOnSchedule(s.gate, v, p, r);
    var g' := DrivePolled(s.gate, r).gate;
    if g'.point.Driving? {
      DeadlineAhead(g', v, r.now);
    }
  }

  lemma {:induction false} StepStaysOnSchedule(cfg: Config, s: System, v: Movement, p: nat, act: Action) returns (p': nat)
    requires cfg.skew == 0 && v.a.state.Idle? && v.b.state.Idle?
    requires s.gate.point.Driving? && OnSchedule(s.gate, v, p) && Timely(s, p)
    requires Enabled(cfg, s, act) && Prompt(s, act)
    ensures OnSchedule(Step(cfg, s, act).gate, v, p') && Timely(Step(cfg, s, act), p')
  {
    p' := p;
    if act.PollGate? && !DriveWinner(s.gate.controls, s.gate.point.deadline, act.readings.wake).Nothing? {
      PollStaysOnSchedule(cfg, s, v, p, act.readings);
      p' := act.readings.now;
    }
  }

  lemma {:induction false} RunStaysOnSchedule(cfg: Config, s: System, v: Movement, p: nat, acts: seq<Action>)
    returns (p': nat)
    requires cfg.skew == 0 && v.a.state.Idle? && v.b.state.Idle?
    requires OnSchedule(s.gate, v, p) && Timely(s, p)
    requires MovementRun(cfg, s, acts) && ValidRun(cfg, s, acts)
    ensures OnSchedule(After(cfg, s, acts).gate, v, p') && Timely(After(cfg, s, acts), p')
    decreases |acts|
  {
    if acts == [] {
      p' := p;
    } else {
      var q := StepStaysOnSchedule(cfg, s, v, p, acts[0]);
      p' := RunStaysOnSchedule(cfg, Step(cfg, s, acts[0]), v, q, acts[1..]);
    }
  }

  /** The segment that begins a movement puts it on schedule. */
  lemma {:induction false} MovementBegins(cfg: Config, g: GateView, d: Direction, r: Reads)
    requires g.point.Resting? && g.a.state.Idle? && g.b.state.Idle? && Blocked(g.controls, d).None?
    requires r.plan == r.now == r.a == r.b
    ensures OnSchedule(DriveStarted(g, d, r).gate, Movement(d, g.a, g.b, r.plan), r.now)
  {
    FirstPollOnSchedule(g.a, d, r.plan);
    FirstPollOnSchedule(g.b, d, r.plan);
    if PhaseAt(g.a, d, r.plan, r.now).Done? && PhaseAt(g.b, d, r.plan, r.now).Done? {
      DoneIsIdle(g.a, d, r.plan, r.now);
      DoneIsIdle(g.b, d, r.plan, r.now);
    }
    RoundEnds(Notified(g.(controls := DirectionSet(g.controls, d))), d,
              Plan(g.a, d, r.plan), Plan(g.b, d, r.plan), false, r);
  }

  /** When the last leaf of a movement is switched off. */
  function EndOf(v: Movement): nat {
    Max(if RunTime(v.a, v.d).Some? then OffAt(v.a, v.d, v.t0) else v.t0,
        if RunTime(v.b, v.d).Some? then OffAt(v.b, v.d, v.t0) else v.t0)
  }

  /**
   * The gate's next segment will execute a command for direction `d`: one that
   * was handed back or restored, or one from the slot, which may be an impulse.
   */
  ghost predicate WillExecute(g: GateView, d: Direction) {
    || g.pending == Some(CommandFor(d))
    || (g.pending.None? && g.controls.command.Some?
        && ResolveImpulse(g.controls, g.controls.command.value) == CommandFor(d))
  }

  /** The segment that begins a movement in direction `d`, unblocked. */
  ghost predicate Begins(cfg: Config, s: System, d: Direction, r: Reads) {
    && Enabled(cfg, s, PollGate(r)) && s.gate.point.Resting?
    && WillExecute(s.gate, d) && Blocked(s.gate.controls, d).None?
  }

  /** The gate at rest with the command it executes next removed. */
  function CommandTaken(g: GateView): GateView {
    if g.pending.Some? then g.(pending := None) else g.(controls := g.controls.(command := None))
  }

  lemma {:induction false} TakenIsExecuted(g: GateView, d: Direction, r: Reads)
    requires g.point.Resting? && WillExecute(g, d)
    ensures Polled(g, r) == DriveStarted(CommandTaken(g), d, r)
    ensures Blocked(CommandTaken(g).controls, d) == Blocked(g.controls, d)
  {
    var g1 := CommandTaken(g);
    if g.pending.Some? {
      assert Polled(g, r) == Executed(g1, g.pending.value, r);
      assert ResolveImpulse(g1.controls, g.pending.value) == CommandFor(d);
    } else {
      assert Polled(g, r) == Executed(g1, g.controls.command.value, r);
      assert ResolveImpulse(g1.controls, g.controls.command.value) == CommandFor(d);
    }
  }

  lemma {:induction false} BeginsOnSchedule(cfg: Config, s: System, d: Direction, r: Reads)
    requires cfg.skew == 0 && SystemOk(cfg, s) && Begins(cfg, s, d, r)
    ensures var s1 := Step(cfg, s, PollGate(r));
      OnSchedule(s1.gate, Movement(d, s.gate.a, s.gate.b, r.plan), r.now) && Timely(s1, r.now)
  {
    var g1 := CommandTaken(s.gate);
    TakenIsExecuted(s.gate, d, r);
    MovementBegins(cfg, g1, d, r);
    PlansAhead(g1.a, d, r.plan);
    PlansAhead(g1.b, d, r.plan);
  }

  lemma {:induction false} PlansAhead(m: MotorState, d: Direction, t0: nat)
    ensures Deadline(PhaseAt(m, d, t0, t0)).Some? ==> t0 <= Deadline(PhaseAt(m, d, t0, t0)).value
  {
  }

  /**
   * The refinement: from the command on, along every prompt, undisturbed run of
   * the movement the two motors - pins, traces and estimates - are exactly the
   * closed form's, while it lasts and when it has ended.
   */
  lemma {:induction false} MovementFollowsSchedule(cfg: Config, s: System, d: Direction, r: Reads, acts: seq<Action>)
    returns (p: nat)
    requires cfg.skew == 0 && SystemOk(cfg, s) && Begins(cfg, s, d, r)
    requires var s1 := Step(cfg, s, PollGate(r)); MovementRun(cfg, s1, acts) && ValidRun(cfg, s1, acts)
    ensures var s2 := After(cfg, Step(cfg, s, PollGate(r)), acts);
      OnSchedule(s2.gate, Movement(d, s.gate.a, s.gate.b, r.plan), p) && Timely(s2, p)
  {
    BeginsOnSchedule(cfg, s, d, r);
    p := RunStaysOnSchedule(cfg, Step(cfg, s, PollGate(r)), Movement(d, s.gate.a, s.gate.b, r.plan), r.now, acts);
  }

  // ----- How often the timer wakes a movement -----

  function Work(phase: Phase): nat {
    match phase
    case Waiting(_) => 2
    case Energized(_) => 1
    case Done => 0
  }

  function WorkLeft(g: GateView): nat {
    if g.point.Driving? then Work(g.point.a) + Work(g.point.b) else 0
  }

  ghost predicate TimerWake(s: System, act: Action) {
    && s.gate.point.Driving? && act.PollGate?
    && DriveWinner(s.gate.controls, s.gate.point.deadline, act.readings.wake).Timer?
  }

  /** All states but possibly the last belong to one movement. */
  ghost predicate OneMovement(cfg: Config, s: System, acts: seq<Action>)
    decreases |acts|
  {
    acts == [] ||
    (s.gate.point.Driving? && Enabled(cfg, s, acts[0]) && OneMovement(cfg, Step(cfg, s, acts[0]), acts[1..]))
  }

  ghost function TimerWakes(cfg: Config, s: System, acts: seq<Action>): nat
    requires OneMovement(cfg, s, acts)
    decreases |acts|
  {
    if acts == [] then 0
    else (if TimerWake(s, acts[0]) then 1 else 0) + TimerWakes(cfg, Step(cfg, s, acts[0]), acts[1..])
  }

  lemma {:induction false} DriveRoundWork(g: GateView, d: Direction, a: Phase, b: Phase, moved: bool, r: Reads)
    requires Earliest(Deadline(a), Deadline(b)).Some?
    ensures var left := WorkLeft(DriveRound(g, d, a, b, moved, r).gate);
      && left <= Work(a) + Work(b)
      && (Earliest(Deadline(a), Deadline(b)).value <= r.now ==> left < Work(a) + Work(b))
  {
  }

  lemma {:induction false} TimerDoesWork(cfg: Config, s: System, act: Action)
    requires SystemOk(cfg, s) && s.gate.point.Driving? && Enabled(cfg, s, act)
    ensures WorkLeft(Step(cfg, s, act).gate) + (if TimerWake(s, act) then 1 else 0) <= WorkLeft(s.gate)
  {
    if act.PollGate? {
      DrivePolledWork(cfg, s.gate, act.readings);
    }
  }

  lemma {:induction false} DrivePolledWork(cfg: Config, g: GateView, r: Reads)
    requires PointOk(cfg, g) && g.point.Driving? && r.wake <= r.now
    ensures var w := DriveWinner(g.controls, g.point.deadline, r.wake);
      WorkLeft(DrivePolled(g, r).gate) + (if w.Timer? then 1 else 0) <= WorkLeft(g)
  {
    var Driving(d, a, b, moved, deadline) := g.point;
    var w := DriveWinner(g.controls, deadline, r.wake);
    if !w.Nothing? && !Interrupts(w, d) {
      DriveRoundWork(Woken(g, w), d, a, b, moved, r);
    }
  }

  /** In every run of one movement, prompt or late, disturbed or not, the timer wakes it at most four times. */
  lemma {:induction false} AtMostFourTimerWakes(cfg: Config, s: System, acts: seq<Action>)
    requires SystemOk(cfg, s) && OneMovement(cfg, s, acts) && ValidRun(cfg, s, acts)
    ensures TimerWakes(cfg, s, acts) + WorkLeft(After(cfg, s, acts).gate) <= WorkLeft(s.gate) <= 4
    decreases |acts|
  {
    if acts != [] {
      TimerDoesWork(cfg, s, acts[0]);
      StepOk(cfg, s, acts[0]);
      AtMostFourTimerWakes(cfg, Step(cfg, s, acts[0]), acts[1..]);
    }
  }
}
