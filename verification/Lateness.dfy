/**
 * The schedule under late polls and skewed readings. If each segment of an
 * undisturbed movement wakes at most `late` after its deadline, every relay
 * switches no earlier than the closed form says, goes on at most `late` plus
 * the skew later, and off at most twice that later.
 */
module Lateness {
  import opened Base
  import opened M = MotorModel
  import opened C = ControlsModel
  import opened G = GateModel
  import opened S = SystemModel
  import opened I = GateInvariant
  import opened D = Schedule

  // ----- One leaf -----

  ghost predicate OnInTime(m: MotorState, d: Direction, t0: nat, on: nat, slack: nat) {
    OnAt(m, d, t0) <= on <= OnAt(m, d, t0) + slack
  }

  /** `cur` is `m` after one relay-on episode, begun and ended in time. */
  ghost predicate Switched(m: MotorState, d: Direction, t0: nat, slack: nat, cur: MotorState, on: nat, off: nat)
    requires RunTime(m, d).Some?
  {
    && cur == Settled(Started(m, d, on), off)
    && OnInTime(m, d, t0, on, slack)
    && OffAt(m, d, t0) <= off <= OffAt(m, d, t0) + 2 * slack
  }

  /** The leaf that was `m` when the movement began is now `cur`, in stage `phase`, having switched in time. */
  ghost predicate LeafNear(m: MotorState, d: Direction, t0: nat, slack: nat, cur: MotorState, phase: Phase) {
    if RunTime(m, d).None? then cur == m && phase.Done?
    else
      match phase
      case Waiting(at) => cur == m && at == OnAt(m, d, t0)
      case Energized(until) =>
        && cur.state.Running? && cur == Started(m, d, cur.state.since)
        && OnInTime(m, d, t0, cur.state.since, slack)
        && OffAt(m, d, t0) <= until <= OffAt(m, d, t0) + slack
      case Done => exists on, off :: Switched(m, d, t0, slack, cur, on, off)
  }

  lemma {:induction false} PollNear(m: MotorState, d: Direction, t0: nat, slack: nat, cur: MotorState, phase: Phase, now: nat, read: nat)
    requires m.state.Idle? && LeafNear(m, d, t0, slack, cur, phase) && now <= read
    requires Deadline(phase).Some? ==> read <= Deadline(phase).value + slack
    ensures var p := PollLeaf(cur, phase, d, now, read);
      LeafNear(m, d, t0, slack, p.motor, p.phase) && (p.phase.Done? ==> p.motor.state.Idle?)
  {
    var p := PollLeaf(cur, phase, d, now, read);
    if p.phase.Done? && phase.Waiting? {
      assert Switched(m, d, t0, slack, p.motor, read, read);
    } else if p.phase.Done? && phase.Energized? {
      assert Switched(m, d, t0, slack, p.motor, cur.state.since, read);
    }
  }

  // ----- A movement -----

  ghost predicate GateNear(g: GateView, v: Movement, slack: nat) {
    match g.point
    case Driving(d, a, b, _, deadline) =>
      && d == v.d && Earliest(Deadline(a), Deadline(b)) == Some(deadline)
      && LeafNear(v.a, d, v.t0, slack, g.a, a) && LeafNear(v.b, d, v.t0, slack, g.b, b)
    case Resting =>
      LeafNear(v.a, v.d, v.t0, slack, g.a, Done) && LeafNear(v.b, v.d, v.t0, slack, g.b, Done)
  }

  lemma {:induction false} RoundNear(g: GateView, v: Movement, slack: nat, a: Phase, b: Phase, moved: bool, r: Reads)
    requires v.a.state.Idle? && v.b.state.Idle? && Blocked(g.controls, v.d).None? && r.now <= r.a <= r.b
    requires LeafNear(v.a, v.d, v.t0, slack, g.a, a) && LeafNear(v.b, v.d, v.t0, slack, g.b, b)
    requires Deadline(a).Some? ==> r.b <= Deadline(a).value + slack
    requires Deadline(b).Some? ==> r.b <= Deadline(b).value + slack
    ensures GateNear(DriveRound(g, v.d, a, b, moved, r).gate, v, slack)
  {
    PollNear(v.a, v.d, v.t0, slack, g.a, a, r.now, r.a);
    PollNear(v.b, v.d, v.t0, slack, g.b, b, r.now, r.b);
    RoundEnds(g, v.d, a, b, moved, r);
  }

  lemma {:induction false} PlanNear(m: MotorState, d: Direction, t0: nat, slack: nat)
    ensures LeafNear(m, d, t0, slack, m, Plan(m, d, t0))
    ensures Deadline(Plan(m, d, t0)).Some? ==> t0 <= Deadline(Plan(m, d, t0)).value
  {
  }

  lemma {:induction false} BeginsNear(cfg: Config, s: System, d: Direction, r: Reads, slack: nat)
    requires SystemOk(cfg, s) && Begins(cfg, s, d, r) && cfg.skew <= slack
    ensures s.gate.a.state.Idle? && s.gate.b.state.Idle?
    ensures GateNear(Step(cfg, s, PollGate(r)).gate, Movement(d, s.gate.a, s.gate.b, r.plan), slack)
  {
    var g1 := CommandTaken(s.gate);
    TakenIsExecuted(s.gate, d, r);
    PlanNear(g1.a, d, r.plan, slack);
    PlanNear(g1.b, d, r.plan, slack);
    RoundNear(Notified(g1.(controls := DirectionSet(g1.controls, d))), Movement(d, g1.a, g1.b, r.plan), slack,
              Plan(g1.a, d, r.plan), Plan(g1.b, d, r.plan), false, r);
  }

  lemma {:induction false} DrivePolledNear(g: GateView, v: Movement, slack: nat, r: Reads)
    requires v.a.state.Idle? && v.b.state.Idle? && g.point.Driving? && GateNear(g, v, slack)
    requires Undisturbed(g, r) && r.now <= r.a <= r.b <= g.point.deadline + slack
    ensures GateNear(DrivePolled(g, r).gate, v, slack)
  {
    var Driving(d, a, b, moved, deadline) := g.point;
    var w := DriveWinner(g.controls, deadline, r.wake);
    if !w.Nothing? {
      assert Blocked(Woken(g, w).controls, d) == Blocked(g.controls, d);
      RoundNear(Woken(g, w), v, slack, a, b, moved, r);
    }
  }

  /** An undisturbed run of one movement whose segments wake at most `late` after their deadlines. */
  ghost predicate LateRun(cfg: Config, s: System, acts: seq<Action>, late: nat)
    decreases |acts|
  {
    acts == [] ||
    (&& s.gate.point.Driving? && Enabled(cfg, s, acts[0])
     && (acts[0].PollGate? ==>
           acts[0].readings.wake <= s.gate.point.deadline + late && Undisturbed(s.gate, acts[0].readings))
     && LateRun(cfg, Step(cfg, s, acts[0]), acts[1..], late))
  }

  lemma {:induction false} LateRunNear(cfg: Config, s: System, v: Movement, acts: seq<Action>, late: nat)
    requires v.a.state.Idle? && v.b.state.Idle? && GateNear(s.gate, v, late + cfg.skew)
    requires LateRun(cfg, s, acts, late) && ValidRun(cfg, s, acts)
    ensures GateNear(After(cfg, s, acts).gate, v, late + cfg.skew)
    decreases |acts|
  {
    if acts != [] {
      if acts[0].PollGate? {
        PollStepNear(cfg, s, v, late, acts[0].readings);
      } else {
        InputNear(cfg, s, v, late + cfg.skew, acts[0]);
      }
      LateRunNear(cfg, Step(cfg, s, acts[0]), v, acts[1..], late);
    }
  }

  lemma {:induction false} PollStepNear(cfg: Config, s: System, v: Movement, late: nat, r: Reads)
    requires v.a.state.Idle? && v.b.state.Idle? && s.gate.point.Driving? && GateNear(s.gate, v, late + cfg.skew)
    requires Enabled(cfg, s, PollGate(r)) && r.wake <= s.gate.point.deadline + late && Undisturbed(s.gate, r)
    ensures GateNear(Step(cfg, s, PollGate(r)).gate, v, late + cfg.skew)
  {
    DrivePolledNear(s.gate, v, late + cfg.skew, r);
  }

  lemma {:induction false} InputNear(cfg: Config, s: System, v: Movement, slack: nat, act: Action)
    requires GateNear(s.gate, v, slack) && Enabled(cfg, s, act) && !act.PollGate?
    ensures GateNear(Step(cfg, s, act).gate, v, slack)
  {
    var g' := Step(cfg, s, act).gate;
    assert g'.a == s.gate.a && g'.b == s.gate.b && g'.point == s.gate.point;
  }

  /**
   * From the command on, for any skew and any lateness: while the movement lasts
   * and when it has ended, each leaf has switched within the slack of its schedule.
   */
  lemma {:induction false} LateMovementIsNearSchedule(cfg: Config, s: System, d: Direction, r: Reads, acts: seq<Action>, late: nat)
    requires SystemOk(cfg, s) && Begins(cfg, s, d, r)
    requires var s1 := Step(cfg, s, PollGate(r)); LateRun(cfg, s1, acts, late) && ValidRun(cfg, s1, acts)
    ensures GateNear(After(cfg, Step(cfg, s, PollGate(r)), acts).gate,
                     Movement(d, s.gate.a, s.gate.b, r.plan), late + cfg.skew)
  {
    BeginsNear(cfg, s, d, r, late + cfg.skew);
    LateRunNear(cfg, Step(cfg, s, PollGate(r)), Movement(d, s.gate.a, s.gate.b, r.plan), acts, late);
  }

  // ----- Arrival -----

  /** A round that ends because both leaves are done leaves them at their end. */
  lemma {:induction false} DoneRound(cfg: Config, g: GateView, d: Direction, a: Phase, b: Phase, moved: bool, r: Reads)
    requires Sound(cfg) && MotorsOk(cfg, g, r.now) && LeafOk(cfg, g.a, a, d) && LeafOk(cfg, g.b, b, d)
    requires Blocked(g.controls, d).None? && r.now <= r.a <= r.b <= r.now + cfg.skew
    requires DriveRound(g, d, a, b, moved, r).gate.point.Resting?
    ensures var g' := DriveRound(g, d, a, b, moved, r).gate; Remaining(g'.a, d) == 0 && Remaining(g'.b, d) == 0
  {
    PollLeafOk(cfg, g.a, a, d, r.now, r.a);
    PollLeafOk(cfg, g.b, b, d, r.now, r.b);
    RoundEnds(g, d, a, b, moved, r);
  }

  lemma {:induction false} UndisturbedEnd(cfg: Config, g: GateView, r: Reads)
    requires Sound(cfg) && MotorsOk(cfg, g, r.now) && PointOk(cfg, g) && g.point.Driving?
    requires Undisturbed(g, r) && r.now <= r.a <= r.b <= r.now + cfg.skew
    requires DrivePolled(g, r).gate.point.Resting?
    ensures var g' := DrivePolled(g, r).gate;
      Remaining(g'.a, g.point.direction) == 0 && Remaining(g'.b, g.point.direction) == 0
  {
    var Driving(d, a, b, moved, deadline) := g.point;
    var w := DriveWinner(g.controls, deadline, r.wake);
    assert Blocked(Woken(g, w).controls, d) == Blocked(g.controls, d);
    DoneRound(cfg, Woken(g, w), d, a, b, moved, r);
  }

  /** A movement that is over with the segment that began it had nothing to do. */
  lemma {:induction false} BegunEnd(cfg: Config, s: System, d: Direction, r: Reads)
    requires Sound(cfg) && SystemOk(cfg, s) && Begins(cfg, s, d, r) && Step(cfg, s, PollGate(r)).gate.point.Resting?
    ensures var g' := Step(cfg, s, PollGate(r)).gate; Remaining(g'.a, d) == 0 && Remaining(g'.b, d) == 0
  {
    var g1 := CommandTaken(s.gate);
    TakenIsExecuted(s.gate, d, r);
    PlanOk(cfg, g1.a, d, r.plan);
    PlanOk(cfg, g1.b, d, r.plan);
    DoneRound(cfg, Notified(g1.(controls := DirectionSet(g1.controls, d))), d,
              Plan(g1.a, d, r.plan), Plan(g1.b, d, r.plan), false, r);
  }

  /** Neither the clock nor a segment gets more than `late` past the movement's deadline. */
  ghost predicate Punctual(s: System, act: Action, late: nat)
    requires s.gate.point.Driving?
  {
    match act
    case Tick(to) => to <= s.gate.point.deadline + late
    case PollGate(r) => r.wake <= s.gate.point.deadline + late
    case _ => true
  }

  ghost predicate PunctualRun(cfg: Config, s: System, acts: seq<Action>, late: nat)
    decreases |acts|
  {
    acts == [] ||
    (&& s.gate.point.Driving? && Enabled(cfg, s, acts[0]) && Punctual(s, acts[0], late)
     && (acts[0].PollGate? ==> Undisturbed(s.gate, acts[0].readings))
     && PunctualRun(cfg, Step(cfg, s, acts[0]), acts[1..], late))
  }

  /** In flight the clock is at most the slack past the deadline; at rest, at most the slack past the last one. */
  ghost predicate InTime(s: System, v: Movement, slack: nat) {
    if s.gate.point.Driving? then s.now <= s.gate.point.deadline + slack else s.now <= EndOf(v) + 2 * slack
  }

  lemma {:induction false} DeadlineNear(g: GateView, v: Movement, slack: nat)
    requires GateNear(g, v, slack) && g.point.Driving?
    ensures v.t0 <= g.point.deadline <= EndOf(v) + slack
  {
  }

  lemma {:induction false} LeafDeadlineGrows(m: MotorState, phase: Phase, d: Direction, now: nat, read: nat)
    ensures var later := Deadline(PollLeaf(m, phase, d, now, read).phase);
      later.Some? ==> Deadline(phase).Some? && Deadline(phase).value <= later.value
  {
  }

  lemma {:induction false} DeadlineGrows(g: GateView, r: Reads)
    requires g.point.Driving? && Undisturbed(g, r)
    requires Earliest(Deadline(g.point.a), Deadline(g.point.b)) == Some(g.point.deadline)
    ensures var g' := DrivePolled(g, r).gate; g'.point.Driving? ==> g.point.deadline <= g'.point.deadline
  {
    var Driving(d, a, b, moved, deadline) := g.point;
    var w := DriveWinner(g.controls, deadline, r.wake);
    if !w.Nothing? {
      assert Blocked(Woken(g, w).controls, d) == Blocked(g.controls, d);
      RoundEnds(Woken(g, w), d, a, b, moved, r);
      LeafDeadlineGrows(g.a, a, d, r.now, r.a);
      LeafDeadlineGrows(g.b, b, d, r.now, r.b);
    }
  }

  lemma {:induction false} PollInTime(cfg: Config, s: System, v: Movement, late: nat, r: Reads)
    requires s.gate.point.Driving? && GateNear(s.gate, v, late + cfg.skew)
    requires Enabled(cfg, s, PollGate(r)) && Punctual(s, PollGate(r), late) && Undisturbed(s.gate, r)
    ensures InTime(Step(cfg, s, PollGate(r)), v, late + cfg.skew)
  {
    DeadlineNear(s.gate, v, late + cfg.skew);
    DeadlineGrows(s.gate, r);
  }

  lemma {:induction false} InputInTime(cfg: Config, s: System, v: Movement, late: nat, act: Action)
    requires s.gate.point.Driving? && InTime(s, v, late + cfg.skew)
    requires Enabled(cfg, s, act) && Punctual(s, act, late) && !act.PollGate?
    ensures InTime(Step(cfg, s, act), v, late + cfg.skew)
  {
    assert Step(cfg, s, act).gate.point == s.gate.point;
  }

  ghost predicate AtEnd(g: GateView, d: Direction) {
    g.point.Resting? ==> Remaining(g.a, d) == 0 && Remaining(g.b, d) == 0
  }

  lemma {:induction false} PollAtEnd(cfg: Config, s: System, r: Reads)
    requires Sound(cfg) && SystemOk(cfg, s) && s.gate.point.Driving?
    requires Enabled(cfg, s, PollGate(r)) && Undisturbed(s.gate, r)
    ensures AtEnd(Step(cfg, s, PollGate(r)).gate, s.gate.point.direction)
  {
    if DrivePolled(s.gate, r).gate.point.Resting? {
      UndisturbedEnd(cfg, s.gate, r);
    }
  }

  lemma {:induction false} PollArrives(cfg: Config, s: System, v: Movement, r: Reads, late: nat)
    requires SystemOk(cfg, s) && v.a.state.Idle? && v.b.state.Idle? && GateNear(s.gate, v, late + cfg.skew)
    requires s.gate.point.Driving? && Enabled(cfg, s, PollGate(r))
    requires Punctual(s, PollGate(r), late) && Undisturbed(s.gate, r)
    ensures Arriving(cfg, Step(cfg, s, PollGate(r)), v, late)
  {
    PollStepNear(cfg, s, v, late, r);
    PollInTime(cfg, s, v, late, r);
    if Sound(cfg) {
      PollAtEnd(cfg, s, r);
    }
  }

  lemma {:induction false} InputArrives(cfg: Config, s: System, v: Movement, act: Action, late: nat)
    requires GateNear(s.gate, v, late + cfg.skew) && InTime(s, v, late + cfg.skew)
    requires s.gate.point.Driving? && Enabled(cfg, s, act) && Punctual(s, act, late) && !act.PollGate?
    ensures Arriving(cfg, Step(cfg, s, act), v, late)
  {
    InputNear(cfg, s, v, late + cfg.skew, act);
    InputInTime(cfg, s, v, late, act);
    assert Step(cfg, s, act).gate.point == s.gate.point;
  }

  /** The movement is near its schedule and in time, and at its end if it is over. */
  ghost predicate Arriving(cfg: Config, s: System, v: Movement, late: nat) {
    && GateNear(s.gate, v, late + cfg.skew) && InTime(s, v, late + cfg.skew)
    && (Sound(cfg) ==> AtEnd(s.gate, v.d))
  }

  lemma {:induction false} PunctualRunArrives(cfg: Config, s: System, v: Movement, acts: seq<Action>, late: nat)
    requires SystemOk(cfg, s) && v.a.state.Idle? && v.b.state.Idle? && Arriving(cfg, s, v, late)
    requires PunctualRun(cfg, s, acts, late) && ValidRun(cfg, s, acts)
    ensures Arriving(cfg, After(cfg, s, acts), v, late)
    decreases |acts|
  {
    if acts != [] {
      StepOk(cfg, s, acts[0]);
      if acts[0].PollGate? {
        PollArrives(cfg, s, v, acts[0].readings, late);
      } else {
        InputArrives(cfg, s, v, acts[0], late);
      }
      PunctualRunArrives(cfg, Step(cfg, s, acts[0]), v, acts[1..], late);
    }
  }

  /**
   * From the command to the end stop, for any skew and lateness: the movement
   * lasts no longer than its schedule plus twice the slack, and ends with both
   * leaves switched within the slack and at their end in direction `d`.
   */
  lemma {:induction false} LateMovementArrives(cfg: Config, s: System, d: Direction, r: Reads, acts: seq<Action>, late: nat)
    requires SystemOk(cfg, s) && Begins(cfg, s, d, r)
    requires var s1 := Step(cfg, s, PollGate(r)); PunctualRun(cfg, s1, acts, late) && ValidRun(cfg, s1, acts)
    ensures var v := Movement(d, s.gate.a, s.gate.b, r.plan);
      var s2 := After(cfg, Step(cfg, s, PollGate(r)), acts);
      && GateNear(s2.gate, v, late + cfg.skew)
      && s2.now <= EndOf(v) + 2 * (late + cfg.skew)
      && (Sound(cfg) ==> AtEnd(s2.gate, d))
  {
    BegunOk(cfg, s, d, r, late);
    BegunArrives(cfg, Step(cfg, s, PollGate(r)), Movement(d, s.gate.a, s.gate.b, r.plan), acts, late);
  }

  /** What the rest of a movement needs to know about the segment that began it. */
  ghost predicate Begun(cfg: Config, s: System, v: Movement, late: nat) {
    && SystemOk(cfg, s) && v.a.state.Idle? && v.b.state.Idle?
    && GateNear(s.gate, v, late + cfg.skew) && s.now <= v.t0 + cfg.skew
    && (Sound(cfg) ==> AtEnd(s.gate, v.d))
  }

  lemma {:induction false} BegunOk(cfg: Config, s: System, d: Direction, r: Reads, late: nat)
    requires SystemOk(cfg, s) && Begins(cfg, s, d, r)
    ensures Begun(cfg, Step(cfg, s, PollGate(r)), Movement(d, s.gate.a, s.gate.b, r.plan), late)
  {
    BeginsNear(cfg, s, d, r, late + cfg.skew);
    PolledNow(cfg, s, r);
    StepOk(cfg, s, PollGate(r));
    BegunAtEnd(cfg, s, d, r);
  }

  lemma {:induction false} BegunAtEnd(cfg: Config, s: System, d: Direction, r: Reads)
    requires SystemOk(cfg, s) && Begins(cfg, s, d, r)
    ensures Sound(cfg) ==> AtEnd(Step(cfg, s, PollGate(r)).gate, d)
  {
    if Sound(cfg) && Step(cfg, s, PollGate(r)).gate.point.Resting? {
      BegunEnd(cfg, s, d, r);
    }
  }

  lemma {:induction false} BegunArrives(cfg: Config, s: System, v: Movement, acts: seq<Action>, late: nat)
    requires Begun(cfg, s, v, late)
    requires PunctualRun(cfg, s, acts, late) && ValidRun(cfg, s, acts)
    ensures var s' := After(cfg, s, acts);
      && GateNear(s'.gate, v, late + cfg.skew)
      && s'.now <= EndOf(v) + 2 * (late + cfg.skew)
      && (Sound(cfg) ==> AtEnd(s'.gate, v.d))
  {
    NearIsInTime(s, v, late + cfg.skew);
    PunctualRunArrives(cfg, s, v, acts, late);
    ArrivingByEnd(cfg, After(cfg, s, acts), v, late);
  }

  lemma {:induction false} ArrivingByEnd(cfg: Config, s: System, v: Movement, late: nat)
    requires Arriving(cfg, s, v, late)
    ensures s.now <= EndOf(v) + 2 * (late + cfg.skew)
  {
    if s.gate.point.Driving? {
      DeadlineNear(s.gate, v, late + cfg.skew);
    }
  }

  lemma {:induction false} PolledNow(cfg: Config, s: System, r: Reads)
    requires Enabled(cfg, s, PollGate(r))
    ensures Step(cfg, s, PollGate(r)).now <= r.plan + cfg.skew
  {
  }

  lemma {:induction false} NearIsInTime(s: System, v: Movement, slack: nat)
    requires GateNear(s.gate, v, slack) && s.now <= v.t0 + slack
    ensures InTime(s, v, slack)
  {
    if s.gate.point.Driving? {
      DeadlineNear(s.gate, v, slack);
    }
  }
}
