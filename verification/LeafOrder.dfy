/** Overlapping leaves move in a fixed order. */
module LeafOrder {
  import opened Base
  import opened M = MotorModel
  import opened C = ControlsModel
  import opened G = GateModel
  import opened S = SystemModel
  import opened I = GateInvariant
  import T = Travel

  /** How much later than the first leaf the second is due, at least, given any reverse pause the first one owes. */
  function Margin(cfg: Config, first: LeafTiming, second: LeafTiming, d: Direction): int {
    T.WaitTime(second, d) - Max(T.WaitTime(first, d), cfg.pause)
  }

  /** The second leaf's delay covers the first one's delay and any reverse pause. */
  ghost predicate SecondWaits(cfg: Config, first: LeafTiming, second: LeafTiming, d: Direction) {
    Margin(cfg, first, second, d) >= 0
  }

  /** The second leaf is due `margin` after the first, and is not energized before it, up to `slack` ticks. */
  ghost predicate InOrder(slack: nat, margin: nat, m1: MotorState, p1: Phase, m2: MotorState, p2: Phase) {
    && (p1.Waiting? ==> !p2.Energized? && (p2.Waiting? ==> p1.at + margin <= p2.at))
    && (p1.Energized? && p2.Energized? && m1.state.Running? && m2.state.Running? ==>
          m1.state.since <= m2.state.since + slack)
  }

  /**
   * A pass serves A first. So B before A holds exactly if polls are never so late
   * that both become due in one pass, and else up to the skew of one segment.
   */
  function SlackOfB(cfg: Config, late: Option<nat>, d: Direction): nat {
    if late.Some? && late.value < Margin(cfg, cfg.leafB, cfg.leafA, d) then 0 else cfg.skew
  }

  /** Each order that is protected by the delays holds, with polls at most `late` after they are due, if bounded. */
  ghost predicate OrderOk(cfg: Config, late: Option<nat>, g: GateView) {
    g.point.Driving? ==> BothOrders(cfg, late, g.point.direction, g.a, g.point.a, g.b, g.point.b)
  }

  ghost predicate BothOrders(cfg: Config, late: Option<nat>, d: Direction, ma: MotorState, a: Phase, mb: MotorState, b: Phase) {
    && (SecondWaits(cfg, cfg.leafA, cfg.leafB, d) ==>
          InOrder(0, Margin(cfg, cfg.leafA, cfg.leafB, d), ma, a, mb, b))
    && (SecondWaits(cfg, cfg.leafB, cfg.leafA, d) ==>
          InOrder(SlackOfB(cfg, late, d), Margin(cfg, cfg.leafB, cfg.leafA, d), mb, b, ma, a))
  }

  /** The loop reading comes at most `late` after the leaf was due. */
  ghost predicate DueAtMost(phase: Phase, now: nat, late: Option<nat>) {
    late.Some? && phase.Waiting? ==> now <= phase.at + late.value
  }

  lemma {:induction false} PlanInOrder(cfg: Config, m1: MotorState, m2: MotorState, d: Direction, plan: nat, slack: nat)
    requires MotorOk(m1, plan) && m1.reversePause == cfg.pause
    requires SecondWaits(cfg, m1.timing, m2.timing, d)
    ensures InOrder(slack, Margin(cfg, m1.timing, m2.timing, d), m1, Plan(m1, d, plan), m2, Plan(m2, d, plan))
  {
  }

  /** A pass keeps the order if it reads the clock for the first leaf in time, or cannot find both leaves due. */
  lemma {:induction false} PollInOrder(cfg: Config, slack: nat, margin: nat, m1: MotorState, p1: Phase, m2: MotorState, p2: Phase, d: Direction, now: nat, r1: nat, r2: nat)
    requires LeafOk(cfg, m1, p1, d) && ClockSane(m1, now) && LeafOk(cfg, m2, p2, d)
    requires now <= r1 && now <= r2
    requires r1 <= r2 + slack || (p1.Waiting? ==> now < p1.at + margin)
    requires InOrder(slack, margin, m1, p1, m2, p2)
    ensures var x, y := PollLeaf(m1, p1, d, now, r1), PollLeaf(m2, p2, d, now, r2);
      InOrder(slack, margin, x.motor, x.phase, y.motor, y.phase)
  {
  }

  lemma {:induction false} DriveRoundOrder(cfg: Config, late: Option<nat>, g: GateView, d: Direction, a: Phase, b: Phase, moved: bool, r: Reads)
    requires MotorsOk(cfg, g, r.now) && LeafOk(cfg, g.a, a, d) && LeafOk(cfg, g.b, b, d)
    requires r.now <= r.a <= r.b <= r.now + cfg.skew && DueAtMost(b, r.now, late)
    requires BothOrders(cfg, late, d, g.a, a, g.b, b)
    ensures OrderOk(cfg, late, DriveRound(g, d, a, b, moved, r).gate)
  {
    if SecondWaits(cfg, cfg.leafA, cfg.leafB, d) {
      PollInOrder(cfg, 0, Margin(cfg, cfg.leafA, cfg.leafB, d), g.a, a, g.b, b, d, r.now, r.a, r.b);
    }
    if SecondWaits(cfg, cfg.leafB, cfg.leafA, d) {
      PollInOrder(cfg, SlackOfB(cfg, late, d), Margin(cfg, cfg.leafB, cfg.leafA, d), g.b, b, g.a, a, d, r.now, r.b, r.a);
    }
    if Blocked(g.controls, d).None? {
      RoundEnds(g, d, a, b, moved, r);
    }
  }

  lemma {:induction false} DriveStartedOrder(cfg: Config, late: Option<nat>, g: GateView, d: Direction, r: Reads)
    requires MotorsOk(cfg, g, r.plan) && g.a.state.Idle? && g.b.state.Idle? && g.point.Resting?
    requires r.plan <= r.now <= r.a <= r.b <= r.now + cfg.skew
    requires late.Some? ==> r.now <= r.plan + late.value
    ensures OrderOk(cfg, late, DriveStarted(g, d, r).gate)
  {
    if Blocked(g.controls, d).None? {
      PlanOk(cfg, g.a, d, r.plan);
      PlanOk(cfg, g.b, d, r.plan);
      if SecondWaits(cfg, cfg.leafA, cfg.leafB, d) {
        PlanInOrder(cfg, g.a, g.b, d, r.plan, 0);
      }
      if SecondWaits(cfg, cfg.leafB, cfg.leafA, d) {
        PlanInOrder(cfg, g.b, g.a, d, r.plan, SlackOfB(cfg, late, d));
      }
      DriveRoundOrder(cfg, late, Notified(g.(controls := DirectionSet(g.controls, d))), d,
                      Plan(g.a, d, r.plan), Plan(g.b, d, r.plan), false, r);
    }
  }

  lemma {:induction false} ExecutedOrder(cfg: Config, late: Option<nat>, g: GateView, command: GateCommand, r: Reads)
    requires MotorsOk(cfg, g, r.plan) && g.a.state.Idle? && g.b.state.Idle? && g.point.Resting?
    requires r.plan <= r.now <= r.a <= r.b <= r.now + cfg.skew
    requires late.Some? ==> r.now <= r.plan + late.value
    ensures OrderOk(cfg, late, Executed(g, command, r).gate)
  {
    DriveStartedOrder(cfg, late, g, Opening, r);
    DriveStartedOrder(cfg, late, g, Closing, r);
  }

  lemma {:induction false} DrivePolledOrder(cfg: Config, late: Option<nat>, g: GateView, r: Reads)
    requires GateOk(cfg, g, r.now) && OrderOk(cfg, late, g) && g.point.Driving?
    requires r.now <= r.a <= r.b <= r.now + cfg.skew
    requires late.Some? ==> r.now <= g.point.deadline + late.value
    ensures OrderOk(cfg, late, DrivePolled(g, r).gate)
  {
    var Driving(d, a, b, moved, deadline) := g.point;
    var w := DriveWinner(g.controls, deadline, r.wake);
    if !w.Nothing? && !Interrupts(w, d) {
      DriveRoundOrder(cfg, late, Woken(g, w), d, a, b, moved, r);
    }
  }

  /** A segment's loop reads the clock at most `late` after the movement's deadline, or after its own planning. */
  ghost predicate OnTime(s: System, act: Action, late: Option<nat>) {
    act.PollGate? && late.Some? ==>
      act.readings.now <= (if s.gate.point.Driving? then s.gate.point.deadline else act.readings.plan) + late.value
  }

  lemma {:induction false} OrderStep(cfg: Config, late: Option<nat>, s: System, act: Action)
    requires SystemOk(cfg, s) && OrderOk(cfg, late, s.gate) && Enabled(cfg, s, act) && OnTime(s, act, late)
    ensures OrderOk(cfg, late, Step(cfg, s, act).gate)
  {
    if act.PollGate? {
      var g, r := s.gate, act.readings;
      if g.point.Driving? {
        DrivePolledOrder(cfg, late, g, r);
      } else if g.pending.Some? {
        ExecutedOrder(cfg, late, g.(pending := None), g.pending.value, r);
      } else if g.controls.command.Some? {
        ExecutedOrder(cfg, late, g.(controls := g.controls.(command := None)), g.controls.command.value, r);
      }
    }
  }

  // ----- Runs of bounded lateness -----

  ghost predicate RunOnTime(cfg: Config, s: System, acts: seq<Action>, late: Option<nat>)
    requires ValidRun(cfg, s, acts)
    decreases |acts|
  {
    acts == [] || (OnTime(s, acts[0], late) && RunOnTime(cfg, Step(cfg, s, acts[0]), acts[1..], late))
  }

  ghost predicate RunsOnTimeTo(cfg: Config, late: Option<nat>, c: ControlsState, flash: Option<GateState>, at: nat, acts: seq<Action>, s: System) {
    RunsTo(cfg, c, flash, at, acts, s) && RunOnTime(cfg, Boot(cfg, c, flash, at), acts, late)
  }

  /** Reachable by a run none of whose segments is more than `late` late. */
  ghost predicate ReachableOnTime(cfg: Config, late: Option<nat>, s: System) {
    exists c, flash, at, acts :: RunsOnTimeTo(cfg, late, c, flash, at, acts, s)
  }

  lemma {:induction false} OnTimeIsReachable(cfg: Config, late: Option<nat>, s: System)
    requires ReachableOnTime(cfg, late, s)
    ensures Reachable(cfg, s)
  {
    var c, flash, at, acts :| RunsOnTimeTo(cfg, late, c, flash, at, acts, s);
    assert RunsTo(cfg, c, flash, at, acts, s);
  }

  lemma {:induction false} OnTimeBoot(cfg: Config, late: Option<nat>, c: ControlsState, flash: Option<GateState>, at: nat)
    requires FreshControls(c)
    ensures ReachableOnTime(cfg, late, Boot(cfg, c, flash, at))
  {
    assert RunsOnTimeTo(cfg, late, c, flash, at, [], Boot(cfg, c, flash, at));
  }

  lemma {:induction false} OnTimeAppend(cfg: Config, s: System, acts: seq<Action>, act: Action, late: Option<nat>)
    requires ValidRun(cfg, s, acts) && Enabled(cfg, After(cfg, s, acts), act) && ValidRun(cfg, s, acts + [act])
    requires RunOnTime(cfg, s, acts, late) && OnTime(After(cfg, s, acts), act, late)
    ensures RunOnTime(cfg, s, acts + [act], late)
    decreases |acts|
  {
    if acts == [] {
      assert acts + [act] == [act];
      assert [act][1..] == [];
    } else {
      assert (acts + [act])[1..] == acts[1..] + [act];
      OnTimeAppend(cfg, Step(cfg, s, acts[0]), acts[1..], act, late);
    }
  }

  lemma {:induction false} OnTimeStep(cfg: Config, late: Option<nat>, s: System, act: Action)
    requires ReachableOnTime(cfg, late, s) && Enabled(cfg, s, act) && OnTime(s, act, late)
    ensures ReachableOnTime(cfg, late, Step(cfg, s, act))
  {
    var c, flash, at, acts :| RunsOnTimeTo(cfg, late, c, flash, at, acts, s);
    RunAppend(cfg, Boot(cfg, c, flash, at), acts, act);
    OnTimeAppend(cfg, Boot(cfg, c, flash, at), acts, act, late);
    assert RunsOnTimeTo(cfg, late, c, flash, at, acts + [act], Step(cfg, s, act));
  }

  lemma {:induction false} OrderRun(cfg: Config, late: Option<nat>, s: System, acts: seq<Action>)
    requires SystemOk(cfg, s) && OrderOk(cfg, late, s.gate)
    requires ValidRun(cfg, s, acts) && RunOnTime(cfg, s, acts, late)
    ensures OrderOk(cfg, late, After(cfg, s, acts).gate)
    decreases |acts|
  {
    if acts != [] {
      OrderStep(cfg, late, s, acts[0]);
      StepOk(cfg, s, acts[0]);
      OrderRun(cfg, late, Step(cfg, s, acts[0]), acts[1..]);
    }
  }

  /** For every configuration: each protected order holds in every run, exactly where its lateness allows. */
  lemma {:induction false} OrderInTime(cfg: Config, late: Option<nat>, s: System)
    requires ReachableOnTime(cfg, late, s)
    ensures OrderOk(cfg, late, s.gate)
  {
    var c, flash, at, acts :| RunsOnTimeTo(cfg, late, c, flash, at, acts, s);
    BootOk(cfg, c, flash, at);
    OrderRun(cfg, late, Boot(cfg, c, flash, at), acts);
  }

  // ----- The installation's values -----

  const LEAF_A := LeafTiming(0, FromMillis(15000), FromMillis(3000), FromMillis(15000))
  const LEAF_B := LeafTiming(FromMillis(3000), FromMillis(15000), 0, FromMillis(15000))

  function Installed(skew: nat): Config {
    Config(LEAF_A, LEAF_B, FromMillis(1000), FromMillis(1000), FromMillis(500), skew)
  }

  /** Leaf A opens first and closes second, each with 2 s to spare; the overrun is sound below a second of skew. */
  lemma {:induction false} InstalledOrder(skew: nat)
    ensures skew <= FromMillis(999) ==> Sound(Installed(skew))
    ensures Margin(Installed(skew), LEAF_A, LEAF_B, Opening) == FromMillis(2000)
    ensures Margin(Installed(skew), LEAF_B, LEAF_A, Closing) == FromMillis(2000)
  {
  }

  /** The documented order: leaf A goes first when opening, leaf B when closing. */
  ghost predicate DocumentedOrder(g: GateView) {
    g.point.Driving? ==>
      if g.point.direction.Opening? then InOrder(0, 0, g.a, g.point.a, g.b, g.point.b)
      else InOrder(0, 0, g.b, g.point.b, g.a, g.point.a)
  }

  /** Less than 2 s of lateness keeps the installation's documented order, whatever the skew. */
  lemma {:induction false} PromptLeavesKeepOrder(skew: nat, late: nat, s: System)
    requires ReachableOnTime(Installed(skew), Some(late), s)
    requires skew == 0 || late < FromMillis(2000)
    ensures DocumentedOrder(s.gate)
  {
    OrderInTime(Installed(skew), Some(late), s);
    InstalledOrder(skew);
  }
}
