/**
 * From the gate's announcements to the broker: the controller and the outgoing
 * queue stepping together, with every state message published as it is announced.
 */
module Announcing {
  import opened Base
  import opened M = MotorModel
  import opened C = ControlsModel
  import opened G = GateModel
  import opened S = SystemModel
  import Q = Outgoing

  // ----- Announcements come in triples -----

  /** Nothing was announced between `o` and `o'`, or at least one whole state. */
  ghost predicate Announces(o: seq<Message>, o': seq<Message>) {
    o <= o' && (|o'| == |o| || |o| + 3 <= |o'|)
  }

  lemma {:induction false} DriveEndedAnnounces(g: GateView, moved: bool, result: Option<GateCommand>, r: Reads)
    ensures Announces(g.outbox, DriveEnded(g, moved, result, r).gate.outbox)
  {
  }

  lemma {:induction false} DriveRoundAnnounces(g: GateView, d: Direction, a: Phase, b: Phase, moved: bool, r: Reads)
    ensures Announces(g.outbox, DriveRound(g, d, a, b, moved, r).gate.outbox)
  {
    var x, y := PollLeaf(g.a, a, d, r.now, r.a), PollLeaf(g.b, b, d, r.now, r.b);
    if Blocked(g.controls, d).Some? {
      DriveEndedAnnounces(g, moved, None, r);
    } else if Earliest(Deadline(x.phase), Deadline(y.phase)).None? {
      DriveEndedAnnounces(g.(a := x.motor, b := y.motor), moved || x.moved || y.moved, None, r);
    }
  }

  lemma {:induction false} DriveStartedAnnounces(g: GateView, d: Direction, r: Reads)
    ensures Announces(g.outbox, DriveStarted(g, d, r).gate.outbox)
  {
    DriveRoundAnnounces(Notified(g.(controls := DirectionSet(g.controls, d))), d,
                        Plan(g.a, d, r.plan), Plan(g.b, d, r.plan), false, r);
  }

  lemma {:induction false} ExecutedAnnounces(g: GateView, command: GateCommand, r: Reads)
    ensures Announces(g.outbox, Executed(g, command, r).gate.outbox)
  {
    DriveStartedAnnounces(g, Opening, r);
    DriveStartedAnnounces(g, Closing, r);
  }

  lemma {:induction false} DrivePolledAnnounces(g: GateView, r: Reads)
    requires g.point.Driving?
    ensures Announces(g.outbox, DrivePolled(g, r).gate.outbox)
  {
    var Driving(d, a, b, moved, deadline) := g.point;
    var w := DriveWinner(g.controls, deadline, r.wake);
    if Interrupts(w, d) {
      DriveEndedAnnounces(Woken(g, w), moved, HandedBack(w.command), r);
    } else if !w.Nothing? {
      DriveRoundAnnounces(Woken(g, w), d, a, b, moved, r);
    }
  }

  lemma {:induction false} PolledAnnounces(g: GateView, r: Reads)
    ensures Announces(g.outbox, Polled(g, r).gate.outbox)
  {
    if g.point.Driving? {
      DrivePolledAnnounces(g, r);
    } else if g.pending.Some? {
      ExecutedAnnounces(g.(pending := None), g.pending.value, r);
    } else if g.controls.command.Some? {
      ExecutedAnnounces(g.(controls := g.controls.(command := None)), g.controls.command.value, r);
    }
  }

  lemma {:induction false} StepAnnounces(cfg: Config, s: System, act: Action)
    requires Enabled(cfg, s, act)
    ensures Announces(s.gate.outbox, Step(cfg, s, act).gate.outbox)
  {
    match act {
      case PollGate(r) => PolledAnnounces(s.gate, r);
      case _ =>
    }
  }

  // ----- Controller and queue together -----

  /** `newer` messages were published after the controller's last announcement; `drained` if the queue was since. */
  datatype Link = Link(system: System, channel: Q.Channel<Message>, newer: nat, drained: bool)

  /** A step of the controller, or another publisher, the sender or a reconnect acting on the queue. */
  datatype LinkStep = Controller(act: Action) | Queue(event: Q.Event<Message>)

  function Added(o: seq<Message>, o': seq<Message>): seq<Message> {
    if |o| <= |o'| then o'[|o|..] else []
  }

  /** What the controller announced is published, message by message. */
  ghost function Announced(l: Link, s': System): Link {
    var news := Added(l.system.gate.outbox, s'.gate.outbox);
    if news == [] then l.(system := s')
    else Link(s', Q.AfterAll(l.channel, Q.PublishAll(news)), 0, false)
  }

  ghost function Queued(l: Link, event: Q.Event<Message>): Link {
    Link(l.system, Q.Next(l.channel, event),
         if event.Publish? then l.newer + 1 else l.newer, l.drained || event.Reconnect?)
  }

  ghost predicate CanStep(cfg: Config, l: Link, e: LinkStep) {
    e.Controller? ==> Enabled(cfg, l.system, e.act)
  }

  ghost function LinkNext(cfg: Config, l: Link, e: LinkStep): Link
    requires CanStep(cfg, l, e)
  {
    match e
    case Controller(act) => Announced(l, Step(cfg, l.system, act))
    case Queue(event) => Queued(l, event)
  }

  ghost predicate ValidLinkRun(cfg: Config, l: Link, es: seq<LinkStep>)
    decreases |es|
  {
    es == [] || (CanStep(cfg, l, es[0]) && ValidLinkRun(cfg, LinkNext(cfg, l, es[0]), es[1..]))
  }

  ghost function LinkAfter(cfg: Config, l: Link, es: seq<LinkStep>): Link
    requires ValidLinkRun(cfg, l, es)
    decreases |es|
  {
    if es == [] then l else LinkAfter(cfg, LinkNext(cfg, l, es[0]), es[1..])
  }

  /** Start-up: the gate's constructor announces its state behind whatever is in the channel already. */
  ghost function LinkBoot(cfg: Config, c: ControlsState, flash: Option<GateState>, at: nat, before: Q.Channel<Message>): Link {
    LinkStart(Boot(cfg, c, flash, at), before)
  }

  ghost function LinkStart(s: System, before: Q.Channel<Message>): Link {
    Link(s, Q.AfterAll(before, Q.PublishAll(s.gate.outbox)), 0, false)
  }

  // ----- The last announcement is in the channel -----

  /** The three messages of the last announcement stand where `newer` says, and none of them is lost while few are newer. */
  ghost predicate LinkOk(l: Link) {
    var o, p := l.system.gate.outbox, l.channel.published;
    && Q.ChannelOk(l.channel) && 3 <= |o| && l.newer + 3 <= |p|
    && p[|p| - l.newer - 3..|p| - l.newer] == o[|o| - 3..]
    && (!l.drained && l.newer + 3 <= Q.OUTGOING_DEPTH ==>
          forall k :: |p| - l.newer - 3 <= k < |p| - l.newer ==> Q.NotLost(l.channel, k))
  }

  /** Whatever was queued before, the last three of a batch are not lost when it has been published. */
  lemma {:induction false} BatchEndsNotLost(c: Q.Channel<Message>, news: seq<Message>)
    requires Q.ChannelOk(c) && 3 <= |news|
    ensures var c' := Q.AfterAll(c, Q.PublishAll(news)); var n := |c'.published|;
      && Q.ChannelOk(c') && c'.published == c.published + news
      && forall k :: n - 3 <= k < n ==> Q.NotLost(c', k)
  {
    var es := Q.PublishAll(news);
    Q.RunKeepsOrder(c, es);
    Q.PublishesExactly(c, es);
    Q.BatchPublications(news, []);
    assert es + [] == es && Q.Publications<Message>([]) == [];
    var n := |c.published| + |news|;
    forall k | n - 3 <= k < n
      ensures Q.NotLost(Q.AfterAll(c, es), k)
    {
      Q.PublishedNotLost(c, es, k - |c.published|);
    }
  }

  lemma {:induction false} AnnouncedOk(l: Link, s': System)
    requires LinkOk(l) && Announces(l.system.gate.outbox, s'.gate.outbox)
    ensures LinkOk(Announced(l, s'))
  {
    var o, o' := l.system.gate.outbox, s'.gate.outbox;
    var news := Added(o, o');
    if news == [] {
      assert o' == o;
    } else {
      BatchEndsNotLost(l.channel, news);
      var p' := Q.AfterAll(l.channel, Q.PublishAll(news)).published;
      assert o' == o + news;
      assert p'[|p'| - 3..] == news[|news| - 3..] == o'[|o'| - 3..];
    }
  }

  lemma {:induction false} QueuedOk(l: Link, event: Q.Event<Message>)
    requires LinkOk(l)
    ensures LinkOk(Queued(l, event))
  {
    var l', n := Queued(l, event), |l.channel.published|;
    Q.NextOk(l.channel, event);
    if !l'.drained && l'.newer + 3 <= Q.OUTGOING_DEPTH {
      forall k | n - l.newer - 3 <= k < n - l.newer
        ensures Q.NotLost(l'.channel, k)
      {
        Q.NextLosesOldest(l.channel, event, k);
      }
    }
  }

  lemma {:induction false} LinkStartOk(s: System, before: Q.Channel<Message>)
    requires Q.ChannelOk(before) && 3 <= |s.gate.outbox|
    ensures LinkOk(LinkStart(s, before)) && LinkStart(s, before).system == s
  {
    var o, p := s.gate.outbox, LinkStart(s, before).channel.published;
    BatchEndsNotLost(before, o);
    assert p[|p| - 3..] == o[|o| - 3..];
  }

  /** In every interleaving the last announcement is in its place, and the controller's state is one it could reach alone. */
  lemma {:induction false} LinkRunOk(cfg: Config, l: Link, es: seq<LinkStep>)
    requires Reachable(cfg, l.system) && LinkOk(l) && ValidLinkRun(cfg, l, es)
    ensures Reachable(cfg, LinkAfter(cfg, l, es).system) && LinkOk(LinkAfter(cfg, l, es))
    decreases |es|
  {
    if es != [] {
      match es[0] {
        case Controller(act) =>
          StepAnnounces(cfg, l.system, act);
          AnnouncedOk(l, Step(cfg, l.system, act));
          ReachableStep(cfg, l.system, act);
        case Queue(event) => QueuedOk(l, event);
      }
      LinkRunOk(cfg, LinkNext(cfg, l, es[0]), es[1..]);
    }
  }

  lemma {:induction false} StartedRunOk(cfg: Config, s: System, before: Q.Channel<Message>, es: seq<LinkStep>)
    requires Reachable(cfg, s) && 3 <= |s.gate.outbox| && Q.ChannelOk(before)
    requires ValidLinkRun(cfg, LinkStart(s, before), es)
    ensures var l := LinkAfter(cfg, LinkStart(s, before), es); Reachable(cfg, l.system) && LinkOk(l)
  {
    LinkStartOk(s, before);
    LinkRunOk(cfg, LinkStart(s, before), es);
  }

  /** Not drained, and with at most 13 newer messages, the last announcement is delivered or queued, payloads and all. */
  lemma {:induction false} LastAnnouncementKept(l: Link, triple: seq<Message>, i: nat)
    requires LinkOk(l) && !l.drained && l.newer + 3 <= Q.OUTGOING_DEPTH && i < 3
    requires l.system.gate.outbox[|l.system.gate.outbox| - 3..] == triple
    ensures |triple| == 3 && l.newer + 3 <= |l.channel.published|
    ensures Q.Kept(l.channel, |l.channel.published| - l.newer - 3 + i, triple[i])
  {
    var o, p := l.system.gate.outbox, l.channel.published;
    var first := |p| - l.newer - 3;
    assert p[first..first + 3][i] == o[|o| - 3..][i];
    Q.NotLostIsKept(l.channel, first + i);
  }
}
