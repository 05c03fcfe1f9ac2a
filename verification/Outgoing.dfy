/** The bounded outgoing MQTT queue that drops its oldest message when full. */
module Outgoing {

  const OUTGOING_DEPTH: nat := 16

  /** Queueing a message: the oldest gives way if there is no room. */
  function Pushed<T>(queue: seq<T>, message: T): seq<T> {
    if |queue| < OUTGOING_DEPTH then queue + [message] else queue[1..] + [message]
  }

  class OutgoingQueue<T> {
    var queue: seq<T>

    ghost predicate Valid() reads this { |queue| <= OUTGOING_DEPTH }

    constructor ()
      ensures Valid() && queue == []
    {
      queue := [];
    }

    method TrySend(message: T) returns (ok: bool)
      requires Valid()
      modifies this
      ensures Valid() && ok == (|old(queue)| < OUTGOING_DEPTH)
      ensures queue == if ok then old(queue) + [message] else old(queue)
    {
      ok := |queue| < OUTGOING_DEPTH;
      if ok {
        queue := queue + [message];
      }
    }

    method TryReceive() returns (got: bool, message: seq<T>)
      requires Valid()
      modifies this
      ensures Valid() && got == (old(queue) != [])
      ensures got ==> message == old(queue)[..1] && queue == old(queue)[1..]
      ensures !got ==> message == [] && queue == []
    {
      got := queue != [];
      message := [];
      if got {
        message := queue[..1];
        queue := queue[1..];
      }
    }

    /** Never blocks: at most two rounds, and the newest message is always queued. */
    method Publish(message: T)
      requires Valid()
      modifies this
      ensures Valid() && queue == Pushed(old(queue), message)
    {
      var sent := false;
      while !sent
        invariant |queue| <= OUTGOING_DEPTH
        invariant sent ==> queue == Pushed(old(queue), message)
        invariant !sent ==>
          queue == old(queue) || (|old(queue)| == OUTGOING_DEPTH && queue == old(queue)[1..])
        decreases !sent, |queue|
      {
        sent := TrySend(message);
        if !sent {
          var _, _ := TryReceive();
        }
      }
    }

    /** On reconnect: whatever piled up is stale. */
    method Drain()
      requires Valid()
      modifies this
      ensures Valid() && queue == []
    {
      var got := true;
      while got
        invariant |queue| <= OUTGOING_DEPTH
        invariant !got ==> queue == []
        decreases got, |queue|
      {
        var received, _ := TryReceive();
        got := received;
      }
    }
  }

  // ----- Every interleaving of publishers, the sender and reconnects -----

  /** A message with its position in the order of publishing. */
  datatype Entry<T> = Entry(serial: nat, message: T)

  datatype Channel<T> = Channel(queue: seq<Entry<T>>, published: seq<T>, delivered: seq<Entry<T>>)

  datatype Event<T> = Publish(message: T) | Receive | Reconnect

  function EmptyChannel<T>(): Channel<T> { Channel([], [], []) }

  function Next<T>(c: Channel<T>, e: Event<T>): Channel<T> {
    match e
    case Publish(m) => c.(queue := Pushed(c.queue, Entry(|c.published|, m)), published := c.published + [m])
    case Receive =>
      if c.queue == [] then c
      else c.(queue := c.queue[1..], delivered := c.delivered + [c.queue[0]])
    case Reconnect => c.(queue := [])
  }

  function AfterAll<T>(c: Channel<T>, es: seq<Event<T>>): Channel<T>
    decreases |es|
  {
    if es == [] then c else AfterAll(Next(c, es[0]), es[1..])
  }

  /** The queue is a contiguous suffix of everything published; deliveries came in publish order, before it. */
  ghost predicate ChannelOk<T>(c: Channel<T>) {
    && |c.queue| <= OUTGOING_DEPTH && |c.queue| <= |c.published|
    && (forall i :: 0 <= i < |c.queue| ==>
          var serial := |c.published| - |c.queue| + i;
          c.queue[i] == Entry(serial, c.published[serial]))
    && (forall i :: 0 <= i < |c.delivered| ==>
          && c.delivered[i].serial < |c.published| - |c.queue|
          && c.delivered[i].message == c.published[c.delivered[i].serial])
    && (forall i, j :: 0 <= i < j < |c.delivered| ==> c.delivered[i].serial < c.delivered[j].serial)
  }

  lemma {:induction false} NextOk<T>(c: Channel<T>, e: Event<T>)
    requires ChannelOk(c)
    ensures ChannelOk(Next(c, e))
  {
    if e.Publish? {
      var c' := Next(c, e);
      forall i | 0 <= i < |c'.queue|
        ensures var serial := |c'.published| - |c'.queue| + i;
          c'.queue[i] == Entry(serial, c'.published[serial])
      {
        if i < |c'.queue| - 1 {
          assert c'.queue[i] == c.queue[if |c.queue| < OUTGOING_DEPTH then i else i + 1];
        }
      }
    }
  }

  lemma {:induction false} RunKeepsOrder<T>(c: Channel<T>, es: seq<Event<T>>)
    requires ChannelOk(c)
    ensures ChannelOk(AfterAll(c, es))
    decreases |es|
  {
    if es != [] {
      NextOk(c, es[0]);
      RunKeepsOrder(Next(c, es[0]), es[1..]);
    }
  }

  /** From start-up, under every interleaving. */
  lemma {:induction false} QueueIsSuffix<T>(es: seq<Event<T>>)
    ensures ChannelOk(AfterAll(EmptyChannel<T>(), es)) && |AfterAll(EmptyChannel<T>(), es).queue| <= 16
  {
    RunKeepsOrder(EmptyChannel<T>(), es);
  }

  /** Still queued, or already delivered. */
  ghost predicate NotLost<T>(c: Channel<T>, serial: nat) {
    || |c.published| - |c.queue| <= serial < |c.published|
    || (exists i :: 0 <= i < |c.delivered| && c.delivered[i].serial == serial)
  }

  /** A publish drops at most the oldest queued message, and only when 16 newer ones follow it. */
  lemma {:induction false} NextLosesOldest<T>(c: Channel<T>, e: Event<T>, serial: nat)
    requires ChannelOk(c) && NotLost(c, serial) && !e.Reconnect?
    requires |Next(c, e).published| <= serial + OUTGOING_DEPTH
    ensures NotLost(Next(c, e), serial)
  {
    var c' := Next(c, e);
    if exists i :: 0 <= i < |c.delivered| && c.delivered[i].serial == serial {
      var i :| 0 <= i < |c.delivered| && c.delivered[i].serial == serial;
      assert c'.delivered[i].serial == serial;
    } else if e.Receive? && c.queue != [] && c.queue[0].serial == serial {
      assert c'.delivered[|c.delivered|].serial == serial;
    }
  }

  /** The messages that `es` publishes, in order. */
  function Publications<T>(es: seq<Event<T>>): seq<T> {
    if es == [] then []
    else (if es[0].Publish? then [es[0].message] else []) + Publications(es[1..])
  }

  lemma {:induction false} PublishesExactly<T>(c: Channel<T>, es: seq<Event<T>>)
    ensures AfterAll(c, es).published == c.published + Publications(es)
    decreases |es|
  {
    if es != [] {
      PublishesExactly(Next(c, es[0]), es[1..]);
    }
  }

  /**
   * Without a reconnect, a message survives until it is delivered as long as
   * fewer than 16 newer messages are published.
   */
  lemma {:induction false} NewestSixteenSurvive<T>(c: Channel<T>, es: seq<Event<T>>, serial: nat)
    requires ChannelOk(c) && NotLost(c, serial)
    requires Reconnect !in es
    requires |c.published| + |Publications(es)| <= serial + OUTGOING_DEPTH
    ensures NotLost(AfterAll(c, es), serial)
    decreases |es|
  {
    if es != [] {
      NextLosesOldest(c, es[0], serial);
      NextOk(c, es[0]);
      NewestSixteenSurvive(Next(c, es[0]), es[1..], serial);
    }
  }

  /** The message with this serial is queued or delivered, payload and all. */
  ghost predicate Kept<T>(c: Channel<T>, serial: nat, message: T) {
    Entry(serial, message) in c.queue || Entry(serial, message) in c.delivered
  }

  lemma {:induction false} NotLostIsKept<T>(c: Channel<T>, serial: nat)
    requires ChannelOk(c) && NotLost(c, serial)
    ensures serial < |c.published| && Kept(c, serial, c.published[serial])
  {
    if |c.published| - |c.queue| <= serial {
      assert c.queue[serial - (|c.published| - |c.queue|)] == Entry(serial, c.published[serial]);
    } else {
      var i :| 0 <= i < |c.delivered| && c.delivered[i].serial == serial;
      assert c.delivered[i] == Entry(serial, c.published[serial]);
    }
  }

  lemma {:induction false} PublishedNotLost<T>(c: Channel<T>, es: seq<Event<T>>, k: nat)
    requires ChannelOk(c) && Reconnect !in es
    requires k < |Publications(es)| <= k + OUTGOING_DEPTH
    ensures NotLost(AfterAll(c, es), |c.published| + k)
    decreases |es|
  {
    var c', rest := Next(c, es[0]), es[1..];
    NextOk(c, es[0]);
    if es[0].Publish? && k == 0 {
      NewestSixteenSurvive(c', rest, |c.published|);
    } else {
      PublishedNotLost(c', rest, if es[0].Publish? then k - 1 else k);
    }
  }

  /**
   * In every interleaving with the sender, of whatever is published after a
   * reconnect the newest 16 messages are all kept: none is dropped before delivery.
   */
  lemma {:induction false} SinceReconnectKept<T>(c: Channel<T>, es: seq<Event<T>>, k: nat)
    requires ChannelOk(c) && Reconnect !in es
    requires k < |Publications(es)| <= k + OUTGOING_DEPTH
    ensures Kept(AfterAll(c, es), |c.published| + k, Publications(es)[k])
  {
    PublishedNotLost(c, es, k);
    RunKeepsOrder(c, es);
    NotLostIsKept(AfterAll(c, es), |c.published| + k);
    PublishesExactly(c, es);
  }

  /** The messages `ms` published one after another. */
  function PublishAll<T>(ms: seq<T>): seq<Event<T>> {
    seq(|ms|, i requires 0 <= i < |ms| => Publish(ms[i]))
  }

  lemma {:induction false} BatchPublications<T>(ms: seq<T>, later: seq<Event<T>>)
    ensures Publications(PublishAll(ms) + later) == ms + Publications(later)
    decreases |ms|
  {
    var es := PublishAll(ms) + later;
    if ms == [] {
      assert es == later;
    } else {
      assert es[0] == Publish(ms[0]) && es[1..] == PublishAll(ms[1..]) + later;
      BatchPublications(ms[1..], later);
    }
  }

  /**
   * Any batch that fits, whatever was queued before: with no more later publishes
   * than there is room for beside it, each of its messages is kept.
   */
  lemma {:induction false} BatchSurvives<T>(c: Channel<T>, ms: seq<T>, later: seq<Event<T>>, i: nat)
    requires ChannelOk(c) && Reconnect !in later && i < |ms|
    requires |ms| + |Publications(later)| <= OUTGOING_DEPTH
    ensures Kept(AfterAll(c, PublishAll(ms) + later), |c.published| + i, ms[i])
  {
    BatchPublications(ms, later);
    SinceReconnectKept(c, PublishAll(ms) + later, i);
  }

  /**
   * The full republish after a reconnect (5 discovery configs and 3 state
   * messages), followed by up to 8 further publishes: every one of its messages
   * is delivered or still queued.
   */
  lemma {:induction false} RepublishSurvives<T>(c: Channel<T>, configs: seq<T>, states: seq<T>, later: seq<Event<T>>, i: nat)
    requires ChannelOk(c) && |configs| == 5 && |states| == 3 && i < 8
    requires Reconnect !in later && |Publications(later)| <= 8
    ensures Kept(AfterAll(Next(c, Reconnect), PublishAll(configs + states) + later),
                 |c.published| + i, (configs + states)[i])
  {
    NextOk(c, Reconnect);
    BatchSurvives(Next(c, Reconnect), configs + states, later, i);
  }
}
