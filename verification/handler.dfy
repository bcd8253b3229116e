/** The topic dispatcher (KafkaHandler): a table from topic to handler, registration that goes
    through to the subscriber, and the loop that routes each message of the subscriber's stream. */
module PubSub {
  import opened Go
  import opened Sarama
  import opened Kafka

  /** An application handler: an opaque identity and whether `Consume` must block the loop. */
  datatype Handler = Handler(id: nat, sync: bool) {
    predicate IsSync() {
      sync
    }
  }

  /** What the dispatch loop does with one message: nothing (no handler for its topic), call
      the handler's `Consume` inline, or start `Consume` as a task of its own. */
  datatype Event =
    | Drop(msg: SubscriberMessage)
    | SyncConsume(handler: Handler, msg: SubscriberMessage)
    | AsyncSpawn(handler: Handler, msg: SubscriberMessage)

  /** The routing rule for one message. */
  function Route(table: map<string, Handler>, m: SubscriberMessage): (e: Event)
    ensures e.msg == m
    ensures e.Drop? <==> m.Topic() !in table
    ensures !e.Drop? ==> e.handler == table[m.Topic()] && (e.SyncConsume? <==> e.handler.IsSync())
  {
    if m.Topic() !in table then Drop(m)
    else if table[m.Topic()].IsSync() then SyncConsume(table[m.Topic()], m)
    else AsyncSpawn(table[m.Topic()], m)
  }

  /** What the dispatch loop does with a stream of messages, message after message. */
  function DispatchTrace(table: map<string, Handler>, msgs: seq<SubscriberMessage>): seq<Event>
    decreases |msgs|
  {
    if msgs == [] then []
    else DispatchTrace(table, msgs[..|msgs| - 1]) + [Route(table, msgs[|msgs| - 1])]
  }

  /** The messages on topic `t` that `trace` hands to handler `h` (inline or spawned), in order.
      One handler may serve several topics. */
  function Invoked(trace: seq<Event>, t: string, h: Handler): seq<SubscriberMessage>
    decreases |trace|
  {
    if trace == [] then []
    else
      var e := trace[|trace| - 1];
      Invoked(trace[..|trace| - 1], t, h) +
        (if !e.Drop? && e.handler == h && e.msg.Topic() == t then [e.msg] else [])
  }

  /** The messages of `msgs` on topic `t`, in order. */
  function OnTopic(msgs: seq<SubscriberMessage>, t: string): seq<SubscriberMessage>
    decreases |msgs|
  {
    if msgs == [] then []
    else
      var m := msgs[|msgs| - 1];
      OnTopic(msgs[..|msgs| - 1], t) + (if m.Topic() == t then [m] else [])
  }

  /** The messages `trace` drops, in order. */
  function Dropped(trace: seq<Event>): seq<SubscriberMessage>
    decreases |trace|
  {
    if trace == [] then []
    else
      var e := trace[|trace| - 1];
      Dropped(trace[..|trace| - 1]) + (if e.Drop? then [e.msg] else [])
  }

  /** The messages of `msgs` whose topic has no handler, in order. */
  function Unrouted(table: map<string, Handler>, msgs: seq<SubscriberMessage>): seq<SubscriberMessage>
    decreases |msgs|
  {
    if msgs == [] then []
    else
      var m := msgs[|msgs| - 1];
      Unrouted(table, msgs[..|msgs| - 1]) + (if m.Topic() !in table then [m] else [])
  }

  /** The loop handles every message exactly once, in stream order, by the routing rule. */
  lemma {:induction false} DispatchOnePerMessage(table: map<string, Handler>, msgs: seq<SubscriberMessage>)
    ensures |DispatchTrace(table, msgs)| == |msgs|
    ensures forall i :: 0 <= i < |msgs| ==> DispatchTrace(table, msgs)[i] == Route(table, msgs[i])
    decreases |msgs|
  {
    if msgs != [] {
      var init := msgs[..|msgs| - 1];
      DispatchOnePerMessage(table, init);
      forall i | 0 <= i < |init|
        ensures DispatchTrace(table, msgs)[i] == Route(table, msgs[i])
      {
        assert msgs[i] == init[i];
      }
    }
  }

  /** For a topic with a handler, that handler receives exactly the messages on that topic, each
      once and in stream order. */
  lemma {:induction false} RegisteredTopicInOrder(table: map<string, Handler>, msgs: seq<SubscriberMessage>, t: string)
    requires t in table
    ensures Invoked(DispatchTrace(table, msgs), t, table[t]) == OnTopic(msgs, t)
    decreases |msgs|
  {
    if msgs != [] {
      var init := msgs[..|msgs| - 1];
      RegisteredTopicInOrder(table, init, t);
      var trace := DispatchTrace(table, msgs);
      assert trace[..|trace| - 1] == DispatchTrace(table, init);
    }
  }

  /** A topic without a handler never reaches any handler. */
  lemma {:induction false} UnregisteredTopicNeverInvoked(table: map<string, Handler>, msgs: seq<SubscriberMessage>, t: string, h: Handler)
    requires t !in table
    ensures Invoked(DispatchTrace(table, msgs), t, h) == []
    decreases |msgs|
  {
    if msgs != [] {
      var init := msgs[..|msgs| - 1];
      UnregisteredTopicNeverInvoked(table, init, t, h);
      var trace := DispatchTrace(table, msgs);
      assert trace[..|trace| - 1] == DispatchTrace(table, init);
    }
  }

  /** The loop drops exactly the messages whose topic has no handler, and nothing else. */
  lemma {:induction false} UnknownTopicsDropped(table: map<string, Handler>, msgs: seq<SubscriberMessage>)
    ensures Dropped(DispatchTrace(table, msgs)) == Unrouted(table, msgs)
    decreases |msgs|
  {
    if msgs != [] {
      var init := msgs[..|msgs| - 1];
      UnknownTopicsDropped(table, init);
      var trace := DispatchTrace(table, msgs);
      assert trace[..|trace| - 1] == DispatchTrace(table, init);
    }
  }

  /** What the runner's `Run` comes to: it never returns, or it returns an error or nil. */
  datatype RunOutcome = Hangs | Returned(err: Option<Error>)

  /** The runner. `trace` is what its dispatch loop has done so far. */
  class KafkaHandler {
    const ctx: Context
    const sub: SrmSubscriber
    var mapTopicHandler: map<string, Handler>
    var trace: seq<Event>

    constructor NewKafkaConsumeRunner(ctx: Context, sub: SrmSubscriber)
      ensures this.ctx == ctx && this.sub == sub
      ensures mapTopicHandler == map[] && trace == []
    {
      this.ctx := ctx;
      this.sub := sub;
      mapTopicHandler := map[];
      trace := [];
    }

    /** Forwards `topic` to the subscriber, once, then makes `handler` the topic's handler,
        replacing any earlier one and leaving the other topics alone. */
    method Register(topic: string, handler: Handler)
      modifies this`mapTopicHandler, sub`topics
      ensures sub.topics == old(sub.topics) + [topic]
      ensures topic in mapTopicHandler && mapTopicHandler[topic] == handler
      ensures mapTopicHandler.Keys == old(mapTopicHandler).Keys + {topic}
      ensures forall t :: t in old(mapTopicHandler) && t != topic ==> mapTopicHandler[t] == old(mapTopicHandler)[t]
    {
      sub.RegisterTopic(topic);
      mapTopicHandler := mapTopicHandler[topic := handler];
    }

    /** The dispatch loop over the messages of the channel, in order. */
    method Dispatch(msgs: seq<SubscriberMessage>)
      modifies this`trace
      ensures trace == old(trace) + DispatchTrace(mapTopicHandler, msgs)
    {
      for i := 0 to |msgs|
        invariant trace == old(trace) + DispatchTrace(mapTopicHandler, msgs[..i])
      {
        assert msgs[..i + 1][..i] == msgs[..i];
        var msg := msgs[i];
        if msg.Topic() !in mapTopicHandler {
          trace := trace + [Drop(msg)];
          continue;
        }
        var handler := mapTopicHandler[msg.Topic()];
        if handler.IsSync() {
          trace := trace + [SyncConsume(handler, msg)];
        } else {
          trace := trace + [AsyncSpawn(handler, msg)];
        }
      }
      assert msgs[..|msgs|] == msgs;
    }

    /** Runs the subscriber on the runner's context (its group creation fails with `creationErr`
        when that is given; `script` drives its loop). On failure returns that error and
        dispatches nothing; otherwise returns nil and dispatches the messages of the generations
        the loop ran, each wrapped with its generation's session (one of `sessions`). */
    method Run(creationErr: Option<Error>, script: seq<Turn>)
      returns (outcome: RunOutcome, ghost sessions: seq<ConsumerGroupSession?>)
      modifies this`trace, sub`ctx, sub`ssg
      ensures sub.ctx == Some(WithCancel(ctx))
      ensures creationErr.Some? ==> outcome == Returned(creationErr) && trace == old(trace)
      ensures creationErr.None? && !FirstJoins(script) ==> outcome == Hangs && trace == old(trace)
      ensures creationErr.Some? ==> sub.ssg == old(sub.ssg)
      ensures creationErr.None? ==>
        sub.ssg != null && fresh(sub.ssg) && sub.ssg.topics == sub.topics &&
        SessionsFor(Taken(script), sessions) &&
        AllNew(sessions) && Distinct(sessions)
      ensures creationErr.None? && FirstJoins(script) ==>
        outcome == Returned(None) &&
        Records(Sent(Taken(script), sessions)) == Delivered(Taken(script)) &&
        trace == old(trace) + DispatchTrace(mapTopicHandler, Sent(Taken(script), sessions))
    {
      var s;
      s, sessions := sub.Run(ctx, creationErr, script);
      match s {
        case Failed(err) =>
          outcome := Returned(Some(err));
        case Blocked =>
          outcome := Hangs;
        case Started(ch) =>
          // in the source the loop runs on a goroutine of its own and Run returns at once
          Dispatch(ch.sent);
          outcome := Returned(None);
      }
    }
  }
}
