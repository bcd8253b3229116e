/** Whole runs of the runner and the subscriber, put together from their contracts alone. */
module Scenarios {
  import opened Go
  import opened Sarama
  import opened Kafka
  import opened PubSub

  /** A record on partition 0 with no key, no value and no timestamp. */
  function Record(topic: string, offset: int): ConsumerMessage {
    ConsumerMessage(topic, 0, offset, [], [], ZeroTime)
  }

  const SyncA: Handler := Handler(1, true)
  const AsyncB: Handler := Handler(2, false)

  /** The delivered records of a script with one joined generation, then cancellation. */
  lemma OneGenerationThenCancel(records: seq<ConsumerMessage>)
    ensures var script := [Consumed(Joined([Claim(0, records)]), None, false), CancelledBeforeConsume];
      FirstJoins(script) && Exits(script) &&
      Delivered(Taken(script)) == records && ConsumeCount(Taken(script)) == 1
  {
    var script := [Consumed(Joined([Claim(0, records)]), None, false), CancelledBeforeConsume];
    assert script[..0] == [];
    TakeTurn(script, 0, []);
    TakeTurn(script, 1, [script[0]]);
    LeaveLoop(script, 2, true, [script[0], script[1]]);
    DeliveredSnoc([], script[0]);
    DeliveredSnoc([script[0]], script[1]);
    assert [] + [script[0]] == [script[0]];
    assert [script[0]] + [script[1]] == [script[0], script[1]];
    assert [Claim(0, records)][..0] == [];
    assert ClaimRecords([Claim(0, records)]) == records;
    assert Delivered([script[0]]) == records;
  }

  /** Topic "a" has a synchronous handler, "b" an asynchronous one and "c" none; records
      a, b, a, c arrive in one generation before cancellation. The runner returns nil, calls
      the handler of "a" inline for both of its records in order, spawns the handler of "b",
      and drops the record of "c". */
  method EndToEnd() returns (outcome: RunOutcome, events: seq<Event>)
    ensures outcome == Returned(None)
    ensures |events| == 4
    ensures events[0] == SyncConsume(SyncA, events[0].msg) && events[0].msg.record == Record("a", 0)
    ensures events[1] == AsyncSpawn(AsyncB, events[1].msg) && events[1].msg.record == Record("b", 1)
    ensures events[2] == SyncConsume(SyncA, events[2].msg) && events[2].msg.record == Record("a", 2)
    ensures events[3] == Drop(events[3].msg) && events[3].msg.record == Record("c", 3)
  {
    var runner := RunnerAB();
    var records := [Record("a", 0), Record("b", 1), Record("a", 2), Record("c", 3)];
    var script := [Consumed(Joined([Claim(0, records)]), None, false), CancelledBeforeConsume];
    OneGenerationThenCancel(records);
    ghost var sessions;
    outcome, sessions := runner.Run(None, script);
    events := runner.trace;
    RoutesOfABAC(runner.mapTopicHandler, Sent(Taken(script), sessions));
  }

  /** A new runner with `SyncA` registered for "a" and `AsyncB` for "b". */
  method RunnerAB() returns (runner: KafkaHandler)
    ensures fresh(runner) && fresh(runner.sub)
    ensures runner.ctx == Background && runner.trace == []
    ensures runner.mapTopicHandler == map["a" := SyncA, "b" := AsyncB]
    ensures runner.sub.topics == ["a", "b"]
  {
    var sub := SrmSubscriber.NewSrmSubscriber([DefaultBroker], "group");
    runner := new KafkaHandler.NewKafkaConsumeRunner(Background, sub);
    runner.Register("a", SyncA);
    runner.Register("b", AsyncB);
    assert runner.mapTopicHandler == map["a" := SyncA, "b" := AsyncB];
  }

  /** How the table of `EndToEnd` routes messages on "a", "b", "a", "c". */
  lemma RoutesOfABAC(table: map<string, Handler>, msgs: seq<SubscriberMessage>)
    requires table == map["a" := SyncA, "b" := AsyncB]
    requires Records(msgs) == [Record("a", 0), Record("b", 1), Record("a", 2), Record("c", 3)]
    ensures var t := DispatchTrace(table, msgs);
      |t| == 4 &&
      t[0] == SyncConsume(SyncA, t[0].msg) && t[0].msg.record == Record("a", 0) &&
      t[1] == AsyncSpawn(AsyncB, t[1].msg) && t[1].msg.record == Record("b", 1) &&
      t[2] == SyncConsume(SyncA, t[2].msg) && t[2].msg.record == Record("a", 2) &&
      t[3] == Drop(t[3].msg) && t[3].msg.record == Record("c", 3)
  {
    DispatchOnePerMessage(table, msgs);
    assert forall i :: 0 <= i < 4 ==> msgs[i].record == Records(msgs)[i];
  }

  /** A topic registered after `Run` is listed by the subscriber but not seen by the running
      group: the group keeps the topic list it was given when `Run` was called, and consumed
      that list only. */
  method LateRegistrationNotSeen() returns (snapshot: seq<string>, consumed: seq<seq<string>>, registered: seq<string>)
    ensures snapshot == ["orders"]
    ensures consumed == [["orders"]]
    ensures registered == ["orders", "payments"]
  {
    var sub := SrmSubscriber.NewSrmSubscriber([DefaultBroker], "group");
    sub.RegisterTopic("orders");
    var script := [Consumed(Joined([Claim(0, [])]), None, false), CancelledBeforeConsume];
    OneGenerationThenCancel([]);
    assert sub.topics == ["orders"];
    var r;
    ghost var sessions;
    r, sessions := sub.Run(Background, None, script);
    assert ConsumeCount(Taken(script)) == 1;
    assert sub.ssg.group.calls == Repeat(["orders"], 1);
    assert sub.ssg.group.calls == [["orders"]];
    sub.RegisterTopic("payments");
    snapshot := sub.ssg.topics;
    consumed := sub.ssg.group.calls;
    registered := sub.topics;
  }
}
