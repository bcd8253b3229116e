/** The sarama-backed subscriber: topic registration, the rebalance retry loop,
    the group handler that forwards claims, and the message wrapper. */
module Kafka {
  import opened Go
  import opened Sarama

  // ---------------------------------------------------------------------------
  // The message wrapper (srmSubscriberMessage)
  // ---------------------------------------------------------------------------

  /** A record together with the session it was read in. */
  datatype SubscriberMessage = SubscriberMessage(record: ConsumerMessage, session: ConsumerGroupSession) {

    function Topic(): string {
      record.topic
    }

    function Key(): seq<byte> {
      record.key
    }

    function Value(): seq<byte> {
      record.value
    }

    /** The record's timestamp, absent exactly when it is the zero instant. */
    function Timestamp(): (t: Option<Time>)
      ensures t.None? <==> record.timestamp.IsZero()
      ensures t.Some? ==> t.value == record.timestamp
    {
      if record.timestamp.IsZero() then None else Some(record.timestamp)
    }

    /** Marks this record, with `metadata`, in the session it came from. */
    method Done(metadata: string)
      modifies session
      ensures session.marks == old(session.marks) + [Mark(record, metadata)]
    {
      session.MarkMessage(record, metadata);
    }
  }

  /** Reads an optional timestamp back as an instant, absence as the zero instant. */
  function TimestampOrZero(t: Option<Time>): Time {
    if t.None? then ZeroTime else t.value
  }

  /** Dropping the zero timestamp loses nothing: the record's instant can be read back. */
  lemma TimestampLosesNothing(m: SubscriberMessage)
    ensures TimestampOrZero(m.Timestamp()) == m.record.timestamp
  {
  }

  /** The messages a session hands out for `records`, one per record and in the same order. */
  function Wrap(records: seq<ConsumerMessage>, session: ConsumerGroupSession): (msgs: seq<SubscriberMessage>)
    ensures |msgs| == |records|
    ensures forall i :: 0 <= i < |records| ==> msgs[i].record == records[i] && msgs[i].session == session
  {
    seq(|records|, i requires 0 <= i < |records| => SubscriberMessage(records[i], session))
  }

  /** The records underneath a stream of messages. */
  function Records(msgs: seq<SubscriberMessage>): (records: seq<ConsumerMessage>)
    ensures |records| == |msgs|
    ensures forall i :: 0 <= i < |msgs| ==> records[i] == msgs[i].record
  {
    seq(|msgs|, i requires 0 <= i < |msgs| => msgs[i].record)
  }

  /** Each wrapped message shows its record's topic, key, value and timestamp unchanged,
      and the records can be read back from the wrapped stream. */
  lemma WrapForwardsFields(records: seq<ConsumerMessage>, session: ConsumerGroupSession)
    ensures Records(Wrap(records, session)) == records
    ensures forall i :: 0 <= i < |records| ==>
      var m := Wrap(records, session)[i];
      m.Topic() == records[i].topic && m.Key() == records[i].key && m.Value() == records[i].value &&
      TimestampOrZero(m.Timestamp()) == records[i].timestamp && m.session == session
  {
  }

  lemma WrapAppend(a: seq<ConsumerMessage>, b: seq<ConsumerMessage>, session: ConsumerGroupSession)
    ensures Wrap(a + b, session) == Wrap(a, session) + Wrap(b, session)
  {
  }

  lemma RecordsAppend(a: seq<SubscriberMessage>, b: seq<SubscriberMessage>)
    ensures Records(a + b) == Records(a) + Records(b)
  {
  }

  /** The records of a sequence of claims, claim after claim. */
  function ClaimRecords(claims: seq<Claim>): seq<ConsumerMessage>
    decreases |claims|
  {
    if claims == [] then [] else ClaimRecords(claims[..|claims| - 1]) + claims[|claims| - 1].messages
  }

  /** The wrapped records of one more claim. */
  lemma ClaimRecordsStep(claims: seq<Claim>, k: nat, session: ConsumerGroupSession)
    requires k < |claims|
    ensures Wrap(ClaimRecords(claims[..k + 1]), session) ==
      Wrap(ClaimRecords(claims[..k]), session) + Wrap(claims[k].messages, session)
  {
    assert claims[..k + 1][..k] == claims[..k];
    WrapAppend(ClaimRecords(claims[..k]), claims[k].messages, session);
  }

  // ---------------------------------------------------------------------------
  // The group handler (subscriberGroupHandler)
  // ---------------------------------------------------------------------------

  /** A `chan bool` used only to be closed once. */
  class ReadyChannel {
    var closed: bool

    constructor ()
      ensures !closed
    {
      closed := false;
    }

    /** Closing a channel twice panics, so the caller must hold an open one. */
    method Close()
      requires !closed
      modifies this
      ensures closed
    {
      closed := true;
    }
  }

  /** Forwards the records of each claim to `msgCh`, the history of everything sent on the
      subscriber's message channel, and signals on `ready` when a session is set up. */
  class GroupHandler {
    var msgCh: seq<SubscriberMessage>
    var ready: ReadyChannel

    constructor ()
      ensures msgCh == [] && fresh(ready) && !ready.closed
    {
      msgCh := [];
      ready := new ReadyChannel();
    }

    /** Called once per session, before any claim: closes the current ready channel. */
    method Setup(session: ConsumerGroupSession) returns (err: Option<Error>)
      requires !ready.closed
      modifies ready
      ensures ready.closed && err == None
    {
      ready.Close();
      err := None;
    }

    /** Sends every record of the claim, in claim order, wrapped with the claim's session. */
    method ConsumeClaim(session: ConsumerGroupSession, claim: Claim) returns (err: Option<Error>)
      modifies this`msgCh
      ensures msgCh == old(msgCh) + Wrap(claim.messages, session)
      ensures err == None
    {
      var i := 0;
      while i < |claim.messages|
        invariant 0 <= i <= |claim.messages|
        invariant msgCh == old(msgCh) + Wrap(claim.messages[..i], session)
      {
        assert claim.messages[..i + 1] == claim.messages[..i] + [claim.messages[i]];
        WrapAppend(claim.messages[..i], [claim.messages[i]], session);
        msgCh := msgCh + [SubscriberMessage(claim.messages[i], session)];
        i := i + 1;
      }
      assert claim.messages[..i] == claim.messages;
      err := None;
    }
  }

  // ---------------------------------------------------------------------------
  // The consumer group (sarama.ConsumerGroup), as an oracle
  // ---------------------------------------------------------------------------

  /** What one `Consume` call amounts to: the join failed before any session, or a session
      was set up and these claims were delivered. */
  datatype Generation = JoinFailed | Joined(claims: seq<Claim>)

  /** The records a generation delivers. */
  function GenerationRecords(g: Generation): seq<ConsumerMessage> {
    if g.JoinFailed? then [] else ClaimRecords(g.claims)
  }

  /** The joined group. `calls` logs the topic list of every `Consume` call. */
  class ConsumerGroup {
    const brokers: seq<string>
    const groupID: string
    const config: Config
    var calls: seq<seq<string>>
    var closed: bool

    constructor (brokers: seq<string>, groupID: string, config: Config)
      ensures this.brokers == brokers && this.groupID == groupID && this.config == config
      ensures calls == [] && !closed
    {
      this.brokers, this.groupID, this.config := brokers, groupID, config;
      calls, closed := [], false;
    }

    /** Runs one generation over `topics` with handler `h`; the generation and the error it
        ends with are chosen by the environment. `session` is the generation's session; for a
        generation that fails to join it is a placeholder that no message carries. */
    method Consume(topics: seq<string>, generation: Generation, outcome: Option<Error>, h: GroupHandler)
      returns (err: Option<Error>, session: ConsumerGroupSession)
      requires generation.Joined? ==> !h.ready.closed
      modifies this, h, h.ready
      ensures calls == old(calls) + [topics] && closed == old(closed)
      ensures fresh(session) && session.marks == []
      ensures h.ready == old(h.ready) && h.ready.closed == (old(h.ready.closed) || generation.Joined?)
      ensures h.msgCh == old(h.msgCh) + Wrap(GenerationRecords(generation), session)
      ensures err == outcome
    {
      calls := calls + [topics];
      session := new ConsumerGroupSession();
      if generation.Joined? {
        var setupErr := h.Setup(session);
        ConsumeClaims(generation.claims, session, h);
      }
      err := outcome;
    }

    /** Hands the claims of a session to `h`, one claim after the other. */
    static method ConsumeClaims(claims: seq<Claim>, session: ConsumerGroupSession, h: GroupHandler)
      modifies h`msgCh
      ensures h.msgCh == old(h.msgCh) + Wrap(ClaimRecords(claims), session)
    {
      var k := 0;
      while k < |claims|
        invariant 0 <= k <= |claims|
        invariant h.msgCh == old(h.msgCh) + Wrap(ClaimRecords(claims[..k]), session)
      {
        ClaimRecordsStep(claims, k, session);
        var claimErr := h.ConsumeClaim(session, claims[k]);
        k := k + 1;
      }
      assert claims[..k] == claims;
    }

    /** Releases the group; the error is the library's. */
    method Close(outcome: Option<Error>) returns (err: Option<Error>)
      modifies this
      ensures closed && calls == old(calls) && err == outcome
    {
      closed := true;
      err := outcome;
    }
  }

  // ---------------------------------------------------------------------------
  // The retry loop of srmSubscriberGroup.Run, as a specification
  // ---------------------------------------------------------------------------

  /** One pass of the retry loop as the environment decides it: the context was found cancelled
      before `Consume`, or `Consume` ran a generation, returned `err`, and the context was or was
      not cancelled by the time it returned. */
  datatype Turn =
    | CancelledBeforeConsume
    | Consumed(generation: Generation, err: Option<Error>, cancelledAfter: bool)

  /** The loop leaves after this turn. The error `Consume` returned plays no part. */
  predicate EndsLoop(t: Turn) {
    t.CancelledBeforeConsume? || t.cancelledAfter
  }

  /** The loop has exited by the end of `script`. */
  predicate Exits(script: seq<Turn>)
    decreases |script|
  {
    script != [] && (Exits(script[..|script| - 1]) || EndsLoop(script[|script| - 1]))
  }

  /** The turns the loop goes through: every turn up to and including the first that ends it. */
  function Taken(script: seq<Turn>): seq<Turn>
    decreases |script|
  {
    if script == [] then []
    else if Exits(script[..|script| - 1]) then Taken(script[..|script| - 1])
    else Taken(script[..|script| - 1]) + [script[|script| - 1]]
  }

  /** The records a turn delivers. */
  function TurnRecords(t: Turn): seq<ConsumerMessage> {
    if t.Consumed? then GenerationRecords(t.generation) else []
  }

  /** The records that the generations of `turns` deliver, in order. */
  function Delivered(turns: seq<Turn>): seq<ConsumerMessage>
    decreases |turns|
  {
    if turns == [] then []
    else
      var last := turns[|turns| - 1];
      Delivered(turns[..|turns| - 1]) + TurnRecords(last)
  }

  /** One session per turn, present exactly for the turns that call `Consume`. The session of a
      generation that fails to join is a placeholder that no message carries. */
  predicate SessionsFor(turns: seq<Turn>, sessions: seq<ConsumerGroupSession?>) {
    |sessions| == |turns| && forall i :: 0 <= i < |turns| ==> (turns[i].Consumed? <==> sessions[i] != null)
  }

  /** The messages the generations of `turns` send: each record wrapped with the session of the
      generation that read it. */
  function Sent(turns: seq<Turn>, sessions: seq<ConsumerGroupSession?>): seq<SubscriberMessage>
    requires SessionsFor(turns, sessions)
    decreases |turns|
  {
    if turns == [] then []
    else
      var n := |turns| - 1;
      Sent(turns[..n], sessions[..n]) +
        (if turns[n].Consumed? then Wrap(GenerationRecords(turns[n].generation), sessions[n]) else [])
  }

  /** Underneath the sent messages are exactly the delivered records. */
  lemma {:induction false} SentRecords(turns: seq<Turn>, sessions: seq<ConsumerGroupSession?>)
    requires SessionsFor(turns, sessions)
    ensures Records(Sent(turns, sessions)) == Delivered(turns)
    decreases |turns|
  {
    if turns != [] {
      var n := |turns| - 1;
      SentRecords(turns[..n], sessions[..n]);
      if turns[n].Consumed? {
        RecordsAppend(Sent(turns[..n], sessions[..n]), Wrap(GenerationRecords(turns[n].generation), sessions[n]));
        WrapForwardsFields(GenerationRecords(turns[n].generation), sessions[n]);
      } else {
        assert Sent(turns, sessions) == Sent(turns[..n], sessions[..n]);
      }
    }
  }

  /** `sent` is what the generations of `turns` send, with one session of their own each. */
  predicate Carries(sent: seq<SubscriberMessage>, turns: seq<Turn>, sessions: seq<ConsumerGroupSession?>) {
    SessionsFor(turns, sessions) && Distinct(sessions) && sent == Sent(turns, sessions)
  }

  /** One more turn, run with a session not used before, extends what is carried. */
  lemma CarriesSnoc(sent: seq<SubscriberMessage>, turns: seq<Turn>, sessions: seq<ConsumerGroupSession?>,
                    t: Turn, s: ConsumerGroupSession?)
    requires Carries(sent, turns, sessions)
    requires (t.Consumed? <==> s != null) && (s != null ==> s !in sessions)
    ensures Carries(sent + (if t.Consumed? then Wrap(GenerationRecords(t.generation), s) else []),
                    turns + [t], sessions + [s])
  {
    assert (turns + [t])[..|turns|] == turns;
    assert (sessions + [s])[..|sessions|] == sessions;
  }

  /** Every session of `sessions` was allocated since the old state. */
  twostate predicate AllNew(new sessions: seq<ConsumerGroupSession?>) {
    forall k :: 0 <= k < |sessions| && sessions[k] != null ==> fresh(sessions[k])
  }

  /** No session appears twice in `sessions`. */
  predicate Distinct(sessions: seq<ConsumerGroupSession?>) {
    forall j, k :: 0 <= j < k < |sessions| && sessions[k] != null ==> sessions[j] != sessions[k]
  }

  /** How many times `turns` call `Consume`. */
  function ConsumeCount(turns: seq<Turn>): nat
    decreases |turns|
  {
    if turns == [] then 0
    else ConsumeCount(turns[..|turns| - 1]) + (if turns[|turns| - 1].Consumed? then 1 else 0)
  }

  /** `n` copies of the topic list. */
  function Repeat(topics: seq<string>, n: nat): (r: seq<seq<string>>)
    ensures |r| == n && forall i :: 0 <= i < n ==> r[i] == topics
  {
    seq(n, _ => topics)
  }

  /** The first turn ran a generation whose session was set up. */
  predicate FirstJoins(script: seq<Turn>) {
    script != [] && script[0].Consumed? && script[0].generation.Joined?
  }

  /** The loop exits exactly when some turn observes the cancelled context. */
  lemma {:induction false} ExitsIffCancelled(script: seq<Turn>)
    ensures Exits(script) <==> exists i :: 0 <= i < |script| && EndsLoop(script[i])
    decreases |script|
  {
    if script != [] {
      var init := script[..|script| - 1];
      ExitsIffCancelled(init);
      if exists i :: 0 <= i < |init| && EndsLoop(init[i]) {
        var i :| 0 <= i < |init| && EndsLoop(init[i]);
        assert script[i] == init[i];
      }
      if exists i :: 0 <= i < |script| && EndsLoop(script[i]) {
        var i :| 0 <= i < |script| && EndsLoop(script[i]);
        if i < |init| {
          assert init[i] == script[i];
        }
      }
    }
  }

  /** The loop takes a prefix of the script: all of it while no turn ends the loop, otherwise
      every turn up to the first that observes cancellation, and no turn after it. */
  lemma {:induction false} TakenStopsAtCancellation(script: seq<Turn>)
    ensures |Taken(script)| <= |script| && Taken(script) == script[..|Taken(script)|]
    ensures forall i :: 0 <= i < |Taken(script)| - 1 ==> !EndsLoop(script[i])
    ensures !Exits(script) ==> Taken(script) == script
    ensures Exits(script) ==> Taken(script) != [] && EndsLoop(script[|Taken(script)| - 1])
    decreases |script|
  {
    if script != [] {
      var init := script[..|script| - 1];
      TakenStopsAtCancellation(init);
      assert init[..|Taken(init)|] == script[..|Taken(init)|];
      if !Exits(init) {
        assert init + [script[|script| - 1]] == script;
        if |init| > 0 {
          assert !EndsLoop(script[|init| - 1]) by {
            assert EndsLoop(init[|init| - 1]) ==> Exits(init);
          }
        }
      }
    }
  }

  /** Once the loop has exited, later turns change nothing. */
  lemma {:induction false} TakenAfterExit(s: seq<Turn>, t: seq<Turn>)
    requires Exits(s)
    ensures Exits(s + t) && Taken(s + t) == Taken(s)
    decreases |t|
  {
    if t == [] {
      assert s + t == s;
    } else {
      var u := t[..|t| - 1];
      TakenAfterExit(s, u);
      assert (s + t)[..|s + t| - 1] == s + u;
    }
  }

  /** Two turns that differ at most in the error `Consume` returned. */
  predicate SameButError(a: Turn, b: Turn) {
    a.CancelledBeforeConsume? == b.CancelledBeforeConsume? &&
    (a.Consumed? ==> a.generation == b.generation && a.cancelledAfter == b.cancelledAfter)
  }

  /** A `Consume` error never ends the loop: scripts that differ only in those errors run the
      same turns, deliver the same records and exit alike. */
  lemma {:induction false} ErrorsDoNotEndLoop(s1: seq<Turn>, s2: seq<Turn>)
    requires |s1| == |s2| && forall i :: 0 <= i < |s1| ==> SameButError(s1[i], s2[i])
    ensures Exits(s1) == Exits(s2)
    ensures |Taken(s1)| == |Taken(s2)|
    ensures Delivered(Taken(s1)) == Delivered(Taken(s2))
    ensures ConsumeCount(Taken(s1)) == ConsumeCount(Taken(s2))
    decreases |s1|
  {
    if s1 != [] {
      var n := |s1| - 1;
      ErrorsDoNotEndLoop(s1[..n], s2[..n]);
      if !Exits(s1[..n]) {
        var t1, t2 := Taken(s1[..n]), Taken(s2[..n]);
        assert (t1 + [s1[n]])[..|t1|] == t1;
        assert (t2 + [s2[n]])[..|t2|] == t2;
      }
    }
  }

  /** As long as the context is not cancelled the loop keeps rejoining: it calls `Consume`
      once per turn, whatever those calls return, and the channel stays open. */
  lemma {:induction false} RejoinsUntilCancelled(script: seq<Turn>)
    requires forall i :: 0 <= i < |script| ==> !EndsLoop(script[i])
    ensures !Exits(script) && Taken(script) == script
  {
    ExitsIffCancelled(script);
    TakenStopsAtCancellation(script);
  }

  /** The caller of `Run` waits on the first ready channel only: when the first `Consume` fails
      to join and the context is still live, the caller is not released whatever the later
      generations do, and the loop goes on to them, exiting exactly when they observe
      cancellation. */
  lemma {:induction false} FailedFirstJoinBlocks(script: seq<Turn>)
    requires |script| > 0 && script[0].Consumed? && script[0].generation.JoinFailed?
    requires !script[0].cancelledAfter
    ensures !FirstJoins(script)
    ensures Exits(script) == Exits(script[1..])
    decreases |script|
  {
    var n := |script| - 1;
    if n == 0 {
      assert script[..0] == [];
      assert script[1..] == [];
    } else {
      FailedFirstJoinBlocks(script[..n]);
      assert script[1..][..n - 1] == script[..n][1..];
    }
  }

  /** After the first `i` turns of `script` the loop has exited or not as `exited` says, and
      has gone through the turns `taken`. */
  predicate LoopAt(script: seq<Turn>, i: nat, exited: bool, taken: seq<Turn>) {
    i <= |script| && exited == Exits(script[..i]) && taken == Taken(script[..i])
  }

  /** One more turn of a loop that has not exited yet. */
  lemma TakeTurn(script: seq<Turn>, i: nat, taken: seq<Turn>)
    requires i < |script| && LoopAt(script, i, false, taken)
    ensures LoopAt(script, i + 1, EndsLoop(script[i]), taken + [script[i]])
  {
    assert script[..i + 1][..i] == script[..i];
  }

  /** When the loop leaves, at the end of the script or on exit, it has run the whole script. */
  lemma LeaveLoop(script: seq<Turn>, i: nat, exited: bool, taken: seq<Turn>)
    requires LoopAt(script, i, exited, taken) && (i == |script| || exited)
    ensures Exits(script) == exited && Taken(script) == taken
  {
    if i < |script| {
      var done, rest := script[..i], script[i..];
      assert done + rest == script;
      TakenAfterExit(done, rest);
    } else {
      assert script[..i] == script;
    }
  }

  /** The records and `Consume` calls of one more turn. */
  lemma DeliveredSnoc(turns: seq<Turn>, t: Turn)
    ensures Delivered(turns + [t]) == Delivered(turns) + TurnRecords(t)
    ensures ConsumeCount(turns + [t]) == ConsumeCount(turns) + (if t.Consumed? then 1 else 0)
  {
    assert (turns + [t])[..|turns|] == turns;
  }

  lemma RepeatOneMore(topics: seq<string>, n: nat)
    ensures Repeat(topics, n + 1) == Repeat(topics, n) + [topics]
  {
  }

  // ---------------------------------------------------------------------------
  // The session group (srmSubscriberGroup)
  // ---------------------------------------------------------------------------

  /** The message channel: everything sent on it, in order, and whether it was closed. */
  datatype Channel = Channel(sent: seq<SubscriberMessage>, closed: bool)

  class SubscriberGroup {
    const ctx: Context
    const topics: seq<string>
    const group: ConsumerGroup

    constructor (ctx: Context, topics: seq<string>, group: ConsumerGroup)
      ensures this.ctx == ctx && this.topics == topics && this.group == group
    {
      this.ctx, this.topics, this.group := ctx, topics, group;
    }

    /** One pass of the retry loop: unless the context is found cancelled, one `Consume` over the
        snapshot of the topics, whose error is only logged; then, unless the context is now
        cancelled, a fresh ready channel for the next generation. `ends` says the loop returns;
        `setUp` says the pass's ready channel was closed; `session` is the generation's session,
        null when `Consume` is not called, and otherwise none of the `prior` sessions. */
    method Pass(sgh: GroupHandler, turn: Turn, ghost prior: seq<ConsumerGroupSession?>)
      returns (ends: bool, setUp: bool, ghost session: ConsumerGroupSession?)
      requires !sgh.ready.closed
      modifies group, sgh, sgh.ready
      ensures ends == EndsLoop(turn)
      ensures setUp == (turn.Consumed? && turn.generation.Joined?)
      ensures old(sgh.ready).closed == setUp
      ensures ends ==> sgh.ready == old(sgh.ready)
      ensures !ends ==> fresh(sgh.ready) && !sgh.ready.closed
      ensures turn.Consumed? <==> session != null
      ensures session != null ==> fresh(session) && session !in prior
      ensures sgh.msgCh == old(sgh.msgCh) +
        (if turn.Consumed? then Wrap(GenerationRecords(turn.generation), session) else [])
      ensures group.calls == old(group.calls) + (if turn.Consumed? then [topics] else [])
      ensures group.closed == old(group.closed)
    {
      if turn.CancelledBeforeConsume? {
        return true, false, null;
      }
      var err, s := group.Consume(topics, turn.generation, turn.err, sgh);
      session := s;
      setUp := sgh.ready.closed;
      ends := turn.cancelledAfter;
      if !ends {
        sgh.ready := new ReadyChannel();
      }
    }

    /** Starts the retry loop over `script` and waits on the first ready channel. `released`
        says whether that wait ends; `ch` is the message channel as the loop leaves it (still
        open when the script runs out before cancellation). `sessions` are the sessions of the
        generations the loop ran: each is new, and no two are the same. */
    method Run(script: seq<Turn>) returns (released: bool, ch: Channel, ghost sessions: seq<ConsumerGroupSession?>)
      modifies group
      ensures released <==> FirstJoins(script)
      ensures ch.closed <==> Exits(script)
      ensures SessionsFor(Taken(script), sessions)
      ensures AllNew(sessions) && Distinct(sessions)
      ensures ch.sent == Sent(Taken(script), sessions)
      ensures Records(ch.sent) == Delivered(Taken(script))
      ensures group.calls == old(group.calls) + Repeat(topics, ConsumeCount(Taken(script)))
      ensures group.closed == old(group.closed)
    {
      var sgh := new GroupHandler();
      released := false;
      var i := 0;
      var exited := false;
      ghost var taken: seq<Turn> := [];
      sessions := [];
      while i < |script| && !exited
        invariant LoopAt(script, i, exited, taken)
        invariant fresh(sgh) && fresh(sgh.ready)
        invariant !exited ==> !sgh.ready.closed
        invariant released <==> (i > 0 && FirstJoins(script))
        invariant Carries(sgh.msgCh, taken, sessions)
        invariant AllNew(sessions)
        invariant group.calls == old(group.calls) + Repeat(topics, ConsumeCount(taken))
        invariant group.closed == old(group.closed)
      {
        var turn := script[i];
        TakeTurn(script, i, taken);
        DeliveredSnoc(taken, turn);
        RepeatOneMore(topics, ConsumeCount(taken));
        var setUp;
        ghost var session;
        ghost var before := sgh.msgCh;
        exited, setUp, session := Pass(sgh, turn, sessions);
        CarriesSnoc(before, taken, sessions, turn, session);
        taken, sessions := taken + [turn], sessions + [session];
        if i == 0 {
          // the caller waits on the first ready channel and on no later one
          released := setUp;
        }
        i := i + 1;
      }
      LeaveLoop(script, i, exited, taken);
      SentRecords(taken, sessions);
      ch := Channel(sgh.msgCh, exited);
    }
  }

  // ---------------------------------------------------------------------------
  // The subscriber (SrmSubscriber)
  // ---------------------------------------------------------------------------

  /** What `Run` gives its caller: it never returns, it fails to create the group, or it
      returns the message channel. */
  datatype Subscription = Blocked | Failed(err: Error) | Started(ch: Channel)

  /** The consumer configuration the subscriber is created with. */
  const DefaultConfig: Config := Config(V2_2_1_0, OffsetOldest, true, 30_000)

  const DefaultBroker: string := "127.0.0.1:9092"

  class SrmSubscriber {
    var ctx: Option<Context>
    var brokers: seq<string>
    var topics: seq<string>
    var groupID: string
    var config: Config
    var ssg: SubscriberGroup?
    var workerNumber: int

    /** The defaults: the local broker, consume from the oldest offset, one worker. */
    constructor LoadDefaultSubscriber()
      ensures ctx == None && brokers == [DefaultBroker] && topics == [] && groupID == ""
      ensures config == DefaultConfig && config.initialOffset == OffsetOldest
      ensures ssg == null && workerNumber == 1
    {
      ctx := None;
      brokers := [DefaultBroker];
      topics := [];
      groupID := "";
      config := DefaultConfig;
      ssg := null;
      workerNumber := 1;
    }

    /** A subscriber for `groupID` on `brokers`, with no topics yet. */
    static method NewSrmSubscriber(brokers: seq<string>, groupID: string) returns (sub: SrmSubscriber)
      ensures fresh(sub)
      ensures sub.brokers == brokers && sub.groupID == groupID && sub.topics == []
      ensures sub.config == DefaultConfig && sub.workerNumber == 1
      ensures sub.ssg == null && sub.ctx == None
    {
      sub := new SrmSubscriber.LoadDefaultSubscriber();
      sub.brokers := brokers;
      sub.groupID := groupID;
    }

    /** Appends `topic`; earlier entries stay, and a repeated topic is listed twice. */
    method RegisterTopic(topic: string)
      modifies this`topics
      ensures topics == old(topics) + [topic]
    {
      topics := topics + [topic];
    }

    /** Derives a cancellable context, creates the consumer group (which fails with
        `creationErr` when that is given) and starts the retry loop over the topics registered
        so far. `sessions` are the sessions of the generations the loop ran. */
    method Run(parent: Context, creationErr: Option<Error>, script: seq<Turn>)
      returns (r: Subscription, ghost sessions: seq<ConsumerGroupSession?>)
      modifies this`ctx, this`ssg
      ensures ctx == Some(WithCancel(parent))
      ensures creationErr.Some? ==> r == Failed(creationErr.value) && ssg == old(ssg)
      ensures creationErr.None? ==>
        ssg != null && fresh(ssg) && fresh(ssg.group) &&
        ssg.ctx == WithCancel(parent) && ssg.topics == topics &&
        ssg.group.brokers == brokers && ssg.group.groupID == groupID && ssg.group.config == config &&
        ssg.group.calls == Repeat(topics, ConsumeCount(Taken(script))) && !ssg.group.closed &&
        (r.Blocked? <==> !FirstJoins(script)) && !r.Failed? &&
        SessionsFor(Taken(script), sessions) &&
        AllNew(sessions) && Distinct(sessions)
      ensures r.Started? ==>
        r.ch.sent == Sent(Taken(script), sessions) &&
        Records(r.ch.sent) == Delivered(Taken(script)) && (r.ch.closed <==> Exits(script))
    {
      ctx := Some(WithCancel(parent));
      if creationErr.Some? {
        // the failure is logged
        return Failed(creationErr.value), [];
      }
      var group := new ConsumerGroup(brokers, groupID, config);
      ssg := new SubscriberGroup(WithCancel(parent), topics, group);
      var released, ch;
      released, ch, sessions := ssg.Run(script);
      if released {
        r := Started(ch);
      } else {
        r := Blocked;
      }
    }

    /** Releases the consumer group installed by a successful `Run`. */
    method Close(outcome: Option<Error>) returns (err: Option<Error>)
      requires ssg != null
      modifies ssg.group
      ensures ssg.group.closed && ssg.group.calls == old(ssg.group.calls) && err == outcome
    {
      err := ssg.group.Close(outcome);
    }
  }
}
