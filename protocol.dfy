/**
 * The flood-and-reply protocol of `WsnNode.action2` as pure functions over the
 * node's protocol state. The node class runs these steps imperatively and is
 * proved against them; the lemmas below state what each step promises.
 */
module Protocol {
  import opened Wrappers
  import opened Messages
  import OrderedDict

  /** The `reply_queue` key `f'{uuid}-{handlers[0]}'`, as a pair. */
  type ReplyKey = (Uuid, NodeId)

  type ReplyTable = OrderedDict.Dict<ReplyKey, Message>

  /**
   * `replied_messages` holds two kinds of string: `f'{uuid}-{origin}'` for a
   * relayed reply and the bare uuid for a flood this node has answered.
   */
  datatype Mark = ReplyMark(uuid: Uuid, origin: NodeId) | GroupMark(uuid: Uuid)

  /** Arrival counts for one originating node, keyed by last hop. */
  type Tallies = map<NodeId, nat>

  /** An entry of `send_queue`: a raw payload string or a pre-built message. */
  datatype Outbound = Payload(data: string) | Prebuilt(message: Message)

  datatype NodeState = NodeState(
    sending: Option<Message>,
    repliedNodes: set<NodeId>,
    replyQueue: ReplyTable,
    recvCount: nat,
    routeLen: map<NodeId, Tallies>,
    repliedMessages: set<Mark>)

  /** What handling one inbound message does: the new state and the message handed to `send`, if any. */
  datatype Step = Step(state: NodeState, out: Option<Message>)

  /** The state and the sends after draining a whole sequence of inbound messages. */
  datatype Run = Run(state: NodeState, outs: seq<Message>)

  function KeyOf(m: Message): ReplyKey {
    (m.uuid, Source(m))
  }

  // ---------------------------------------------------------------------
  // Completion check and dequeue (node.py:239-255)
  // ---------------------------------------------------------------------

  /** `sending` is a flood (not a reply) and enough distinct nodes have acknowledged it. */
  predicate CompletionDue(s: NodeState, teammateNum: real) {
    s.sending.Some? && !s.sending.value.isReply && |s.repliedNodes| as real >= teammateNum
  }

  function Complete(s: NodeState, teammateNum: real): NodeState {
    if CompletionDue(s, teammateNum) then s.(sending := None, repliedNodes := {}) else s
  }

  datatype Dequeued = Dequeued(sendQueue: seq<Outbound>, sending: Option<Message>)

  /** Take the head of `send_queue` when nothing is in flight; a raw payload becomes a fresh flood. */
  function Dequeue(me: NodeId, freshUuid: Uuid, sendQueue: seq<Outbound>, sending: Option<Message>): Dequeued {
    if sendQueue != [] && sending.None? then
      var next := match sendQueue[0]
        case Payload(d) => NewMessage(freshUuid, false, d, me)
        case Prebuilt(m) => m;
      Dequeued(sendQueue[1..], Some(next))
    else
      Dequeued(sendQueue, sending)
  }

  /** What the transmit phase hands to `send`, in order: `sending`, then every stored reply. */
  function Transmissions(sending: Option<Message>, replyQueue: ReplyTable): seq<Message> {
    ToSeq(sending) + OrderedDict.Values(replyQueue)
  }

  // ---------------------------------------------------------------------
  // Inbound replies (node.py:268-293)
  // ---------------------------------------------------------------------

  /** The stored reply for the same (uuid, origin) has a strictly longer path. */
  predicate Stale(s: NodeState, m: Message) {
    var stored := OrderedDict.Get(s.replyQueue, KeyOf(m));
    stored.Some? && |stored.value.handlers| > |m.handlers|
  }

  /** The reply is addressed to `me` as its next hop back. */
  predicate Routed(me: NodeId, m: Message) {
    |m.handlers| >= 2 && m.handlers[1] == me
  }

  /** This reply acknowledges the node's own outbound flood. */
  predicate AcknowledgesSending(s: NodeState, m: Message) {
    s.sending.Some? && !s.sending.value.isReply && m.uuid == s.sending.value.uuid
  }

  /** `handlers.pop(1)`: consume the hop the reply has just reached. */
  function ConsumeHop(m: Message): (r: Message)
    requires |m.handlers| >= 2
    ensures |r.handlers| == |m.handlers| - 1
    ensures Source(r) == Source(m) && r.handlers[1..] == m.handlers[2..]
    ensures r.uuid == m.uuid && r.isReply == m.isReply && r.data == m.data
  {
    m.(handlers := [m.handlers[0]] + m.handlers[2..])
  }

  function ReplyStep(me: NodeId, s: NodeState, m: Message): Step {
    if Stale(s, m) then
      Step(s.(replyQueue := OrderedDict.Remove(s.replyQueue, KeyOf(m))), None)
    else if !Routed(me, m) then
      Step(s, None)
    else
      Relay(s, ConsumeHop(m))
  }

  /** A reply that has just reached this node on its way back, already shortened by one hop. */
  function Relay(s: NodeState, c: Message): Step {
    if AcknowledgesSending(s, c) then
      Step(s.(repliedNodes := s.repliedNodes + {Source(c)}), Some(c))
    else if ReplyMark(c.uuid, Source(c)) !in s.repliedMessages then
      Step(s.(repliedMessages := s.repliedMessages + {ReplyMark(c.uuid, Source(c))},
              replyQueue := OrderedDict.Put(s.replyQueue, KeyOf(c), c)),
           Some(c))
    else
      Step(s, Some(c))
  }

  // ---------------------------------------------------------------------
  // Inbound floods (node.py:295-321)
  // ---------------------------------------------------------------------

  function RoutesFrom(s: NodeState, origin: NodeId): Tallies {
    if origin in s.routeLen then s.routeLen[origin] else map[]
  }

  /** `route_len[origin][hop]`, reading a missing entry as 0. */
  function Tally(s: NodeState, origin: NodeId, hop: NodeId): nat {
    var t := RoutesFrom(s, origin);
    if hop in t then t[hop] else 0
  }

  /** The tally of `hop` is the largest for its origin (ties included): the majority-path gate. */
  predicate IsPrimary(t: Tallies, hop: NodeId) {
    hop in t && forall h :: h in t ==> t[h] <= t[hop]
  }

  /** `max(*list(t.values()) + [0])`. */
  ghost function MaxTally(t: Tallies): (mx: nat)
    ensures forall h :: h in t ==> t[h] <= mx
    ensures t != map[] ==> exists h :: h in t && t[h] == mx
    ensures t == map[] ==> mx == 0
    decreases |t|
  {
    if t == map[] then 0
    else
      NonEmptyHasKey(t);
      var k :| k in t;
      var rest := t - {k};
      assert |rest| < |t| by { assert rest.Keys == t.Keys - {k}; }
      var m := MaxTally(rest);
      assert forall h :: h in t && h != k ==> h in rest && rest[h] == t[h];
      if t[k] >= m then t[k] else m
  }

  lemma NonEmptyHasKey(t: Tallies)
    requires t != map[]
    ensures exists h :: h in t
  {
    if forall h :: h !in t {
      assert false;
    }
  }

  /** The gate in the form the source writes it: the tally equals the maximum of all tallies and 0. */
  lemma PrimaryIsMax(t: Tallies, hop: NodeId)
    requires hop in t
    ensures IsPrimary(t, hop) <==> t[hop] == MaxTally(t)
  {
  }

  /** The flood copy turned into this node's own reply: flagged, path reversed. */
  function AsReply(m: Message): (r: Message)
    ensures r.isReply && r.uuid == m.uuid && r.data == m.data
    ensures |r.handlers| == |m.handlers|
    ensures forall k :: 0 <= k < |m.handlers| ==> r.handlers[k] == m.handlers[|m.handlers| - 1 - k]
    ensures Source(r) == LastHop(m) && LastHop(r) == Source(m)
  {
    m.(isReply := true, handlers := Reverse(m.handlers))
  }

  /** A new arrival: one more received flood, one more on the tally of its (origin, last hop). */
  function Arrive(s: NodeState, m: Message): NodeState {
    var origin, hop := Source(m), LastHop(m);
    s.(recvCount := s.recvCount + 1,
       routeLen := s.routeLen[origin := RoutesFrom(s, origin)[hop := Tally(s, origin, hop) + 1]])
  }

  /** An accepted flood, `fwd` already carrying this node: retransmit it and answer its uuid once. */
  function Accept(s: NodeState, fwd: Message): Step {
    if GroupMark(fwd.uuid) in s.repliedMessages then
      Step(s, Some(fwd))
    else
      var reply := AsReply(fwd);
      Step(s.(repliedMessages := s.repliedMessages + {GroupMark(fwd.uuid)},
              replyQueue := OrderedDict.Put(s.replyQueue, KeyOf(reply), reply)),
           Some(fwd))
  }

  function ForwardStep(me: NodeId, s: NodeState, m: Message): Step {
    if me in m.handlers then
      Step(s, None)
    else
      var s1 := Arrive(s, m);
      if !IsPrimary(RoutesFrom(s1, Source(m)), LastHop(m)) then
        Step(s1, None)
      else
        Accept(s1, Handle(m, me))
  }

  function Receive(me: NodeId, s: NodeState, m: Message): Step {
    if m.isReply then ReplyStep(me, s, m) else ForwardStep(me, s, m)
  }

  /** Draining `ms` in order, one `Receive` each. */
  function Drain(me: NodeId, s: NodeState, ms: seq<Message>): Run
    decreases |ms|
  {
    if ms == [] then Run(s, [])
    else
      var r := Drain(me, s, ms[..|ms| - 1]);
      var st := Receive(me, r.state, ms[|ms| - 1]);
      Run(st.state, r.outs + ToSeq(st.out))
  }

  /** Draining one more message is one more `Receive` after the drain so far. */
  lemma DrainSnoc(me: NodeId, s: NodeState, ms: seq<Message>, m: Message)
    ensures var r := Drain(me, s, ms);
      var st := Receive(me, r.state, m);
      Drain(me, s, ms + [m]) == Run(st.state, r.outs + ToSeq(st.out))
  {
    assert (ms + [m])[..|ms|] == ms;
  }

  // ---------------------------------------------------------------------
  // Termination measure of the drain loop
  // ---------------------------------------------------------------------

  /**
   * A flood not yet handled by `me` weighs 2, one already carrying `me` weighs
   * 1, a reply weighs one more than its path length. Handling a message hands
   * at most one strictly lighter message back to the node's own queue.
   */
  function Weight(me: NodeId, m: Message): nat {
    if m.isReply then |m.handlers| + 1 else if me in m.handlers then 1 else 2
  }

  function QueueWeight(me: NodeId, q: seq<Message>): nat {
    if q == [] then 0 else Weight(me, q[0]) + QueueWeight(me, q[1..])
  }

  lemma {:induction false} QueueWeightAppend(me: NodeId, q: seq<Message>, m: Message)
    ensures QueueWeight(me, q + [m]) == QueueWeight(me, q) + Weight(me, m)
  {
    if q != [] {
      assert (q + [m])[1..] == q[1..] + [m];
      QueueWeightAppend(me, q[1..], m);
    }
  }

  /** Whatever a step retransmits is strictly lighter than what it consumed. */
  lemma ReceiveShrinks(me: NodeId, s: NodeState, m: Message)
    ensures Receive(me, s, m).out.Some? ==> Weight(me, Receive(me, s, m).out.value) < Weight(me, m)
  {
    if !m.isReply && me !in m.handlers && ForwardStep(me, s, m).out.Some? {
      var fwd := Handle(m, me);
      assert fwd.handlers[|m.handlers|] == me;
    }
  }

  // ---------------------------------------------------------------------
  // Properties of the reply path
  // ---------------------------------------------------------------------

  /** A shorter reply supersedes a stored longer one: the stored entry goes and the newcomer is dropped. */
  lemma StaleReplySuperseded(me: NodeId, s: NodeState, m: Message)
    requires m.isReply && Stale(s, m)
    ensures Receive(me, s, m).out == None
    ensures Receive(me, s, m).state == s.(replyQueue := Receive(me, s, m).state.replyQueue)
    ensures OrderedDict.Get(Receive(me, s, m).state.replyQueue, KeyOf(m)) == None
    ensures forall k :: k != KeyOf(m) ==>
      OrderedDict.Get(Receive(me, s, m).state.replyQueue, k) == OrderedDict.Get(s.replyQueue, k)
    ensures |Receive(me, s, m).state.replyQueue| == |s.replyQueue| - 1
    ensures Receive(me, s, m).state.replyQueue == OrderedDict.Remove(s.replyQueue, KeyOf(m))
  {
  }

  /** A reply that cannot go one hop further back, or is addressed to another node, changes nothing. */
  lemma UnroutedReplyIgnored(me: NodeId, s: NodeState, m: Message)
    requires m.isReply && !Stale(s, m)
    requires |m.handlers| < 2 || m.handlers[1] != me
    ensures Receive(me, s, m) == Step(s, None)
  {
  }

  /**
   * A reply addressed to this node is retransmitted with exactly its next hop
   * removed; it then either acknowledges the node's own flood or is stored
   * for relaying, at most once per (uuid, origin).
   */
  lemma RoutedReplyRelayed(me: NodeId, s: NodeState, m: Message)
    requires m.isReply && !Stale(s, m) && Routed(me, m)
    ensures var st := Receive(me, s, m);
      && st.out.Some?
      && |st.out.value.handlers| == |m.handlers| - 1
      && Source(st.out.value) == Source(m)
      && st.out.value.handlers[1..] == m.handlers[2..]
      && st.out.value.isReply && st.out.value.uuid == m.uuid && st.out.value.data == m.data
    ensures var st := Receive(me, s, m);
      AcknowledgesSending(s, m) ==>
        st.state == s.(repliedNodes := s.repliedNodes + {Source(m)})
    ensures var st := Receive(me, s, m);
      !AcknowledgesSending(s, m) ==>
        && st.state == s.(repliedMessages := st.state.repliedMessages, replyQueue := st.state.replyQueue)
        && st.state.repliedMessages == s.repliedMessages + {ReplyMark(m.uuid, Source(m))}
        && OrderedDict.Get(st.state.replyQueue, KeyOf(m)) ==
             (if ReplyMark(m.uuid, Source(m)) in s.repliedMessages
              then OrderedDict.Get(s.replyQueue, KeyOf(m)) else st.out)
        && (forall k :: k != KeyOf(m) ==>
             OrderedDict.Get(st.state.replyQueue, k) == OrderedDict.Get(s.replyQueue, k))
        && st.state.replyQueue ==
             (if ReplyMark(m.uuid, Source(m)) in s.repliedMessages
              then s.replyQueue else OrderedDict.Put(s.replyQueue, KeyOf(m), st.out.value))
  {
  }

  /** Once a (uuid, origin) has been relayed, a later reply for it never replaces the stored entry. */
  lemma RelayedReplyStoredOnce(me: NodeId, s: NodeState, m: Message)
    requires m.isReply && ReplyMark(m.uuid, Source(m)) in s.repliedMessages
    ensures var q := Receive(me, s, m).state.replyQueue;
      q == s.replyQueue || q == OrderedDict.Remove(s.replyQueue, KeyOf(m))
  {
    if !Stale(s, m) && Routed(me, m) {
      var c := ConsumeHop(m);
      assert c.uuid == m.uuid && Source(c) == Source(m);
      assert Relay(s, c).state.replyQueue == s.replyQueue;
    }
  }

  // ---------------------------------------------------------------------
  // Properties of the flood path
  // ---------------------------------------------------------------------

  /** A flood copy that has already passed through this node changes nothing. */
  lemma SelfLoopSuppressed(me: NodeId, s: NodeState, m: Message)
    requires !m.isReply && me in m.handlers
    ensures Receive(me, s, m) == Step(s, None)
  {
  }

  /** A new arrival counts once and raises exactly the tally of its (origin, last hop). */
  lemma ArrivalTallied(me: NodeId, s: NodeState, m: Message)
    requires !m.isReply && me !in m.handlers
    ensures var t := Receive(me, s, m).state;
      && t.recvCount == s.recvCount + 1
      && Tally(t, Source(m), LastHop(m)) == Tally(s, Source(m), LastHop(m)) + 1
      && (forall o, h :: (o, h) != (Source(m), LastHop(m)) ==> Tally(t, o, h) == Tally(s, o, h))
      && t.sending == s.sending && t.repliedNodes == s.repliedNodes
  {
    var t := Receive(me, s, m).state;
    forall o, h | (o, h) != (Source(m), LastHop(m)) ensures Tally(t, o, h) == Tally(s, o, h) {
      if o == Source(m) {
        assert RoutesFrom(t, o) == RoutesFrom(s, o)[LastHop(m) := Tally(s, o, LastHop(m)) + 1];
      }
    }
  }

  /**
   * The majority-path gate: a new arrival is forwarded, with `me` appended,
   * exactly when its tally is now at least every other tally from its origin;
   * a rejected arrival is never sent and stores nothing.
   */
  lemma MajorityGate(me: NodeId, s: NodeState, m: Message)
    requires !m.isReply && me !in m.handlers
    ensures var st := Receive(me, s, m);
      st.out.Some? <==>
        forall h :: Tally(st.state, Source(m), h) <= Tally(st.state, Source(m), LastHop(m))
    ensures var st := Receive(me, s, m);
      st.out.Some? ==> st.out.value == Handle(m, me)
    ensures var st := Receive(me, s, m);
      st.out.None? ==> st.state.replyQueue == s.replyQueue && st.state.repliedMessages == s.repliedMessages
  {
    var st := Receive(me, s, m);
    var o, hop := Source(m), LastHop(m);
    var routes := RoutesFrom(st.state, o);
    assert routes == RoutesFrom(s, o)[hop := Tally(s, o, hop) + 1];
    if st.out.Some? {
      forall h ensures Tally(st.state, o, h) <= Tally(st.state, o, hop) {
        if h in routes { assert routes[h] <= routes[hop]; }
      }
    } else {
      assert !IsPrimary(routes, hop);
      var h :| h in routes && routes[h] > routes[hop];
      assert Tally(st.state, o, h) > Tally(st.state, o, hop);
    }
  }

  /**
   * An accepted flood with a uuid new to this node is also answered: the
   * stored reply is the forwarded copy flagged as a reply with its path
   * reversed, so it starts at `me` and ends at the flood's origin.
   */
  lemma AcceptedFloodAnswered(me: NodeId, s: NodeState, m: Message)
    requires !m.isReply && me !in m.handlers
    requires Receive(me, s, m).out.Some? && GroupMark(m.uuid) !in s.repliedMessages
    ensures var t := Receive(me, s, m).state;
      && t.repliedMessages == s.repliedMessages + {GroupMark(m.uuid)}
      && OrderedDict.Get(t.replyQueue, (m.uuid, me)).Some?
      && var r := OrderedDict.Get(t.replyQueue, (m.uuid, me)).value;
         && r.isReply && r.uuid == m.uuid && r.data == m.data
         && r.handlers == Reverse(m.handlers + [me])
         && Source(r) == me && LastHop(r) == Source(m)
    ensures Receive(me, s, m).state.replyQueue == OrderedDict.Put(s.replyQueue, (m.uuid, me), AsReply(Handle(m, me)))
  {
    var fwd := Handle(m, me);
    assert LastHop(fwd) == me;
    assert KeyOf(AsReply(fwd)) == (m.uuid, me);
  }

  /** An accepted flood whose uuid this node has answered before is forwarded but not answered again. */
  lemma AnsweredFloodNotAnsweredAgain(me: NodeId, s: NodeState, m: Message)
    requires !m.isReply && me !in m.handlers && GroupMark(m.uuid) in s.repliedMessages
    ensures Receive(me, s, m).state.replyQueue == s.replyQueue
    ensures Receive(me, s, m).state.repliedMessages == s.repliedMessages
  {
  }

  /** A tally rises by one per replay of the same arrival and no other tally moves. */
  lemma {:induction false} ReplayedArrivals(me: NodeId, s: NodeState, m: Message, n: nat)
    requires !m.isReply && me !in m.handlers
    ensures var t := Drain(me, s, seq(n, _ => m)).state;
      && Tally(t, Source(m), LastHop(m)) == Tally(s, Source(m), LastHop(m)) + n
      && t.recvCount == s.recvCount + n
      && forall o, h :: (o, h) != (Source(m), LastHop(m)) ==> Tally(t, o, h) == Tally(s, o, h)
  {
    if n > 0 {
      var ms := seq(n, _ => m);
      assert ms[..n - 1] == seq(n - 1, _ => m);
      ReplayedArrivals(me, s, m, n - 1);
      ArrivalTallied(me, Drain(me, s, ms[..n - 1]).state, m);
    }
  }

  // ---------------------------------------------------------------------
  // Properties of the activation phases and of a whole drain
  // ---------------------------------------------------------------------

  /**
   * Completion clears the flood in flight and its acknowledgements, and
   * touches nothing else; when it is not due nothing changes at all.
   */
  lemma CompletionClears(s: NodeState, teammateNum: real)
    ensures var c := Complete(s, teammateNum);
      CompletionDue(s, teammateNum) ==>
        && c.sending == None && c.repliedNodes == {}
        && c.replyQueue == s.replyQueue && c.recvCount == s.recvCount
        && c.routeLen == s.routeLen && c.repliedMessages == s.repliedMessages
    ensures !CompletionDue(s, teammateNum) ==> Complete(s, teammateNum) == s
  {
  }

  /**
   * Dequeue takes exactly the head of the send queue, and only when nothing
   * is in flight; a raw payload becomes a flood whose only handler is `me`.
   */
  lemma DequeueTakesHead(me: NodeId, freshUuid: Uuid, q: seq<Outbound>, sending: Option<Message>)
    ensures var d := Dequeue(me, freshUuid, q, sending);
      (q == [] || sending.Some?) ==> d == Dequeued(q, sending)
    ensures var d := Dequeue(me, freshUuid, q, sending);
      q != [] && sending.None? ==>
        && q == [q[0]] + d.sendQueue
        && d.sending.Some?
        && (q[0].Prebuilt? ==> d.sending.value == q[0].message)
        && (q[0].Payload? ==>
              && d.sending.value.handlers == [me] && !d.sending.value.isReply
              && d.sending.value.data == q[0].data && d.sending.value.uuid == freshUuid)
  {
  }

  /** The retransmission phase sends the flood in flight first, if any, then every stored reply, once each. */
  lemma TransmissionsCover(sending: Option<Message>, rq: ReplyTable)
    ensures |Transmissions(sending, rq)| == |ToSeq(sending)| + |rq|
    ensures sending.Some? ==> Transmissions(sending, rq)[0] == sending.value
    ensures forall i :: 0 <= i < |rq| ==> Transmissions(sending, rq)[|ToSeq(sending)| + i] == rq[i].value
    ensures forall k :: OrderedDict.Get(rq, k).Some? ==> OrderedDict.Get(rq, k).value in Transmissions(sending, rq)
  {
    forall k | OrderedDict.Get(rq, k).Some?
      ensures OrderedDict.Get(rq, k).value in Transmissions(sending, rq)
    {
      var i :| 0 <= i < |rq| && rq[i] == OrderedDict.Entry(k, OrderedDict.Get(rq, k).value);
      assert Transmissions(sending, rq)[|ToSeq(sending)| + i] == rq[i].value;
    }
  }

  /** The flood copies in `ms` that `me` has not handled yet: exactly the ones it counts. */
  function NewFloods(me: NodeId, ms: seq<Message>): nat {
    if ms == [] then 0
    else NewFloods(me, ms[..|ms| - 1]) + (if !ms[|ms| - 1].isReply && me !in ms[|ms| - 1].handlers then 1 else 0)
  }

  /**
   * Over a whole drain: the flood in flight is never touched, the marks and
   * the acknowledging nodes only grow, the receive count rises by exactly
   * the number of new flood copies, and at most one message goes out per
   * message handled.
   */
  lemma {:induction false} DrainInvariants(me: NodeId, s: NodeState, ms: seq<Message>)
    ensures var t := Drain(me, s, ms).state;
      && t.sending == s.sending
      && s.repliedMessages <= t.repliedMessages
      && s.repliedNodes <= t.repliedNodes
      && t.recvCount == s.recvCount + NewFloods(me, ms)
    ensures |Drain(me, s, ms).outs| <= |ms|
  {
    if ms != [] {
      var before := Drain(me, s, ms[..|ms| - 1]);
      DrainInvariants(me, s, ms[..|ms| - 1]);
      ReceiveMonotone(me, before.state, ms[|ms| - 1]);
    }
  }

  /** One step never touches `sending`, only adds marks and acknowledging nodes, and counts only a new flood copy. */
  lemma ReceiveMonotone(me: NodeId, s: NodeState, m: Message)
    ensures var t := Receive(me, s, m).state;
      && t.sending == s.sending
      && s.repliedMessages <= t.repliedMessages
      && s.repliedNodes <= t.repliedNodes
      && t.recvCount == s.recvCount + (if !m.isReply && me !in m.handlers then 1 else 0)
  {
  }
}
