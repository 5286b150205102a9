/**
 * The network objects: the medium that carries broadcasts, the nodes that
 * run the flood-and-reply protocol, the manager that owns the node list and
 * the network that wires them together.
 *
 * They refer to each other in a cycle (a node holds the medium, the medium
 * reaches the manager, the manager holds the nodes), so they share one
 * module. The medium reaches the manager through a field that the network's
 * constructor sets, as the source reaches it through the network object.
 */
module Wsn {
  import opened Wrappers
  import opened Messages
  import opened Radio
  import opened Protocol
  import OrderedDict

  // =====================================================================
  // WsnMedium (src/wsn/medium.py)
  // =====================================================================

  class WsnMedium {
    /** `self.wsn.node_manager`: null until the network wires it. */
    var nodeManager: WsnNodeManager?

    /**
     * The Bernoulli draw: `trial(k, i)` is the outcome of the draw for the
     * i-th node of the list during the k-th call of `Spread`. It is only
     * consulted when the success probability lies strictly between 0 and 1.
     */
    const trial: (nat, nat) -> bool

    /** How many broadcasts the medium has carried; it indexes the draws. */
    var spreadCount: nat

    constructor (trial: (nat, nat) -> bool)
      ensures nodeManager == null && spreadCount == 0 && this.trial == trial
    {
      nodeManager := null;
      this.trial := trial;
      spreadCount := 0;
    }

    /** Whether the k-th broadcast of `source` puts a copy into the queue of `target`, the i-th node. */
    predicate Delivers(source: WsnNode, target: WsnNode, k: nat, i: nat): (d: bool)
      ensures var p := ReachProbability(source.x, source.y, source.r, target.x, target.y, target.r);
        && (d ==> p > 0.0)
        && (p == 1.0 ==> d)
        && (0.0 < p < 1.0 ==> (d <==> trial(k, i)))
    {
      var p := ReachProbability(source.x, source.y, source.r, target.x, target.y, target.r);
      p > 0.0 && (p == 1.0 || trial(k, i))
    }

    /**
     * `spread`: every node of the list, the source included, whose success
     * probability is positive and whose draw succeeds gets one copy of `m`
     * at the end of its receive queue. Nothing else changes.
     */
    method Spread(source: WsnNode, m: Message)
      requires nodeManager != null && nodeManager.Valid()
      modifies this`spreadCount, nodeManager.nodes`recvQueue
      ensures spreadCount == old(spreadCount) + 1
      ensures forall i :: 0 <= i < |nodeManager.nodes| ==>
        nodeManager.nodes[i].recvQueue ==
          old(nodeManager.nodes[i].recvQueue)
          + (if Delivers(source, nodeManager.nodes[i], old(spreadCount), i) then [m] else [])
    {
      var nodes := nodeManager.nodes;
      for i := 0 to |nodes|
        invariant spreadCount == old(spreadCount)
        invariant forall j :: 0 <= j < i ==>
          nodes[j].recvQueue == old(nodes[j].recvQueue) + (if Delivers(source, nodes[j], spreadCount, j) then [m] else [])
        invariant forall j :: i <= j < |nodes| ==> nodes[j].recvQueue == old(nodes[j].recvQueue)
      {
        var target := nodes[i];
        var p := ReachProbability(source.x, source.y, source.r, target.x, target.y, target.r);
        if p <= 0.0 {
          continue;
        }
        // A draw with success probability 1 always succeeds.
        var success := p == 1.0 || trial(spreadCount, i);
        if success {
          forall j | 0 <= j < |nodes| && j != i ensures nodes[j] != target {
            if j < i { assert nodes[j].nodeId < nodes[i].nodeId; } else { assert nodes[i].nodeId < nodes[j].nodeId; }
          }
          target.recvQueue := target.recvQueue + [m];
        }
      }
      spreadCount := spreadCount + 1;
    }
  }

  /** A node with a positive radius always hears its own broadcasts. */
  lemma SelfDeliveryCertain(medium: WsnMedium, node: WsnNode, k: nat, i: nat)
    requires node.r > 0.0
    ensures medium.Delivers(node, node, k, i)
  {
    SelfReachCertain(node.x, node.y, node.r);
  }

  /** Delivery needs both radii of the same sign and `d² < r1 * r2`; this condition is symmetric in the two nodes. */
  lemma DeliveryNeedsReach(medium: WsnMedium, source: WsnNode, target: WsnNode, k: nat, i: nat)
    requires medium.Delivers(source, target, k, i)
    ensures source.r * target.r > 0.0
    ensures DistanceSquared(source.x, source.y, target.x, target.y) < source.r * target.r
    ensures Reachable(target.x, target.y, target.r, source.x, source.y, source.r)
  {
    ReachableIff(source.x, source.y, source.r, target.x, target.y, target.r);
    ReachSymmetric(source.x, source.y, source.r, target.x, target.y, target.r);
  }

  // =====================================================================
  // WsnNode (src/wsn/node.py:12-364)
  // =====================================================================

  /** The receive queue after a step grew by nothing, or by the one message the step handed to `send`. */
  predicate Echo(before: seq<Message>, after: seq<Message>, out: Option<Message>) {
    after == before || (out.Some? && after == before + [out.value])
  }

  /** Every message past `base` in `all` is one of `sent`: the node's own broadcasts that it heard back. */
  ghost predicate OwnEchoes(base: seq<Message>, all: seq<Message>, sent: seq<Message>) {
    base <= all && forall k :: |base| <= k < |all| ==> all[k] in sent
  }

  lemma OwnEchoesChain(a: seq<Message>, b: seq<Message>, c: seq<Message>, s1: seq<Message>, s2: seq<Message>)
    requires OwnEchoes(a, b, s1) && OwnEchoes(b, c, s2)
    ensures OwnEchoes(a, c, s1 + s2)
  {
  }

  lemma EchoStep(base: seq<Message>, done: seq<Message>, rest: seq<Message>, after: seq<Message>,
                 sent: seq<Message>, out: Option<Message>)
    requires OwnEchoes(base, done + rest, sent)
    requires Echo(rest, after, out)
    ensures OwnEchoes(base, done + after, sent + ToSeq(out))
  {
    if after != rest {
      assert done + after == (done + rest) + [out.value];
    }
  }

  /** A step that echoed at most `out` into a queue extends what the queue has heard back by `out`. */
  lemma EchoExtend(base: seq<Message>, mid: seq<Message>, after: seq<Message>, sent: seq<Message>, out: Option<Message>)
    requires OwnEchoes(base, mid, sent) && Echo(mid, after, out)
    ensures OwnEchoes(base, after, sent + ToSeq(out))
  {
  }

  /**
   * The power a node has left after `spent - spent0` sends passed the gate,
   * out of `calls - calls0` calls: exactly `pc` less per such send.
   */
  predicate Spending(pc: real, power0: real, spent0: int, calls0: int, power: real, spent: int, calls: int) {
    spent0 <= spent && spent - spent0 <= calls - calls0 && power == power0 - (spent - spent0) as real * pc
  }

  lemma SpendingChain(pc: real, p0: real, s0: int, c0: int, p1: real, s1: int, c1: int, p2: real, s2: int, c2: int)
    requires Spending(pc, p0, s0, c0, p1, s1, c1) && Spending(pc, p1, s1, c1, p2, s2, c2)
    ensures Spending(pc, p0, s0, c0, p2, s2, c2)
  {
    assert (s2 - s0) as real * pc == (s1 - s0) as real * pc + (s2 - s1) as real * pc;
  }

  /**
   * One turn of the drain loop, on values: handling the head `m` of the queue
   * `q` extends the drain by one step, keeps every message past the initial
   * queue one of the node's own sends, and lowers the queue's weight.
   */
  lemma DrainAdvance(me: NodeId, s0: NodeState, q0: seq<Message>, c0: seq<Message>,
                     processed: seq<Message>, q: seq<Message>, m: Message,
                     before: NodeState, sentBefore: seq<Message>, after: seq<Message>, calls: seq<Message>)
    requires q != [] && m == q[0]
    requires before == Drain(me, s0, processed).state
    requires sentBefore == c0 + Drain(me, s0, processed).outs
    requires OwnEchoes(q0, processed + q, sentBefore[|c0|..])
    requires calls == sentBefore + ToSeq(Receive(me, before, m).out)
    requires Echo(q[1..], after, Receive(me, before, m).out)
    ensures Receive(me, before, m).state == Drain(me, s0, processed + [m]).state
    ensures calls == c0 + Drain(me, s0, processed + [m]).outs
    ensures OwnEchoes(q0, (processed + [m]) + after, calls[|c0|..])
    ensures QueueWeight(me, after) < QueueWeight(me, q)
  {
    var out := Receive(me, before, m).out;
    DrainSnoc(me, s0, processed, m);
    ReceiveShrinks(me, before, m);
    WeightAdvance(me, q, after, out);
    EchoAdvance(q0, c0, processed, q, sentBefore, after, calls, out);
  }

  /** The queue loses its head and gains at most `out`, which is lighter than the head. */
  lemma WeightAdvance(me: NodeId, q: seq<Message>, after: seq<Message>, out: Option<Message>)
    requires q != [] && Echo(q[1..], after, out)
    requires out.Some? ==> Weight(me, out.value) < Weight(me, q[0])
    ensures QueueWeight(me, after) < QueueWeight(me, q)
  {
    if out.Some? && after != q[1..] {
      QueueWeightAppend(me, q[1..], out.value);
    }
  }

  /** The messages past the initial queue stay among the sends when the head is moved to the handled part. */
  lemma EchoAdvance(q0: seq<Message>, c0: seq<Message>, processed: seq<Message>, q: seq<Message>,
                    sentBefore: seq<Message>, after: seq<Message>, calls: seq<Message>, out: Option<Message>)
    requires q != [] && |c0| <= |sentBefore|
    requires OwnEchoes(q0, processed + q, sentBefore[|c0|..])
    requires calls == sentBefore + ToSeq(out)
    requires Echo(q[1..], after, out)
    ensures |c0| <= |calls|
    ensures OwnEchoes(q0, (processed + [q[0]]) + after, calls[|c0|..])
  {
    assert processed + q == (processed + [q[0]]) + q[1..];
    assert calls[|c0|..] == sentBefore[|c0|..] + ToSeq(out);
    EchoStep(q0, processed + [q[0]], q[1..], after, sentBefore[|c0|..], out);
  }

  /** One more retransmission: the send log and what was sent grow by `vals[i]`. */
  lemma TransmitAdvance(c0: seq<Message>, sent: seq<Message>, vals: seq<Message>, i: nat,
                        calls: seq<Message>, callsAfter: seq<Message>)
    requires i < |vals|
    requires calls == c0 + vals[..i]
    requires callsAfter == calls + [vals[i]]
    ensures callsAfter == c0 + vals[..i + 1]
    ensures sent + vals[..i + 1] == (sent + vals[..i]) + [vals[i]]
  {
    assert vals[..i + 1] == vals[..i] + [vals[i]];
  }

  class WsnNode {
    const nodeId: NodeId
    const x: real
    const y: real
    const r: real
    const totalPower: real
    const pcPerSend: real
    const medium: WsnMedium

    var power: real
    var recvQueue: seq<Message>
    var sendQueue: seq<Outbound>
    var replyQueue: ReplyTable
    var recvCount: nat
    var repliedNodes: set<NodeId>
    var sending: Option<Message>
    var teammateNum: real
    var routeLen: map<NodeId, Tallies>
    var repliedMessages: set<Mark>

    /** Every message handed to `send`, in order, whether or not the power allowed it out. */
    ghost var sendCalls: seq<Message>
    /** How many of those calls passed the power gate, each spending `pcPerSend`. */
    ghost var spent: nat

    constructor (nodeId: NodeId, x: real, y: real, r: real, totalPower: real, pcPerSend: real, medium: WsnMedium)
      ensures this.nodeId == nodeId && this.x == x && this.y == y && this.r == r
      ensures this.totalPower == totalPower && this.pcPerSend == pcPerSend && this.medium == medium
      ensures power == totalPower && recvQueue == [] && sendQueue == [] && teammateNum == 0.0
      ensures State() == NodeState(None, {}, [], 0, map[], {})
      ensures sendCalls == [] && spent == 0
    {
      this.nodeId := nodeId;
      this.x := x;
      this.y := y;
      this.r := r;
      this.power := totalPower;
      this.totalPower := totalPower;
      this.pcPerSend := pcPerSend;
      this.recvQueue := [];
      this.sendQueue := [];
      this.replyQueue := [];
      this.recvCount := 0;
      this.repliedNodes := {};
      this.sending := None;
      this.medium := medium;
      this.routeLen := map[];
      this.teammateNum := 0.0;
      this.repliedMessages := {};
      this.sendCalls := [];
      this.spent := 0;
    }

    /** The medium can reach the node list, and the list is well formed. */
    ghost predicate Wired()
      reads medium`nodeManager, {medium.nodeManager}`nodes
    {
      medium.nodeManager != null && medium.nodeManager.Valid()
    }

    /** The nodes a broadcast of this node can reach. */
    ghost function Peers(): seq<WsnNode>
      reads medium`nodeManager, {medium.nodeManager}`nodes
      requires medium.nodeManager != null
    {
      medium.nodeManager.nodes
    }

    /** The protocol fields, as the value the protocol functions work on. */
    function State(): NodeState
      reads this`sending, this`repliedNodes, this`replyQueue, this`recvCount, this`routeLen, this`repliedMessages
    {
      NodeState(sending, repliedNodes, replyQueue, recvCount, routeLen, repliedMessages)
    }

    /** Since a state with power `power0`, `spent0` gated sends and `calls0` calls, each gated send cost `pcPerSend`. */
    ghost predicate SpentSince(power0: real, spent0: int, calls0: int)
      reads this`power, this`spent, this`sendCalls
    {
      Spending(pcPerSend, power0, spent0, calls0, power, spent, |sendCalls|)
    }

    /**
     * `send`: with enough power left, spend `pcPerSend` and broadcast `m`
     * once; otherwise spend nothing and broadcast nothing.
     */
    method Send(m: Message)
      requires Wired()
      modifies this`power, this`sendCalls, this`spent, medium`spreadCount, medium.nodeManager.nodes`recvQueue
      ensures Wired() && Peers() == old(Peers())
      ensures sendCalls == old(sendCalls) + [m]
      ensures spent == old(spent) + (if old(power) - pcPerSend >= 0.0 then 1 else 0)
      ensures SpentSince(old(power), old(spent), |old(sendCalls)|)
      ensures old(power) - pcPerSend >= 0.0 ==>
        && power == old(power) - pcPerSend
        && medium.spreadCount == old(medium.spreadCount) + 1
        && forall i :: 0 <= i < |Peers()| ==>
             Peers()[i].recvQueue ==
               old(Peers()[i].recvQueue)
               + (if medium.Delivers(this, Peers()[i], old(medium.spreadCount), i) then [m] else [])
      ensures !(old(power) - pcPerSend >= 0.0) ==>
        && power == old(power)
        && medium.spreadCount == old(medium.spreadCount)
        && forall i :: 0 <= i < |Peers()| ==> Peers()[i].recvQueue == old(Peers()[i].recvQueue)
      ensures old(power) >= 0.0 ==> power >= 0.0
      ensures Echo(old(recvQueue), recvQueue, Some(m))
      ensures forall n :: n in Peers() ==> Echo(old(n.recvQueue), n.recvQueue, Some(m))
    {
      sendCalls := sendCalls + [m];
      if power - pcPerSend >= 0.0 {
        power := power - pcPerSend;
        spent := spent + 1;
        Broadcast(m);
      }
    }

    /** `medium.spread(self, m)`, stated for this node's peers and for its own queue. */
    method Broadcast(m: Message)
      requires Wired()
      modifies medium`spreadCount, medium.nodeManager.nodes`recvQueue
      ensures Wired() && Peers() == old(Peers())
      ensures medium.spreadCount == old(medium.spreadCount) + 1
      ensures forall i :: 0 <= i < |Peers()| ==>
        Peers()[i].recvQueue ==
          old(Peers()[i].recvQueue)
          + (if medium.Delivers(this, Peers()[i], old(medium.spreadCount), i) then [m] else [])
      ensures Echo(old(recvQueue), recvQueue, Some(m))
      ensures forall n :: n in Peers() ==> Echo(old(n.recvQueue), n.recvQueue, Some(m))
    {
      medium.Spread(this, m);
      if this in medium.nodeManager.nodes {
        var i :| 0 <= i < |medium.nodeManager.nodes| && medium.nodeManager.nodes[i] == this;
      }
    }

    /**
     * `send` within a phase that began with this node's queue at `own`, the
     * peers' queues at `base`, power `power0`, `spent0` gated sends and
     * `calls0` calls, and that has sent `sent` since: the queues have still
     * heard back only what was sent, and the power still accounts for every
     * gated send.
     */
    method SendTracked(m: Message, ghost own: seq<Message>, ghost base: map<WsnNode, seq<Message>>,
                       ghost sent: seq<Message>, ghost power0: real, ghost spent0: int, ghost calls0: int)
      requires Wired()
      requires OwnEchoes(own, recvQueue, sent)
      requires forall n :: n in Peers() ==> n in base && OwnEchoes(base[n], n.recvQueue, sent)
      requires SpentSince(power0, spent0, calls0)
      modifies this`power, this`sendCalls, this`spent, medium`spreadCount, medium.nodeManager.nodes`recvQueue
      ensures Wired() && Peers() == old(Peers())
      ensures sendCalls == old(sendCalls) + [m]
      ensures OwnEchoes(own, recvQueue, sent + [m])
      ensures forall n :: n in Peers() ==> n in base && OwnEchoes(base[n], n.recvQueue, sent + [m])
      ensures SpentSince(power0, spent0, calls0)
      ensures old(power) >= 0.0 ==> power >= 0.0
    {
      Send(m);
      EchoExtend(own, old(recvQueue), recvQueue, sent, Some(m));
      SpendingChain(pcPerSend, power0, spent0, calls0, old(power), old(spent), |old(sendCalls)|,
                    power, spent, |sendCalls|);
      forall n | n in Peers()
        ensures OwnEchoes(base[n], n.recvQueue, sent + [m])
      {
        EchoExtend(base[n], old(n.recvQueue), n.recvQueue, sent, Some(m));
      }
    }

    /**
     * The reply branch of the drain for one inbound reply `m`: supersede a
     * stored longer reply, ignore a reply not addressed to this node, else
     * consume the hop and relay it.
     */
    method ReceiveReply(m: Message)
      requires Wired() && m.isReply
      modifies this`replyQueue, this`repliedNodes, this`repliedMessages
      modifies this`power, this`sendCalls, this`spent, medium`spreadCount, medium.nodeManager.nodes`recvQueue
      ensures Wired() && Peers() == old(Peers())
      ensures State() == ReplyStep(nodeId, old(State()), m).state
      ensures sendCalls == old(sendCalls) + ToSeq(ReplyStep(nodeId, old(State()), m).out)
      ensures Echo(old(recvQueue), recvQueue, ReplyStep(nodeId, old(State()), m).out)
      ensures forall n :: n in Peers() ==> Echo(old(n.recvQueue), n.recvQueue, ReplyStep(nodeId, old(State()), m).out)
      ensures SpentSince(old(power), old(spent), |old(sendCalls)|)
      ensures old(power) >= 0.0 ==> power >= 0.0
    {
      var key := KeyOf(m);
      var stored := OrderedDict.Get(replyQueue, key);
      if stored.Some? && |stored.value.handlers| > |m.handlers| {
        replyQueue := OrderedDict.Remove(replyQueue, key);
        return;
      }
      if |m.handlers| < 2 {
        return;
      }
      if nodeId != m.handlers[1] {
        return;
      }
      var c := ConsumeHop(m);
      Send(c);
      RecordReply(c);
    }

    /**
     * The bookkeeping for a reply `c` that has reached this node, its hop
     * consumed and retransmitted: count its origin as having acknowledged
     * this node's flood, or else store it for relaying once per (uuid, origin).
     */
    method RecordReply(c: Message)
      modifies this`replyQueue, this`repliedNodes, this`repliedMessages
      ensures State() == Relay(old(State()), c).state
    {
      if sending.Some? && !sending.value.isReply && c.uuid == sending.value.uuid {
        repliedNodes := repliedNodes + {c.handlers[0]};
        return;
      }
      if ReplyMark(c.uuid, c.handlers[0]) !in repliedMessages {
        repliedMessages := repliedMessages + {ReplyMark(c.uuid, c.handlers[0])};
        replyQueue := OrderedDict.Put(replyQueue, KeyOf(c), c);
      }
    }

    /**
     * The flood branch of the drain for one inbound flood copy `m`: drop a
     * copy this node has handled, else tally it and, on the majority path,
     * accept it with this node appended.
     */
    method ReceiveForward(m: Message)
      requires Wired() && !m.isReply
      modifies this`recvCount, this`routeLen, this`replyQueue, this`repliedMessages
      modifies this`power, this`sendCalls, this`spent, medium`spreadCount, medium.nodeManager.nodes`recvQueue
      ensures Wired() && Peers() == old(Peers())
      ensures State() == ForwardStep(nodeId, old(State()), m).state
      ensures sendCalls == old(sendCalls) + ToSeq(ForwardStep(nodeId, old(State()), m).out)
      ensures Echo(old(recvQueue), recvQueue, ForwardStep(nodeId, old(State()), m).out)
      ensures forall n :: n in Peers() ==> Echo(old(n.recvQueue), n.recvQueue, ForwardStep(nodeId, old(State()), m).out)
      ensures SpentSince(old(power), old(spent), |old(sendCalls)|)
      ensures old(power) >= 0.0 ==> power >= 0.0
    {
      if nodeId in m.handlers {
        return;
      }
      var routes := TallyArrival(m);
      // The source compares the tally with the maximum of all tallies and 0 (see PrimaryIsMax).
      if IsPrimary(routes, LastHop(m)) {
        var fwd := Handle(m, nodeId);
        Send(fwd);
        RecordAnswer(fwd);
      }
    }

    /** Count an arrival and raise the tally of its (origin, last hop); return the origin's tallies. */
    method TallyArrival(m: Message) returns (routes: Tallies)
      modifies this`recvCount, this`routeLen
      ensures State() == Arrive(old(State()), m)
      ensures routes == RoutesFrom(State(), Source(m)) && LastHop(m) in routes
    {
      ghost var s := old(State());
      recvCount := recvCount + 1;
      var origin, hop := m.handlers[0], m.handlers[|m.handlers| - 1];
      if origin !in routeLen {
        routeLen := routeLen[origin := map[]];
      }
      // The source updates the inner table through an alias; here it is copied out and written back.
      routes := routeLen[origin];
      if hop !in routes {
        routes := routes[hop := 0];
      }
      routes := routes[hop := routes[hop] + 1];
      routeLen := routeLen[origin := routes];
      assert routes == RoutesFrom(s, origin)[hop := Tally(s, origin, hop) + 1];
      assert routeLen == s.routeLen[origin := routes];
    }

    /**
     * The bookkeeping for an accepted flood `fwd`, this node already appended
     * and the copy retransmitted: the first time its uuid is seen, store the
     * reply to it.
     */
    method RecordAnswer(fwd: Message)
      modifies this`replyQueue, this`repliedMessages
      ensures State() == Accept(old(State()), fwd).state
    {
      if GroupMark(fwd.uuid) !in repliedMessages {
        // The stored reply is the same message, flagged and with its path reversed.
        var reply := AsReply(fwd);
        repliedMessages := repliedMessages + {GroupMark(fwd.uuid)};
        replyQueue := OrderedDict.Put(replyQueue, KeyOf(reply), reply);
      }
    }

    /**
     * The retransmission phase: `sending`, if any, once, then every stored
     * reply once, in the reply table's order.
     */
    method Transmit()
      requires Wired()
      modifies this`power, this`sendCalls, this`spent, medium`spreadCount, medium.nodeManager.nodes`recvQueue
      ensures Wired() && Peers() == old(Peers())
      ensures sendCalls == old(sendCalls) + Transmissions(sending, replyQueue)
      ensures OwnEchoes(old(recvQueue), recvQueue, Transmissions(sending, replyQueue))
      ensures forall n :: n in Peers() ==> OwnEchoes(old(n.recvQueue), n.recvQueue, Transmissions(sending, replyQueue))
      ensures SpentSince(old(power), old(spent), |old(sendCalls)|)
      ensures old(power) >= 0.0 ==> power >= 0.0
    {
      ghost var base := map n | n in Peers() :: n.recvQueue;
      if sending.Some? {
        SendTracked(sending.value, old(recvQueue), base, [], old(power), old(spent), |old(sendCalls)|);
      }
      TransmitStored(old(recvQueue), base, ToSeq(sending), old(power), old(spent), |old(sendCalls)|);
    }

    /** Every stored reply once, in the reply table's order, tracked as `SendTracked` is. */
    method TransmitStored(ghost own: seq<Message>, ghost base: map<WsnNode, seq<Message>>,
                          ghost sent: seq<Message>, ghost power0: real, ghost spent0: int, ghost calls0: int)
      requires Wired()
      requires OwnEchoes(own, recvQueue, sent)
      requires forall n :: n in Peers() ==> n in base && OwnEchoes(base[n], n.recvQueue, sent)
      requires SpentSince(power0, spent0, calls0)
      modifies this`power, this`sendCalls, this`spent, medium`spreadCount, medium.nodeManager.nodes`recvQueue
      ensures Wired() && Peers() == old(Peers())
      ensures sendCalls == old(sendCalls) + OrderedDict.Values(replyQueue)
      ensures OwnEchoes(own, recvQueue, sent + OrderedDict.Values(replyQueue))
      ensures forall n :: n in Peers() ==> n in base && OwnEchoes(base[n], n.recvQueue, sent + OrderedDict.Values(replyQueue))
      ensures SpentSince(power0, spent0, calls0)
      ensures old(power) >= 0.0 ==> power >= 0.0
    {
      ghost var vals := OrderedDict.Values(replyQueue);
      var i := 0;
      while i < |replyQueue|
        invariant 0 <= i <= |replyQueue|
        invariant Wired() && Peers() == old(Peers())
        invariant sendCalls == old(sendCalls) + vals[..i]
        invariant OwnEchoes(own, recvQueue, sent + vals[..i])
        invariant forall n :: n in Peers() ==> n in base && OwnEchoes(base[n], n.recvQueue, sent + vals[..i])
        invariant SpentSince(power0, spent0, calls0)
        invariant old(power) >= 0.0 ==> power >= 0.0
      {
        ghost var calls := sendCalls;
        SendTracked(replyQueue[i].value, own, base, sent + vals[..i], power0, spent0, calls0);
        TransmitAdvance(old(sendCalls), sent, vals, i, calls, sendCalls);
        i := i + 1;
      }
      assert vals[..i] == vals;
    }

    /** One step of the drain: handle `m` in the branch its reply flag selects. */
    method ReceiveOne(m: Message)
      requires Wired()
      modifies this`recvCount, this`routeLen, this`replyQueue, this`repliedNodes, this`repliedMessages
      modifies this`power, this`sendCalls, this`spent, medium`spreadCount, medium.nodeManager.nodes`recvQueue
      ensures Wired() && Peers() == old(Peers())
      ensures State() == Receive(nodeId, old(State()), m).state
      ensures sendCalls == old(sendCalls) + ToSeq(Receive(nodeId, old(State()), m).out)
      ensures Echo(old(recvQueue), recvQueue, Receive(nodeId, old(State()), m).out)
      ensures forall n :: n in Peers() ==> Echo(old(n.recvQueue), n.recvQueue, Receive(nodeId, old(State()), m).out)
      ensures SpentSince(old(power), old(spent), |old(sendCalls)|)
      ensures old(power) >= 0.0 ==> power >= 0.0
    {
      if m.isReply {
        ReceiveReply(m);
      } else {
        ReceiveForward(m);
      }
    }

    /** Take the message at the front of the receive queue and handle it. */
    method TakeAndReceive() returns (m: Message)
      requires Wired() && recvQueue != []
      modifies this`recvCount, this`routeLen, this`replyQueue, this`repliedNodes, this`repliedMessages
      modifies this`recvQueue, this`power, this`sendCalls, this`spent, medium`spreadCount, medium.nodeManager.nodes`recvQueue
      ensures Wired() && Peers() == old(Peers())
      ensures m == old(recvQueue)[0]
      ensures State() == Receive(nodeId, old(State()), m).state
      ensures sendCalls == old(sendCalls) + ToSeq(Receive(nodeId, old(State()), m).out)
      ensures Echo(old(recvQueue)[1..], recvQueue, Receive(nodeId, old(State()), m).out)
      ensures forall n :: n in Peers() && n != this ==> Echo(old(n.recvQueue), n.recvQueue, Receive(nodeId, old(State()), m).out)
      ensures SpentSince(old(power), old(spent), |old(sendCalls)|)
      ensures old(power) >= 0.0 ==> power >= 0.0
    {
      m := recvQueue[0];
      recvQueue := recvQueue[1..];
      ReceiveOne(m);
    }

    /**
     * The drain: take messages from the front of the receive queue and
     * handle each until the queue is empty. Copies of this node's own
     * broadcasts join the queue as it drains; each is strictly lighter than
     * the message whose handling sent it, so the drain ends.
     */
    method DrainQueue() returns (ghost processed: seq<Message>)
      requires Wired()
      modifies this`recvCount, this`routeLen, this`replyQueue, this`repliedNodes, this`repliedMessages
      modifies this`recvQueue, this`power, this`sendCalls, this`spent, medium`spreadCount, medium.nodeManager.nodes`recvQueue
      ensures Wired() && Peers() == old(Peers())
      ensures recvQueue == []
      ensures State() == Drain(nodeId, old(State()), processed).state
      ensures sendCalls == old(sendCalls) + Drain(nodeId, old(State()), processed).outs
      ensures OwnEchoes(old(recvQueue), processed, sendCalls[|old(sendCalls)|..])
      ensures forall n :: n in Peers() && n != this ==> OwnEchoes(old(n.recvQueue), n.recvQueue, sendCalls[|old(sendCalls)|..])
      ensures SpentSince(old(power), old(spent), |old(sendCalls)|)
      ensures old(power) >= 0.0 ==> power >= 0.0
    {
      processed := [];
      while recvQueue != []
        invariant Wired() && Peers() == old(Peers())
        invariant State() == Drain(nodeId, old(State()), processed).state
        invariant sendCalls == old(sendCalls) + Drain(nodeId, old(State()), processed).outs
        invariant OwnEchoes(old(recvQueue), processed + recvQueue, sendCalls[|old(sendCalls)|..])
        invariant forall n :: n in Peers() && n != this ==> OwnEchoes(old(n.recvQueue), n.recvQueue, sendCalls[|old(sendCalls)|..])
        invariant SpentSince(old(power), old(spent), |old(sendCalls)|)
        invariant old(power) >= 0.0 ==> power >= 0.0
        decreases QueueWeight(nodeId, recvQueue)
      {
        ghost var q, before, sentBefore := recvQueue, State(), sendCalls;
        label L:
        var m := TakeAndReceive();
        DrainAdvance(nodeId, old(State()), old(recvQueue), old(sendCalls), processed, q, m,
                     before, sentBefore, recvQueue, sendCalls);
        SpendingChain(pcPerSend, old(power), old(spent), |old(sendCalls)|, old@L(power), old@L(spent), |sentBefore|,
                      power, spent, |sendCalls|);
        ghost var out := Receive(nodeId, before, m).out;
        assert sendCalls[|old(sendCalls)|..] == sentBefore[|old(sendCalls)|..] + ToSeq(out);
        forall n | n in Peers() && n != this
          ensures OwnEchoes(old(n.recvQueue), n.recvQueue, sendCalls[|old(sendCalls)|..])
        {
          EchoExtend(old(n.recvQueue), old@L(n.recvQueue), n.recvQueue, sentBefore[|old(sendCalls)|..], out);
        }
        processed := processed + [m];
      }
      assert processed + recvQueue == processed;
    }

    /** With nothing in flight, the head of `sendQueue` becomes `sending`; a raw payload becomes a fresh flood. */
    method DequeueNext(freshUuid: Uuid)
      modifies this`sendQueue, this`sending
      ensures Dequeued(sendQueue, sending) == Dequeue(nodeId, freshUuid, old(sendQueue), old(sending))
    {
      if sendQueue != [] && sending.None? {
        var next := sendQueue[0];
        sendQueue := sendQueue[1..];
        match next
        case Payload(d) => sending := Some(NewMessage(freshUuid, false, d, nodeId));
        case Prebuilt(m) => sending := Some(m);
      }
    }

    /** The retransmission phase followed by the drain. */
    method TransmitAndDrain() returns (ghost processed: seq<Message>)
      requires Wired()
      modifies this`recvCount, this`routeLen, this`replyQueue, this`repliedNodes, this`repliedMessages
      modifies this`recvQueue, this`power, this`sendCalls, this`spent, medium`spreadCount, medium.nodeManager.nodes`recvQueue
      ensures Wired() && Peers() == old(Peers())
      ensures recvQueue == []
      ensures State() == Drain(nodeId, old(State()), processed).state
      ensures sendCalls == old(sendCalls) + Transmissions(old(sending), old(replyQueue)) + Drain(nodeId, old(State()), processed).outs
      ensures OwnEchoes(old(recvQueue), processed, sendCalls[|old(sendCalls)|..])
      ensures forall n :: n in Peers() && n != this ==> OwnEchoes(old(n.recvQueue), n.recvQueue, sendCalls[|old(sendCalls)|..])
      ensures SpentSince(old(power), old(spent), |old(sendCalls)|)
      ensures old(power) >= 0.0 ==> power >= 0.0
    {
      ghost var q0, c0 := recvQueue, sendCalls;
      Transmit();
      ghost var q1, c1 := recvQueue, sendCalls;
      label L:
      processed := DrainQueue();
      assert sendCalls[|c0|..] == c1[|c0|..] + sendCalls[|c1|..];
      OwnEchoesChain(q0, q1, processed, c1[|c0|..], sendCalls[|c1|..]);
      SpendingChain(pcPerSend, old(power), old(spent), |c0|, old@L(power), old@L(spent), |c1|,
                    power, spent, |sendCalls|);
      forall n | n in Peers() && n != this
        ensures OwnEchoes(old(n.recvQueue), n.recvQueue, sendCalls[|c0|..])
      {
        OwnEchoesChain(old(n.recvQueue), old@L(n.recvQueue), n.recvQueue, c1[|c0|..], sendCalls[|c1|..]);
      }
    }

    /**
     * `action2`, one activation of the node:
     *   1. a flood of this node's own that enough nodes have acknowledged is
     *      complete: `sending` and `repliedNodes` are cleared, and in
     *      single-thread mode the activation ends there, returning `true`
     *      (in multi-thread mode the main thread is signalled instead);
     *   2. with nothing in flight, the head of `sendQueue` becomes `sending`
     *      (a raw payload as a fresh flood under `freshUuid`);
     *   3. `sending` and every stored reply are retransmitted once;
     *   4. the receive queue is drained, one `Receive` step per message, in
     *      arrival order, including copies of this node's own broadcasts
     *      that arrive while it drains.
     * `processed` is the sequence of messages the drain handled: the queue as
     * the activation found it, followed by such own copies.
     */
    method Action2(multithreading: bool, freshUuid: Uuid)
      returns (result: Option<bool>, signalled: bool, ghost processed: seq<Message>)
      requires Wired()
      modifies this`sending, this`repliedNodes, this`sendQueue, this`replyQueue, this`recvQueue
      modifies this`recvCount, this`routeLen, this`repliedMessages, this`power, this`sendCalls, this`spent
      modifies medium`spreadCount, medium.nodeManager.nodes`recvQueue
      ensures Wired() && Peers() == old(Peers())
      ensures old(power) >= 0.0 ==> power >= 0.0
      ensures SpentSince(old(power), old(spent), |old(sendCalls)|)
      ensures forall n :: n in Peers() && n != this ==> OwnEchoes(old(n.recvQueue), n.recvQueue, sendCalls[|old(sendCalls)|..])
      ensures CompletionDue(old(State()), teammateNum) && !multithreading ==>
        && result == Some(true) && !signalled
        && State() == Complete(old(State()), teammateNum)
        && sendQueue == old(sendQueue) && recvQueue == old(recvQueue)
        && power == old(power) && sendCalls == old(sendCalls)
        && forall n :: n in Peers() ==> n.recvQueue == old(n.recvQueue)
      ensures !(CompletionDue(old(State()), teammateNum) && !multithreading) ==>
        var s1 := Complete(old(State()), teammateNum);
        var dq := Dequeue(nodeId, freshUuid, old(sendQueue), s1.sending);
        var s2 := s1.(sending := dq.sending);
        var run := Drain(nodeId, s2, processed);
        && result == None
        && signalled == CompletionDue(old(State()), teammateNum)
        && sendQueue == dq.sendQueue
        && recvQueue == []
        && State() == run.state
        && sendCalls == old(sendCalls) + Transmissions(s2.sending, s2.replyQueue) + run.outs
        && OwnEchoes(old(recvQueue), processed, sendCalls[|old(sendCalls)|..])
    {
      processed := [];
      signalled := false;
      // 1. Completion of this node's own flood.
      if sending.Some? && !sending.value.isReply && |repliedNodes| as real >= teammateNum {
        sending := None;
        repliedNodes := {};
        if multithreading {
          signalled := true;
        } else {
          return Some(true), signalled, processed;
        }
      }
      // 2. Dequeue.
      DequeueNext(freshUuid);
      // 3. Retransmission and 4. drain.
      processed := TransmitAndDrain();
      result := None;
    }
  }

  // =====================================================================
  // WsnNodeManager (src/wsn/node.py:367-410)
  // =====================================================================

  /** `list.index`: the first position of `x` in `s`, or None where the source raises `ValueError`. */
  function IndexOf(s: seq<NodeId>, x: NodeId): (r: Option<nat>)
    ensures r.None? <==> x !in s
    ensures r.Some? ==> r.value < |s| && s[r.value] == x && x !in s[..r.value]
  {
    if s == [] then None
    else if s[0] == x then Some(0)
    else
      match IndexOf(s[1..], x)
      case None => None
      case Some(k) =>
        assert s[1..][..k] == s[1..k + 1];
        Some(k + 1)
  }

  /** The ids of `nodes`, in order (ids never change, so this reads nothing). */
  function IdsOf(nodes: seq<WsnNode>): (ids: seq<NodeId>)
    ensures |ids| == |nodes| && forall i :: 0 <= i < |nodes| ==> ids[i] == nodes[i].nodeId
  {
    seq(|nodes|, i requires 0 <= i < |nodes| => nodes[i].nodeId)
  }

  /** The nodes whose id is listed, in list order. */
  function WithIds(nodes: seq<WsnNode>, ids: seq<NodeId>): (r: seq<WsnNode>)
    ensures |r| <= |nodes|
    ensures forall k :: 0 <= k < |r| ==> r[k] in nodes && r[k].nodeId in ids
    ensures forall k :: 0 <= k < |nodes| && nodes[k].nodeId in ids ==> nodes[k] in r
    ensures (forall i, j :: 0 <= i < j < |nodes| ==> nodes[i].nodeId < nodes[j].nodeId) ==>
      forall p, q :: 0 <= p < q < |r| ==> r[p].nodeId < r[q].nodeId
  {
    if nodes == [] then []
    else
      var rest := WithIds(nodes[1..], ids);
      WithIdsStep(nodes, ids, rest);
      (if nodes[0].nodeId in ids then [nodes[0]] else []) + rest
  }

  /** The selection from `nodes[1..]`, with the head put in front when its id is asked for. */
  lemma WithIdsStep(nodes: seq<WsnNode>, ids: seq<NodeId>, rest: seq<WsnNode>)
    requires nodes != [] && |rest| <= |nodes| - 1
    requires forall k :: 0 <= k < |rest| ==> rest[k] in nodes[1..] && rest[k].nodeId in ids
    requires forall k :: 1 <= k < |nodes| && nodes[k].nodeId in ids ==> nodes[k] in rest
    requires (forall i, j :: 1 <= i < j < |nodes| ==> nodes[i].nodeId < nodes[j].nodeId) ==>
      forall p, q :: 0 <= p < q < |rest| ==> rest[p].nodeId < rest[q].nodeId
    ensures var r := (if nodes[0].nodeId in ids then [nodes[0]] else []) + rest;
      && |r| <= |nodes|
      && (forall k :: 0 <= k < |r| ==> r[k] in nodes && r[k].nodeId in ids)
      && (forall k :: 0 <= k < |nodes| && nodes[k].nodeId in ids ==> nodes[k] in r)
      && ((forall i, j :: 0 <= i < j < |nodes| ==> nodes[i].nodeId < nodes[j].nodeId) ==>
            forall p, q :: 0 <= p < q < |r| ==> r[p].nodeId < r[q].nodeId)
  {
    if forall i, j :: 0 <= i < j < |nodes| ==> nodes[i].nodeId < nodes[j].nodeId {
      HeadBelowRest(nodes, rest);
    }
  }

  /** In a list with strictly increasing ids, the head's id is below that of any node taken from the tail. */
  lemma HeadBelowRest(nodes: seq<WsnNode>, rest: seq<WsnNode>)
    requires nodes != []
    requires forall i, j :: 0 <= i < j < |nodes| ==> nodes[i].nodeId < nodes[j].nodeId
    requires forall k :: 0 <= k < |rest| ==> rest[k] in nodes[1..]
    ensures forall k :: 0 <= k < |rest| ==> nodes[0].nodeId < rest[k].nodeId
  {
    forall k | 0 <= k < |rest| ensures nodes[0].nodeId < rest[k].nodeId {
      var j :| 0 <= j < |nodes[1..]| && nodes[1..][j] == rest[k];
      assert nodes[j + 1] == rest[k];
    }
  }

  /** Removing one node from a list with positive, strictly increasing ids keeps it so and drops its id. */
  lemma RemoveAtKeepsOrder(s: seq<WsnNode>, k: nat)
    requires k < |s|
    ensures var r := s[..k] + s[k + 1..];
      forall i :: 0 <= i < |r| ==> r[i] == (if i < k then s[i] else s[i + 1])
    ensures var r := s[..k] + s[k + 1..];
      (forall i, j :: 0 <= i < j < |s| ==> s[i].nodeId < s[j].nodeId) ==>
        && (forall i, j :: 0 <= i < j < |r| ==> r[i].nodeId < r[j].nodeId)
        && (forall i :: 0 <= i < |r| ==> r[i].nodeId != s[k].nodeId)
  {
    var r := s[..k] + s[k + 1..];
    assert forall i :: 0 <= i < |r| ==> r[i] == (if i < k then s[i] else s[i + 1]);
  }

  class WsnNodeManager {
    var nodes: seq<WsnNode>

    /** `self.wsn.medium`, handed to every node the manager creates. */
    const medium: WsnMedium

    /** Ids are positive and strictly increasing along the list, as `AddNode` leaves them. */
    ghost predicate Valid()
      reads this`nodes
    {
      && (forall i :: 0 <= i < |nodes| ==> nodes[i].nodeId >= 1)
      && (forall i, j :: 0 <= i < j < |nodes| ==> nodes[i].nodeId < nodes[j].nodeId)
    }

    constructor (medium: WsnMedium)
      ensures nodes == [] && this.medium == medium && Valid()
    {
      nodes := [];
      this.medium := medium;
    }

    /** `add_node`: a fresh node with id 1 in an empty manager, else the last id plus one, appended. */
    method AddNode(x: real, y: real, r: real, power: real, pcPerSend: real) returns (node: WsnNode)
      modifies this`nodes
      ensures fresh(node) && nodes == old(nodes) + [node]
      ensures node.nodeId == if old(nodes) == [] then 1 else old(nodes)[|old(nodes)| - 1].nodeId + 1
      ensures node.x == x && node.y == y && node.r == r && node.medium == medium
      ensures node.totalPower == power && node.power == power && node.pcPerSend == pcPerSend
      ensures node.State() == NodeState(None, {}, [], 0, map[], {})
      ensures node.recvQueue == [] && node.sendQueue == [] && node.sendCalls == []
      ensures old(Valid()) ==> Valid()
      ensures old(Valid()) ==> forall n :: n in old(nodes) ==> n.nodeId < node.nodeId
    {
      var newId := if |nodes| > 0 then nodes[|nodes| - 1].nodeId + 1 else 1;
      node := new WsnNode(newId, x, y, r, power, pcPerSend, medium);
      nodes := nodes + [node];
    }

    /** `get_nodes_id`: the ids, in list order. */
    function GetNodesId(): (ids: seq<NodeId>)
      reads this`nodes
      ensures |ids| == |nodes| && forall i :: 0 <= i < |nodes| ==> ids[i] == nodes[i].nodeId
      ensures Valid() ==> forall i, j :: 0 <= i < j < |ids| ==> ids[i] < ids[j]
    {
      IdsOf(nodes)
    }

    /**
     * `pop_node`: remove and return the first node with that id, or return
     * None and leave the list as it is when no node has it.
     */
    method PopNode(id: NodeId) returns (popped: Option<WsnNode>)
      modifies this`nodes
      ensures id !in old(GetNodesId()) ==> popped == None && nodes == old(nodes)
      ensures id in old(GetNodesId()) ==>
        var k := IndexOf(old(GetNodesId()), id).value;
        && popped == Some(old(nodes)[k])
        && nodes == old(nodes)[..k] + old(nodes)[k + 1..]
      ensures popped.Some? ==> popped.value.nodeId == id && popped.value in old(nodes)
      ensures old(Valid()) ==> Valid() && id !in GetNodesId()
    {
      var found := IndexOf(GetNodesId(), id);
      match found
      case None =>
        popped := None;
      case Some(k) =>
        popped := Some(nodes[k]);
        RemoveAtKeepsOrder(nodes, k);
        nodes := nodes[..k] + nodes[k + 1..];
    }

    /** The nodes `get_nodes_xy` reports: all of them, or those whose id is listed. */
    function Selected(nodesId: Option<seq<NodeId>>): (r: seq<WsnNode>)
      reads this`nodes
    {
      match nodesId
      case None => nodes
      case Some(ids) => WithIds(nodes, ids)
    }

    /** `get_nodes_xy`: the coordinates of the selected nodes, in list order. */
    method GetNodesXy(nodesId: Option<seq<NodeId>>) returns (xys: seq<(real, real)>)
      ensures |xys| == |Selected(nodesId)|
      ensures forall i :: 0 <= i < |xys| ==> xys[i] == (Selected(nodesId)[i].x, Selected(nodesId)[i].y)
    {
      var chosen := if nodesId.None? then nodes else WithIds(nodes, nodesId.value);
      xys := [];
      for i := 0 to |chosen|
        invariant |xys| == i
        invariant forall j :: 0 <= j < i ==> xys[j] == (chosen[j].x, chosen[j].y)
      {
        xys := xys + [(chosen[i].x, chosen[i].y)];
      }
    }

    /** `node_num`: the number of managed nodes. */
    function NodeNum(): (n: nat)
      reads this`nodes
      ensures n == |GetNodesId()|
    {
      |nodes|
    }
  }

  // =====================================================================
  // Wsn (src/wsn/core.py)
  // =====================================================================

  /** `reduce(and_, [acc] + bs)`. */
  function AndFold(acc: bool, bs: seq<bool>): bool {
    if bs == [] then acc else AndFold(acc && bs[0], bs[1..])
  }

  /** The fold is true exactly when its seed and every element are. */
  lemma {:induction false} AndFoldAll(acc: bool, bs: seq<bool>)
    ensures AndFold(acc, bs) <==> acc && forall i :: 0 <= i < |bs| ==> bs[i]
  {
    if bs != [] {
      AndFoldAll(acc && bs[0], bs[1..]);
      assert forall i :: 1 <= i < |bs| ==> bs[i] == bs[1..][i - 1];
    }
  }

  class Wsn {
    const medium: WsnMedium
    const nodeManager: WsnNodeManager

    /** The medium reaches this network's manager, which hands this network's medium to its nodes. */
    ghost predicate Valid()
      reads medium`nodeManager, nodeManager`nodes
    {
      medium.nodeManager == nodeManager && nodeManager.medium == medium && nodeManager.Valid()
    }

    constructor (trial: (nat, nat) -> bool)
      ensures Valid() && fresh(medium) && fresh(nodeManager)
      ensures nodeManager.nodes == [] && medium.trial == trial && medium.spreadCount == 0
    {
      var m := new WsnMedium(trial);
      medium := m;
      nodeManager := new WsnNodeManager(m);
      new;
      medium.nodeManager := nodeManager;
    }

    /**
     * `start_all`: whether every node started. `start` stands for the
     * per-node outcome; the calls themselves (in list order, none skipped
     * after a failure) start threads, which this model leaves out.
     */
    method StartAll(start: WsnNode -> bool) returns (ok: bool)
      ensures ok <==> forall i :: 0 <= i < |nodeManager.nodes| ==> start(nodeManager.nodes[i])
    {
      ok := FoldAll(start);
    }

    /** `stop_all`: the same fold over the per-node `stop` outcomes. */
    method StopAll(stop: WsnNode -> bool) returns (ok: bool)
      ensures ok <==> forall i :: 0 <= i < |nodeManager.nodes| ==> stop(nodeManager.nodes[i])
    {
      ok := FoldAll(stop);
    }

    /** The loop both operations share: collect every outcome after a leading `True`, then fold with `and`. */
    method FoldAll(act: WsnNode -> bool) returns (ok: bool)
      ensures ok <==> forall i :: 0 <= i < |nodeManager.nodes| ==> act(nodeManager.nodes[i])
    {
      var nodes := nodeManager.nodes;
      var res := [true];
      for i := 0 to |nodes|
        invariant |res| == i + 1 && res[0]
        invariant forall j :: 0 <= j < i ==> res[j + 1] == act(nodes[j])
      {
        res := res + [act(nodes[i])];
      }
      ok := AndFold(res[0], res[1..]);
      AndFoldAll(res[0], res[1..]);
      assert forall j :: 0 <= j < |nodes| ==> res[1..][j] == act(nodes[j]);
    }
  }
}
