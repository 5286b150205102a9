# Wireless sensor network flood-and-reply protocol, in Dafny

This project models the core of a small wireless sensor network simulator.
Nodes sit at positions in the plane, each with a radio radius and a power
budget. A shared medium carries every broadcast to the nodes it reaches. Each
node runs an activation, `action2`, that does four things:

1. finishes its own flood once enough nodes have acknowledged it;
2. takes the next outbound message;
3. retransmits its flood and every reply it is relaying;
4. drains its receive queue, handling each message as follows:
   - a **reply** walks its recorded path back towards the flood's originator, one hop per node;
   - a **flood copy** is forwarded only along the majority path, the last hop seen most often for its origin;
   - each node answers a flood once, with the forwarded copy turned into a reply with its path reversed.

The model is written in the source's own form:

- Messages are values.
- The protocol state transitions are pure functions (`Protocol`).
- The node, the medium, the node manager and the network are classes whose methods update their fields in place (`Wsn`).
- Each node method is proved against the protocol functions.
- The bystander's snapshot classifier is a pure function (`Bystander`).

Files:

- `wrappers.dfy`: `Option`.
- `ordered_dict.dfy`: an insertion-ordered dictionary with distinct keys. It stands for the node's `reply_queue` Python dict, whose iteration order is the order in which replies are retransmitted.
- `message.dfy`: the message value: group uuid, reply flag, payload, handler path.
- `radio.dfy`: the medium's reach probability `1 - d²/(r1·r2)`.
- `protocol.dfy`: one drain step for a reply and for a flood copy, the activation phases, the drain as a fold, and the properties the protocol promises.
- `wsn.dfy`: the classes `WsnMedium`, `WsnNode`, `WsnNodeManager` and `Wsn`.
- `bystander.dfy`: `extract_node_info`.

Modelling choices:

- **Messages.** `src/wsn/message.py` defines a `NormalMessage` with only `data`, `handlers`, `handle` and `source`. The node and medium code use `uuid`, `is_reply`, `register` and `copy`, which only the archived message class (`archive/16130120191_罗阳豪/wsn/message.py`) defines. The model uses one message value with all four fields:
  - `register` is the same append as `handle`;
  - `copy` is value semantics, since the archived `copy` copies the handler list.
- **Keys.** The dictionary keys `f'{uuid}-{origin}'` become pairs. `str(node_id)` keys become the ids themselves.
- **`replied_messages`.** It holds two kinds of string: `uuid-origin` for a relayed reply and the bare uuid for an answered flood. They become the two cases of `Mark`.
- **Draws and fresh uuids.**
  - The medium's Bernoulli draw is the oracle `trial(k, i)`: the outcome for the i-th node of the list during the k-th broadcast. A draw with probability 1 always succeeds.
  - The fresh uuid that `uuid4()` gives a new flood is a parameter of `Action2`.
  - The multithreading flag is a parameter of `Action2`.
  - The node thread's liveness is a parameter of `IsAlive`.
  - The per-node `start`/`stop` outcomes are parameters of `StartAll`/`StopAll`.
- **Node ids.** They are unbounded integers. Coordinates, radii and power are reals, and comparisons are exact.
- **Send log.** A ghost log `sendCalls` records every message handed to `send`, so the activation can state what it transmitted and in which order. A ghost counter `spent` counts the sends that passed the power gate. Each such send costs exactly `pc_per_send`, so the methods state power as the old power less `pc_per_send` per counted send. Only counted sends reach the medium. The energy total in `src/main.py:74-76` sums total power less power over the nodes, which is `pc_per_send` per counted send when power starts at total power.
- **Self-delivery.** A node's broadcasts reach the node itself: with a positive radius its own distance is 0, so `p = 1`. Copies of its own sends therefore join the receive queue while it drains. With every message handled, the drain hands back at most one message, and that message is strictly lighter under a weight. So the drain ends, and `Action2` states the drained sequence as the initial queue followed by such own copies. This argument, like every contract of an activation, takes the activation to run alone, as the single-thread scheduler runs them.
- **Stale supersession.** Suppose a stored reply has a longer path than an incoming reply for the same (uuid, origin). Then `src/wsn/node.py:275-276` removes the stored entry and drops the incoming reply (`continue`): the incoming reply is neither relayed nor stored.
- **Node status.** `EnumNodeStatus` (`src/wsn/node.py:18-20`) has only `STOPPED` and `RUNNING`. A `send` without enough power spends nothing and broadcasts nothing, then calls `stop()` (`src/wsn/node.py:135-141`).
  - When the node's thread is not running, `stop()` returns at once (`src/wsn/node.py:102-104`). In single-thread mode `is_alive` is true whatever the thread does (`src/wsn/node.py:364`), so the node is still drawn as alive and its activations go on.
  - In multi-thread mode `stop()` sets `thread_cnt = 'stop'` (`src/wsn/node.py:107`). The thread loop exits before the next activation (`src/wsn/node.py:146-148`), `is_alive` turns false (`src/wsn/node.py:364`), and the bystander draws the node as dead (`src/bystander/core.py:192-194`).
  - The model covers the activation only: the failed send is "power unchanged, nothing spread", and the thread's end is the `threadRunning` parameter of `IsAlive`.

## Model

| member | source | states |
|---|---|---|
| `OrderedDict.Get` | src/wsn/node.py:271-274 | `dict.get`: a value exactly when the key is present, a value stored under that key, and with distinct keys the value of that key's entry |
| `OrderedDict.Values` | src/wsn/node.py:260 | iteration over the dict yields the values in entry order, one per entry |
| `OrderedDict.Put` | src/wsn/node.py:293 | `reply_queue[k] = v`: afterwards `k` maps to `v` and every other key is unchanged; an existing key keeps its position, a new key is appended last |
| `OrderedDict.Remove` | src/wsn/node.py:275 | `reply_queue.pop(k)`: afterwards `k` is absent and every other key maps as before; when `k` was present exactly its entry is cut out, the others keeping their order; otherwise the table is unchanged |
| `Messages.NewMessage` | src/wsn/message.py:25-31 | a new message has exactly one handler, its source, and the given uuid, flag and payload |
| `Messages.Source` | src/wsn/message.py:39-41 | the first handler: the path is the source followed by the nodes that handled the copy since; `NewMessage` sets it and `Handle` keeps it |
| `Messages.Handle` | src/wsn/message.py:33-37 | `handle` appends the id at the end: one handler longer, all earlier handlers kept, source, payload, uuid and flag unchanged |
| `Messages.Reverse` | src/wsn/node.py:319 | `handlers[::-1]`: the same length, position k holding the element at position n-1-k |
| `Radio.DistanceSquared` | src/wsn/medium.py:27 | the squared distance is never negative and is 0 for a point and itself |
| `Radio.ReachProbability` | src/wsn/medium.py:29-37 | the success probability is at most 1, and is 0 whenever `r1 * r2 <= 0` |
| `Radio.ReachableIff` | src/wsn/medium.py:34-41 | a target gets a draw exactly when `r1 * r2 > 0` and `d² < r1 * r2` |
| `Radio.ReachSymmetric` | src/wsn/medium.py:27-37 | the success probability is the same from source to target as from target to source |
| `Radio.SelfReachCertain` | src/wsn/medium.py:25-37 | a node with a positive radius reaches itself with probability exactly 1 |
| `Protocol.CompletionClears` | src/wsn/node.py:239-241 | when completion is due (a flood in flight, enough distinct acknowledgers) `sending` is cleared and `replied_nodes` emptied, nothing else touched; otherwise nothing changes |
| `Protocol.DequeueTakesHead` | src/wsn/node.py:250-255 | with nothing in flight and a non-empty queue exactly the head is taken; a prebuilt message is used as is, a payload becomes a non-reply flood with the fresh uuid whose only handler is the node; otherwise queue and `sending` are unchanged |
| `Protocol.TransmissionsCover` | src/wsn/node.py:257-262 | the retransmission phase sends `sending` first, if any, then each stored reply in table order, once each; every stored reply is among them |
| `Protocol.ConsumeHop` | src/wsn/node.py:284 | `handlers.pop(1)`: one handler shorter, the origin kept, the hops after the consumed one kept, all other fields unchanged |
| `Protocol.MaxTally` | src/wsn/node.py:311 | `max(*values + [0])`: at least every tally, equal to one of them when there is any, 0 for no tallies |
| `Protocol.PrimaryIsMax` | src/wsn/node.py:311 | the majority-path test used by the model is exactly "the tally equals the maximum tally" |
| `Protocol.AsReply` | src/wsn/node.py:318-319 | the answer to a flood is flagged as a reply, keeps uuid and payload, and its path is the flood's path reversed hop by hop, so it runs from the last handler back to the origin |
| `Protocol.ReceiveShrinks` | src/wsn/node.py:265-321 | whatever one drain step retransmits weighs strictly less than the message it handled, so the drain terminates despite self-delivery |
| `Protocol.StaleReplySuperseded` | src/wsn/node.py:271-276 | a reply whose stored counterpart has a longer path removes that entry, leaves every other entry and all other state unchanged, and is neither sent nor stored; the new table is the old one with that key removed, order kept |
| `Protocol.UnroutedReplyIgnored` | src/wsn/node.py:278-282 | a reply with fewer than 2 handlers, or whose next hop is another node, changes nothing and sends nothing |
| `Protocol.RoutedReplyRelayed` | src/wsn/node.py:284-293 | an addressed reply is sent with exactly its next hop removed; if it acknowledges the node's own flood its origin joins `replied_nodes` and nothing else changes, otherwise only the marks and the reply table change: its mark is recorded and it is stored under (uuid, origin) unless already relayed, all other entries unchanged; the new table is exactly the old one, or the old one with that entry put in |
| `Protocol.RelayedReplyStoredOnce` | src/wsn/node.py:291-293 | once a (uuid, origin) has been relayed, later replies for it never overwrite the stored entry |
| `Protocol.SelfLoopSuppressed` | src/wsn/node.py:297-298 | a flood copy that already lists the node changes nothing and sends nothing |
| `Protocol.ArrivalTallied` | src/wsn/node.py:300-308 | a new flood copy raises `recv_count` by one and exactly the tally of its (origin, last hop) by one; every other tally is unchanged |
| `Protocol.MajorityGate` | src/wsn/node.py:311-314 | a new flood copy is sent exactly when its tally is at least every tally from its origin (ties included), and then with the node appended; a rejected copy stores nothing |
| `Protocol.AcceptedFloodAnswered` | src/wsn/node.py:316-321 | an accepted flood with a new uuid records the uuid and stores, under (uuid, node), the forwarded copy flagged as a reply with its path reversed: from the node back to the origin; the new table is the old one with that entry put in |
| `Protocol.AnsweredFloodNotAnsweredAgain` | src/wsn/node.py:317 | a flood whose uuid was answered before changes neither the reply table nor the marks |
| `Protocol.ReplayedArrivals` | src/wsn/node.py:300-308 | n replays of the same new arrival raise its tally and `recv_count` by n and no other tally |
| `Protocol.ReceiveMonotone` | src/wsn/node.py:265-321 | one drain step never touches `sending`, only adds marks and acknowledging nodes, and counts only a new flood copy |
| `Protocol.DrainInvariants` | src/wsn/node.py:265-321 | over a whole drain `sending` is untouched, marks and acknowledging nodes only grow, `recv_count` rises by the number of new flood copies, and at most one message goes out per message handled |
| `Wsn.WsnMedium.constructor` | src/wsn/medium.py:18-19 | a new medium is not yet wired to a manager and has carried no broadcast |
| `Wsn.WsnMedium.Delivers` | src/wsn/medium.py:34-46 | a target gets a copy only with a positive probability; with probability 1 it always does; otherwise it does exactly when its draw succeeds |
| `Wsn.WsnMedium.Spread` | src/wsn/medium.py:21-49 | every node of the list, the source included, gets one copy appended exactly when it is reachable and its draw succeeds; nothing else changes |
| `Wsn.SelfDeliveryCertain` | src/wsn/medium.py:25-46 | a node with a positive radius always receives its own broadcast |
| `Wsn.DeliveryNeedsReach` | src/wsn/medium.py:34-46 | a delivery implies `r1 * r2 > 0` and `d² < r1 * r2`, and that the target reaches the source as well |
| `Wsn.WsnNode.constructor` | src/wsn/node.py:55-79 | a new node has full power, empty queues and tables, no flood in flight and a threshold of 0 |
| `Wsn.WsnNode.Send` | src/wsn/node.py:132-141 | with `power - pc_per_send >= 0` power drops by exactly `pc_per_send` and the message is spread once; otherwise power and every queue are unchanged; the gated sends are counted, so power is the old power less `pc_per_send` per counted send; each queue, this node's and the peers', gains at most this message; power stays non-negative |
| `Wsn.WsnNode.Broadcast` | src/wsn/node.py:137 | the medium spreads the message once: each peer gets one copy appended exactly when reachable with a successful draw, and this node's own queue gains at most that copy |
| `Wsn.WsnNode.ReceiveReply` | src/wsn/node.py:268-293 | the reply branch changes the protocol state exactly as `ReplyStep` and sends exactly what it returns; each queue gains at most that message; power is the old power less `pc_per_send` per gated send |
| `Wsn.WsnNode.RecordReply` | src/wsn/node.py:287-293 | the acknowledgement or relay bookkeeping of an addressed reply, as `Relay` |
| `Wsn.WsnNode.ReceiveForward` | src/wsn/node.py:295-321 | the flood branch changes the protocol state exactly as `ForwardStep` and sends exactly what it returns; each queue gains at most that message; power is the old power less `pc_per_send` per gated send |
| `Wsn.WsnNode.TallyArrival` | src/wsn/node.py:300-308 | counting and tallying an arrival in place is `Arrive`, including creation of missing tables and tallies |
| `Wsn.WsnNode.RecordAnswer` | src/wsn/node.py:316-321 | storing the answer to an accepted flood in place is `Accept` |
| `Wsn.WsnNode.Transmit` | src/wsn/node.py:257-262 | the sends are exactly `sending`, if any, then every stored reply in order; what this node and every peer hear back is among those sends; power is the old power less `pc_per_send` per gated send, at most one per send |
| `Wsn.WsnNode.SendTracked` | src/wsn/node.py:132-141 | one send within a phase: every queue has still heard back only what the phase sent, and power still accounts for each gated send |
| `Wsn.WsnNode.TransmitStored` | src/wsn/node.py:260-262 | every stored reply sent once in table order, tracked as `SendTracked` |
| `Wsn.WsnNode.ReceiveOne` | src/wsn/node.py:265-268 | one drain step dispatches on the reply flag and is `Receive`; each queue gains at most what it sends; power accounts for the gated sends |
| `Wsn.WsnNode.TakeAndReceive` | src/wsn/node.py:265-268 | `recv_queue.pop(0)` then one drain step: the head is handled as `Receive` and the rest of the queue, and each other node's queue, gains at most the message that step sent; power accounts for the gated sends |
| `Wsn.WsnNode.DrainQueue` | src/wsn/node.py:265-321 | the drain empties the queue; the state and the sends are `Drain` over the messages handled, which are the queue followed by own broadcasts heard back; every other node's queue gains only this drain's sends; power is the old power less `pc_per_send` per gated send |
| `Wsn.WsnNode.DequeueNext` | src/wsn/node.py:250-255 | dequeuing in place is `Dequeue` |
| `Wsn.WsnNode.TransmitAndDrain` | src/wsn/node.py:257-321 | retransmission then drain: sends are the transmissions followed by the drain's outputs; every other node's queue gains only those sends; power is the old power less `pc_per_send` per gated send |
| `Wsn.WsnNode.Action2` | src/wsn/node.py:233-321 | in single-thread mode a due completion returns `True` with everything but `sending` and `replied_nodes` untouched; otherwise the activation returns None, signals exactly on a due completion, and its state, send queue and sends are completion, dequeue, transmissions and the drain in that order; the receive queue ends empty; power is the old power less exactly `pc_per_send` per gated send, with no more gated sends than sends, and stays non-negative; every other node's queue gains only messages this activation sent |
| `Wsn.IndexOf` | src/wsn/node.py:394-396 | `list.index`: the first position holding the id, or None exactly when the id is absent |
| `Wsn.IdsOf` | src/wsn/node.py:399 | the ids of a node list, position by position |
| `Wsn.WithIds` | src/wsn/node.py:403 | the filtered list holds exactly the nodes of the list whose id is listed, and keeps list order: with increasing ids along the list, the result's ids increase too |
| `Wsn.WsnNodeManager.constructor` | src/wsn/node.py:377-379 | a new manager has no nodes |
| `Wsn.WsnNodeManager.AddNode` | src/wsn/node.py:381-390 | the new node is appended, with id 1 in an empty manager and the last id plus one otherwise, so ids stay strictly increasing |
| `Wsn.WsnNodeManager.GetNodesId` | src/wsn/node.py:398-399 | the ids in list order, strictly increasing in a well-formed manager |
| `Wsn.WsnNodeManager.PopNode` | src/wsn/node.py:392-396 | the first node with the id is removed and returned, the rest kept in order; with no such node the list is unchanged and None is returned; afterwards no node has that id |
| `Wsn.WsnNodeManager.GetNodesXy` | src/wsn/node.py:401-406 | the coordinates of all nodes, or of the listed ids' nodes, in list order |
| `Wsn.WsnNodeManager.NodeNum` | src/wsn/node.py:408-410 | the number of nodes, one per id |
| `Wsn.AndFoldAll` | src/wsn/core.py:31-34 | `reduce(and_, [True] + results)` is true exactly when every result is |
| `Wsn.Wsn.constructor` | src/wsn/core.py:19-23 | the medium reaches the manager and the manager hands out the medium; no nodes yet |
| `Wsn.Wsn.FoldAll` | src/wsn/core.py:31-34 | the `res` loop and `reduce(and_, res)`: true exactly when the action is true for every node of the list |
| `Wsn.Wsn.StartAll` | src/wsn/core.py:25-34 | the result is true exactly when every node's start outcome is true, so true on an empty network |
| `Wsn.Wsn.StopAll` | src/wsn/core.py:36-45 | the result is true exactly when every node's stop outcome is true, so true on an empty network |
| `Bystander.IsAlive` | src/wsn/node.py:362-364 | in single-thread mode a node is always alive |
| `Bystander.ExtractNodeInfo` | src/bystander/core.py:176-202 | the snapshot copies id, position, radius, power and total power |
| `Bystander.Classification` | src/bystander/core.py:189-200 | node 1 is the red source whatever its state; another node that is not alive is black dead even if it has received; a live node is blue received exactly when it has counted an arrival, else green alive; the pair is always one of the four |
| `Bystander.SingleThreadNeverDead` | src/bystander/core.py:192-194 | in single-thread mode no node is drawn as dead |

## Left out

- Threads and the run loop: `WsnNode.start`, `stop`, `thread_main`, the thread part of `is_alive`, the `node_want_to_terminate` event, `Bystander.start`, `stop` and `thread_main`. Their subject is concurrency. The completion signal is the `signalled` result of `Action2`, and the per-node start/stop results are oracles of `StartAll`/`StopAll`, which therefore state the combined result but not the order of the calls. The resets that `start` performs on the receive queue and count are part of the thread lifecycle and are not modelled.
- Wsn.WsnNode.Send: the failure branch's call to `stop()` is not modelled. It affects only the thread: in multi-thread mode the thread ends after the current activation, which the model leaves to the `threadRunning` parameter of `IsAlive`. Within the activation the branch is "power unchanged, nothing spread".
- Wsn.WsnMedium.Spread: the random seed and the Bernoulli draw are the oracle `trial`. Probabilities are not modelled beyond which targets get a draw and the certainty of `p = 1`. The distance is used squared, without the square root of `linalg.norm`.
- Wsn.WsnNode.Action2: it states that the messages drained beyond the initial queue, and the messages any other node's queue gained, are among the node's sends of this activation. It does not state which of them, nor which sends were the gated ones. That depends on power and draws, which `Send` and `Spread` state per call. An activation is modelled as running alone, as under the single-thread scheduler (`archive/16130120191_罗阳豪/utils/scheduler.py:289-291`). In multi-thread mode every node's `thread_main` (`src/wsn/node.py:143-150`) runs `action2` concurrently, and another node's `spread` can append to this node's queue while it drains. The model does not capture such overlap. For overlapping activations, the claims about the drained sequence and other nodes' queues, and the termination of the drain, are not stated.
- `action0`, `action1` and `action3`: alternative activations that the node does not install (`self.action = self.action2`). `action3` also stores uuids and node ids in one `replied_nodes` set.
- Logging, the `node_tag` strings, `echo`, the `xy` property (it is read directly as `(x, y)`), matplotlib drawing and animation export in the bystander, `main.py` wiring, `generate_rand_nodes`, and the scheduler. `src/main.py:7` imports a `schedule` that no file under `src/` defines; the archived tree defines one (`Scheduler.schedule` in `archive/16130120191_罗阳豪/utils/scheduler.py`), which drives the activations and the thread lifecycle and is not modelled.
- Messages.NewMessage: a uuid given to the archived constructor is normalised through `UUID(...)`. The model takes the uuid string as given, and the fresh uuid of an empty one as a parameter.
- Floating point: coordinates, radii and power are exact reals, so rounding in `1 - d*d/r1/r2` or in the power subtraction is not modelled.
