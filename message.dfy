/**
 * The message value the flood-and-reply protocol exchanges: a group
 * identifier shared by a flood and all its replies, a reply flag, an opaque
 * payload and the handler path (index 0 is the originating node, each node
 * that forwards the copy appends itself).
 *
 * A message is a value: the medium hands every target an independent copy,
 * so a later change to one copy never shows in another.
 */
module Messages {

  type NodeId = int

  /** The group identifier (a UUID string in the source). */
  type Uuid = string

  /** A handler path is never empty: every message is built with its source as handler 0. */
  type Path = p: seq<NodeId> | |p| > 0 witness [0]

  datatype Message = Message(uuid: Uuid, isReply: bool, data: string, handlers: Path)

  /** `NormalMessage(uuid, is_reply, data, source)`; a fresh uuid is supplied by the caller. */
  function NewMessage(uuid: Uuid, isReply: bool, data: string, source: NodeId): (m: Message)
    ensures |m.handlers| == 1 && Source(m) == source
    ensures m.uuid == uuid && m.isReply == isReply && m.data == data
  {
    Message(uuid, isReply, data, [source])
  }

  /** The `source` property: the node that created the message. */
  function Source(m: Message): (s: NodeId)
    ensures [s] + m.handlers[1..] == m.handlers
  {
    m.handlers[0]
  }

  /** The last handler: the node this copy was heard from. */
  function LastHop(m: Message): NodeId {
    m.handlers[|m.handlers| - 1]
  }

  /** `handle(node_id)` (called `register` by the node): record one more handler at the end. */
  function Handle(m: Message, id: NodeId): (r: Message)
    ensures |r.handlers| == |m.handlers| + 1
    ensures r.handlers[..|m.handlers|] == m.handlers && LastHop(r) == id
    ensures Source(r) == Source(m) && r.data == m.data
    ensures r.uuid == m.uuid && r.isReply == m.isReply
  {
    m.(handlers := m.handlers + [id])
  }

  /** The slice `handlers[::-1]`. */
  function Reverse(p: seq<NodeId>): (r: seq<NodeId>)
    ensures |r| == |p|
    ensures forall k :: 0 <= k < |p| ==> r[k] == p[|p| - 1 - k]
  {
    if p == [] then [] else Reverse(p[1..]) + [p[0]]
  }
}
