/**
 * The bystander's per-node snapshot: the fields it draws and the
 * label/colour class of the node.
 */
module Bystander {
  import opened Messages
  import opened Wsn

  datatype NodeInfo = NodeInfo(
    nodeId: NodeId,
    xy: (real, real),
    r: real,
    power: real,
    totalPower: real,
    tag: string,     // the `label` entry
    color: string)

  /**
   * `WsnNode.is_alive`: always true in single-thread mode; in multi-thread
   * mode, whether the node's thread is running (a fact outside this model).
   */
  function IsAlive(multithreading: bool, threadRunning: bool): (alive: bool)
    ensures !multithreading ==> alive
  {
    !multithreading || threadRunning
  }

  /** `extract_node_info`: the snapshot of `node`, with `isAlive` standing for `node.is_alive`. */
  function ExtractNodeInfo(node: WsnNode, isAlive: bool): (info: NodeInfo)
    reads node`power, node`recvCount
    ensures info.nodeId == node.nodeId && info.xy == (node.x, node.y) && info.r == node.r
    ensures info.power == node.power && info.totalPower == node.totalPower
  {
    var (tag, color) :=
      if node.nodeId == 1 then ("source", "red")
      else if !isAlive then ("dead", "black")
      else if node.recvCount > 0 then ("received", "blue")
      else ("alive", "green");
    NodeInfo(node.nodeId, (node.x, node.y), node.r, node.power, node.totalPower, tag, color)
  }

  /** The four classes a snapshot can be in, each with its fixed colour. */
  predicate KnownClass(tag: string, color: string) {
    || (tag == "source" && color == "red")
    || (tag == "dead" && color == "black")
    || (tag == "received" && color == "blue")
    || (tag == "alive" && color == "green")
  }

  /**
   * The classification, stated by class: node 1 is the source whatever its
   * state; any other node that is not alive is dead even if it has received;
   * a live node is `received` exactly when it has counted an arrival.
   */
  lemma Classification(node: WsnNode, isAlive: bool)
    ensures var info := ExtractNodeInfo(node, isAlive);
      && KnownClass(info.tag, info.color)
      && (info.tag == "source" <==> node.nodeId == 1)
      && (info.tag == "dead" <==> node.nodeId != 1 && !isAlive)
      && (info.tag == "received" <==> node.nodeId != 1 && isAlive && node.recvCount > 0)
      && (info.tag == "alive" <==> node.nodeId != 1 && isAlive && node.recvCount == 0)
  {
  }

  /** In single-thread mode no node is ever drawn as dead. */
  lemma SingleThreadNeverDead(node: WsnNode, threadRunning: bool)
    ensures ExtractNodeInfo(node, IsAlive(false, threadRunning)).tag != "dead"
  {
  }
}
