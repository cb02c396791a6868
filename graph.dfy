/**
 * The Houdini node network the tools build into, as data. A node has a
 * type, the name it was created with and its parameter values; an input
 * connection maps (consumer, input) to the producer. `createNode` hands out
 * the next identifier, `setInput` overwrites one input, `destroy` removes a
 * node together with every connection that touches it.
 */
module Graph {

  /** A parameter value: the tools set strings and small integers. */
  datatype Value = Str(s: string) | Num(n: int)

  /**
   * An input of a node: by position (`setInput(i, …)`), or on the standard
   * surface by the input name passed to `inputNames().index(…)`.
   */
  datatype Slot = Index(i: nat) | Named(name: string)

  datatype Node = Node(kind: string, name: string, parms: map<string, Value>)

  datatype Net = Net(nodes: map<nat, Node>, wires: map<(nat, Slot), nat>, next: nat)

  /** Identifiers are below `next`, and every connection joins two existing nodes. */
  predicate Valid(g: Net) {
    && (forall id :: id in g.nodes ==> id < g.next)
    && (forall w :: w in g.wires ==> w.0 in g.nodes && g.wires[w] in g.nodes)
  }

  /** `createNode(kind, name)`: a new node without parameters set, under the next identifier. */
  function Create(g: Net, kind: string, name: string): Net {
    Net(g.nodes[g.next := Node(kind, name, map[])], g.wires, g.next + 1)
  }

  /** `node.parm(key).set(v)` */
  function WithParm(g: Net, id: nat, key: string, v: Value): Net {
    if id in g.nodes then
      var n := g.nodes[id];
      g.(nodes := g.nodes[id := n.(parms := n.parms[key := v])])
    else g
  }

  /** `consumer.setInput(slot, producer)`: the previous connection of that input is replaced. */
  function Connect(g: Net, consumer: nat, slot: Slot, producer: nat): Net {
    g.(wires := g.wires[(consumer, slot) := producer])
  }

  /** Input `slot` of `consumer` reads `producer`. */
  predicate Wired(g: Net, consumer: nat, slot: Slot, producer: nat) {
    (consumer, slot) in g.wires && g.wires[(consumer, slot)] == producer
  }

  /** `node.destroy()` */
  function Destroy(g: Net, id: nat): Net {
    Net(map n | n in g.nodes && n != id :: g.nodes[n],
        map w | w in g.wires && w.0 != id && g.wires[w] != id :: g.wires[w],
        g.next)
  }

  /** The contents of a subnet Houdini has just created: its default items, numbered from 0. */
  function Fresh(defaults: seq<Node>): Net {
    Net(map i | 0 <= i < |defaults| :: defaults[i], map[], |defaults|)
  }

  /** Changing the second of five entries written in a row is writing it changed in the first place. */
  lemma ReplaceSecond(m: map<nat, Node>, n: nat, a: Node, b: Node, c: Node, d: Node, e: Node, b2: Node)
    ensures m[n := a][n + 1 := b][n + 2 := c][n + 3 := d][n + 4 := e][n + 1 := b2]
         == m[n := a][n + 1 := b2][n + 2 := c][n + 3 := d][n + 4 := e]
  {
  }

  /** Creating a node adds exactly one node under a fresh identifier and touches nothing else. */
  lemma CreateSpec(g: Net, kind: string, name: string)
    ensures var r := Create(g, kind, name);
      && r.nodes.Keys == g.nodes.Keys + {g.next} && r.nodes[g.next] == Node(kind, name, map[])
      && (forall id :: id in g.nodes && id != g.next ==> r.nodes[id] == g.nodes[id])
      && r.next == g.next + 1 && r.wires == g.wires
  {
  }

  /** Setting a parameter changes that one value of that one node. */
  lemma WithParmSpec(g: Net, id: nat, key: string, v: Value)
    ensures var r := WithParm(g, id, key, v);
      && r.nodes.Keys == g.nodes.Keys && r.wires == g.wires && r.next == g.next
      && (id in g.nodes ==> r.nodes[id] == g.nodes[id].(parms := g.nodes[id].parms[key := v]))
      && (forall other :: other in g.nodes && other != id ==> r.nodes[other] == g.nodes[other])
  {
  }

  /** Connecting overwrites one input and keeps every other connection. */
  lemma ConnectSpec(g: Net, consumer: nat, slot: Slot, producer: nat)
    ensures var r := Connect(g, consumer, slot, producer);
      && r.nodes == g.nodes && r.next == g.next
      && (consumer, slot) in r.wires && r.wires[(consumer, slot)] == producer
      && (forall w :: w in g.wires && w != (consumer, slot) ==> w in r.wires && r.wires[w] == g.wires[w])
      && r.wires.Keys == g.wires.Keys + {(consumer, slot)}
  {
  }

  /** Destroying a node removes it and every connection into or out of it. */
  lemma DestroySpec(g: Net, id: nat)
    ensures var r := Destroy(g, id);
      && r.nodes.Keys == g.nodes.Keys - {id} && r.next == g.next
      && (forall n :: n in r.nodes ==> r.nodes[n] == g.nodes[n])
      && (forall w :: w in r.wires <==> w in g.wires && w.0 != id && g.wires[w] != id)
  {
  }

  lemma FreshSpec(defaults: seq<Node>)
    ensures var r := Fresh(defaults);
      && Valid(r) && r.next == |defaults| && r.wires == map[]
      && (forall i :: 0 <= i < |defaults| <==> i in r.nodes)
      && (forall i :: 0 <= i < |defaults| ==> r.nodes[i] == defaults[i])
  {
  }

  lemma CreateValid(g: Net, kind: string, name: string)
    requires Valid(g)
    ensures Valid(Create(g, kind, name))
  {
  }

  lemma ConnectValid(g: Net, consumer: nat, slot: Slot, producer: nat)
    requires Valid(g) && consumer in g.nodes && producer in g.nodes
    ensures Valid(Connect(g, consumer, slot, producer))
  {
  }

  lemma DestroyValid(g: Net, id: nat)
    requires Valid(g)
    ensures Valid(Destroy(g, id))
  {
  }

  /** The host network: the node container the tools call into. */
  class Network {
    var nodes: map<nat, Node>
    var wires: map<(nat, Slot), nat>
    var next: nat

    function State(): Net
      reads this
    {
      Net(nodes, wires, next)
    }

    /** A subnet just created by Houdini, holding its default items. */
    constructor (defaults: seq<Node>)
      ensures State() == Fresh(defaults)
    {
      var g := Fresh(defaults);
      nodes, wires, next := g.nodes, g.wires, g.next;
    }

    method CreateNode(kind: string, name: string) returns (id: nat)
      modifies this
      ensures id == old(next)
      ensures State() == Create(old(State()), kind, name)
    {
      id := next;
      var g := Create(State(), kind, name);
      nodes, wires, next := g.nodes, g.wires, g.next;
    }

    method SetParm(id: nat, key: string, v: Value)
      modifies this
      ensures State() == WithParm(old(State()), id, key, v)
    {
      var g := WithParm(State(), id, key, v);
      nodes, wires, next := g.nodes, g.wires, g.next;
    }

    method SetInput(consumer: nat, slot: Slot, producer: nat)
      modifies this
      ensures State() == Connect(old(State()), consumer, slot, producer)
    {
      wires := wires[(consumer, slot) := producer];
    }

    method DestroyNode(id: nat)
      modifies this
      ensures State() == Destroy(old(State()), id)
    {
      var g := Destroy(State(), id);
      nodes, wires, next := g.nodes, g.wires, g.next;
    }
  }
}
