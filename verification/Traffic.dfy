/** Packets on the links of the emulator, as values: where they are and how far they still have to go. */
module Traffic {
  import opened Graphs

  const LOCALHOST: nat := 0x7f00_0001

  /** What the emulator reads of a packet: its destination and its length in bytes. */
  datatype Packet = Packet(destIP: nat, destPort: nat, length: nat, body: seq<bv8>)

  datatype Item = Item(pkt: Packet, txTime: real)

  function Packets(q: seq<Item>): (p: seq<Packet>)
    ensures |p| == |q| && forall i :: 0 <= i < |q| ==> p[i] == q[i].pkt
  {
    seq(|q|, i requires 0 <= i < |q| => q[i].pkt)
  }

  function TotalLength(p: seq<Packet>): nat {
    if p == [] then 0 else p[0].length + TotalLength(p[1..])
  }

  lemma {:induction false} TotalLengthAppend(p: seq<Packet>, x: Packet)
    ensures TotalLength(p + [x]) == TotalLength(p) + x.length
  {
    if p != [] {
      assert (p + [x])[1..] == p[1..] + [x];
      TotalLengthAppend(p[1..], x);
    }
  }

  lemma PacketsNone()
    ensures Packets([]) == [] && TotalLength([]) == 0
  {
  }

  lemma PacketsAppend(q: seq<Item>, item: Item)
    ensures Packets(q + [item]) == Packets(q) + [item.pkt]
  {
  }

  lemma PacketsTail(q: seq<Item>)
    requires q != []
    ensures Packets(q) == [q[0].pkt] + Packets(q[1..]) && Packets(q[1..]) == Packets(q)[1..]
    ensures TotalLength(Packets(q)) == q[0].pkt.length + TotalLength(Packets(q[1..]))
  {
    assert Packets(q) == [q[0].pkt] + Packets(q[1..]);
  }

  // ---------- destinations ----------

  datatype Dest = Nowhere | Node(id: nat)

  /** The all-zero address stands for the local host. */
  function DestOf(nodes: map<(nat, nat), nat>, p: Packet): Dest {
    var key := (if p.destIP == 0 then LOCALHOST else p.destIP, p.destPort);
    if key in nodes then Node(nodes[key]) else Nowhere
  }

  /** A packet for 0.0.0.0 goes where one for 127.0.0.1 goes, any other to the node with its address and port. */
  lemma ZeroIsLocal(nodes: map<(nat, nat), nat>, p: Packet)
    ensures p.destIP == 0 ==> DestOf(nodes, p) == DestOf(nodes, p.(destIP := 2130706433))
    ensures p.destIP != 0 ==>
              DestOf(nodes, p)
              == if (p.destIP, p.destPort) in nodes then Node(nodes[(p.destIP, p.destPort)]) else Nowhere
  {
    assert 2130706433 == ((127 * 256 + 0) * 256 + 0) * 256 + 1;
  }

  /** The packet is bound for a router of the topology. */
  predicate Known(g: Graph, nodes: map<(nat, nat), nat>, p: Packet) {
    match DestOf(nodes, p)
    case Nowhere => false
    case Node(d) => d in g.nodes
  }

  // ---------- how many links are still to be crossed ----------

  ghost function HopsLeft(g: Graph, nodes: map<(nat, nat), nat>, at: nat, p: Packet): nat {
    match DestOf(nodes, p)
    case Nowhere => 0
    case Node(d) => if Reachable(g, at, d) then Dist(g, at, d) else 0
  }

  /** A packet on the link towards `head` crosses that link and then walks on from there. */
  ghost function QueueWork(g: Graph, nodes: map<(nat, nat), nat>, head: nat, q: seq<Packet>): nat {
    if q == [] then 0 else 1 + HopsLeft(g, nodes, head, q[0]) + QueueWork(g, nodes, head, q[1..])
  }

  lemma {:induction false} QueueWorkAppend(g: Graph, nodes: map<(nat, nat), nat>, head: nat, q: seq<Packet>, p: Packet)
    ensures QueueWork(g, nodes, head, q + [p]) == QueueWork(g, nodes, head, q) + 1 + HopsLeft(g, nodes, head, p)
  {
    hide HopsLeft;
    if q != [] {
      assert (q + [p])[1..] == q[1..] + [p];
      QueueWorkAppend(g, nodes, head, q[1..], p);
    }
  }

  /** heads[k] is the router that link k leads to. */
  ghost function LinkWork(g: Graph, nodes: map<(nat, nat), nat>, heads: seq<nat>, c: seq<seq<Packet>>): nat
    requires |heads| == |c|
  {
    if c == [] then 0 else QueueWork(g, nodes, heads[0], c[0]) + LinkWork(g, nodes, heads[1..], c[1..])
  }

  lemma {:induction false} LinkWorkUpdate(g: Graph, nodes: map<(nat, nat), nat>, heads: seq<nat>,
                                       c: seq<seq<Packet>>, k: nat, q: seq<Packet>)
    requires |heads| == |c| && k < |c|
    ensures LinkWork(g, nodes, heads, c[k := q]) + QueueWork(g, nodes, heads[k], c[k])
         == LinkWork(g, nodes, heads, c) + QueueWork(g, nodes, heads[k], q)
  {
    hide QueueWork;
    if k > 0 {
      assert c[k := q][1..] == c[1..][k - 1 := q];
      LinkWorkUpdate(g, nodes, heads[1..], c[1..], k - 1, q);
    } else {
      assert c[k := q][1..] == c[1..];
    }
  }

  // ---------- which packets are on the links ----------

  ghost function OnLinks(c: seq<seq<Packet>>): multiset<Packet> {
    if c == [] then multiset{} else multiset(c[0]) + OnLinks(c[1..])
  }

  lemma {:induction false} OnLinksUpdate(c: seq<seq<Packet>>, k: nat, q: seq<Packet>)
    requires k < |c|
    ensures OnLinks(c[k := q]) + multiset(c[k]) == OnLinks(c) + multiset(q)
  {
    if k > 0 {
      assert c[k := q][1..] == c[1..][k - 1 := q];
      OnLinksUpdate(c[1..], k - 1, q);
      assert c[1..][k - 1] == c[k];
      var rest, rest' := OnLinks(c[1..]), OnLinks(c[1..][k - 1 := q]);
      assert (multiset(c[0]) + rest') + multiset(c[k]) == multiset(c[0]) + (rest' + multiset(c[k]));
      assert (multiset(c[0]) + rest) + multiset(q) == multiset(c[0]) + (rest + multiset(q));
    } else {
      assert c[k := q][1..] == c[1..];
    }
  }

  lemma OnLinksAppend(c: seq<seq<Packet>>, k: nat, p: Packet)
    requires k < |c|
    ensures OnLinks(c[k := c[k] + [p]]) == OnLinks(c) + multiset{p}
  {
    OnLinksUpdate(c, k, c[k] + [p]);
    var c' := c[k := c[k] + [p]];
    assert OnLinks(c') + multiset(c[k]) == (OnLinks(c) + multiset{p}) + multiset(c[k]);
    assert OnLinks(c') == (OnLinks(c') + multiset(c[k])) - multiset(c[k]);
  }

  lemma OnLinksAppendFront(c: seq<seq<Packet>>, k: nat, p: Packet)
    requires k < |c|
    ensures OnLinks(c[k := [p] + c[k]]) == OnLinks(c) + multiset{p}
  {
    OnLinksUpdate(c, k, [p] + c[k]);
    var c' := c[k := [p] + c[k]];
    assert OnLinks(c') + multiset(c[k]) == (OnLinks(c) + multiset{p}) + multiset(c[k]);
    assert OnLinks(c') == (OnLinks(c') + multiset(c[k])) - multiset(c[k]);
  }

  lemma OnLinksTail(c: seq<seq<Packet>>, k: nat)
    requires k < |c| && c[k] != []
    ensures OnLinks(c[k := c[k][1..]]) + multiset{c[k][0]} == OnLinks(c)
  {
    var c' := c[k := c[k][1..]];
    OnLinksAppendFront(c', k, c[k][0]);
    assert [c[k][0]] + c[k][1..] == c[k];
    assert c'[k := [c[k][0]] + c'[k]] == c;
  }

  lemma {:induction false} NothingOnLinks(c: seq<seq<Packet>>)
    requires forall k :: 0 <= k < |c| ==> c[k] == []
    ensures OnLinks(c) == multiset{}
  {
    if c != [] {
      NothingOnLinks(c[1..]);
    }
  }

  // ---------- how many packets the links have dropped ----------

  ghost function Sum(c: seq<nat>): nat {
    if c == [] then 0 else c[0] + Sum(c[1..])
  }

  lemma {:induction false} SumUpdate(c: seq<nat>, k: nat, x: nat)
    requires k < |c|
    ensures Sum(c[k := x]) + c[k] == Sum(c) + x
  {
    if k > 0 {
      assert c[k := x][1..] == c[1..][k - 1 := x];
      SumUpdate(c[1..], k - 1, x);
    } else {
      assert c[k := x][1..] == c[1..];
    }
  }

  lemma {:induction false} SumNothing(c: seq<nat>)
    requires forall k :: 0 <= k < |c| ==> c[k] == 0
    ensures Sum(c) == 0
  {
    if c != [] { SumNothing(c[1..]); }
  }
}
