/** Peers, chunks and the linked list of received packets that each chunk owns. */
module Chunks {
  import opened Octets
  import opened Reassembly

  /** One received packet, or a placeholder for one that is still missing. */
  class PacketNode {
    const seqNum: nat
    ghost const owner: Chunk
    var recv: bool
    var data: Bytes  // meaningless in a placeholder
    var next: PacketNode?

    constructor (seqNum: nat, recv: bool, data: Bytes, ghost owner: Chunk)
      ensures this.owner == owner && this.seqNum == seqNum && this.recv == recv && this.data == data && next == null
    {
      this.seqNum, this.recv, this.data, this.next := seqNum, recv, data, null;
      this.owner := owner;
    }

    function Slot(): Slot
      reads this`recv, this`data
    {
      if recv then Got(data) else Empty
    }
  }

  ghost function SlotsOf(ns: seq<PacketNode>): (s: seq<Slot>)
    reads ns`recv, ns`data
    ensures |s| == |ns| && forall i :: 0 <= i < |s| ==> s[i] == ns[i].Slot()
  {
    if ns == [] then [] else [ns[0].Slot()] + SlotsOf(ns[1..])
  }

  lemma SlotsOfAppend(ns: seq<PacketNode>, node: PacketNode)
    ensures SlotsOf(ns + [node]) == SlotsOf(ns) + [node.Slot()]
  {
  }

  /** The nodes are linked in order, numbered from 1. */
  ghost predicate Linked(head: PacketNode?, ns: seq<PacketNode>)
    reads ns`next
  {
    && head == (if ns == [] then null else ns[0])
    && (forall i {:trigger ns[i].seqNum} :: 0 <= i < |ns| ==> ns[i].seqNum == i + 1)
    && (forall i {:trigger ns[i].next} :: 0 <= i < |ns| ==> ns[i].next == if i + 1 < |ns| then ns[i + 1] else null)
  }

  /** The list while it is being extended to n nodes. */
  function Padded(s: seq<Slot>, n: nat, seqNum: nat, data: Bytes): seq<Slot>
    requires |s| <= n && |s| < seqNum
  {
    if n < seqNum then s + Placeholders(n - |s|) else Place(s, seqNum - 1, Got(data))
  }

  lemma PaddedStart(s: seq<Slot>, seqNum: nat, data: Bytes)
    requires |s| < seqNum
    ensures Padded(s, |s|, seqNum, data) == s && Padded(s, seqNum, seqNum, data) == Place(s, seqNum - 1, Got(data))
  {
  }

  lemma PaddedStep(s: seq<Slot>, i: nat, seqNum: nat, data: Bytes)
    requires |s| < i <= seqNum
    ensures Padded(s, i, seqNum, data) == Padded(s, i - 1, seqNum, data) + [if i == seqNum then Got(data) else Empty]
  {
  }

  class Peer {
    const id: int
    const addr: nat
    var downloading: bool
    var consecTimeouts: nat
    var badTime: int
    var lastResponse: int
    var chunk: Chunk?

    constructor (id: int, addr: nat)
      ensures this.id == id && this.addr == addr && chunk == null && !downloading
      ensures lastResponse == -1 && consecTimeouts == 0 && badTime == 0
    {
      this.id, this.addr := id, addr;
      downloading, consecTimeouts, badTime, lastResponse, chunk := false, 0, 0, -1, null;
    }
  }

  method CopyInto(buffer: array<bv8>, pos: nat, data: Bytes)
    requires pos + |data| <= buffer.Length
    modifies buffer
    ensures buffer[..pos + |data|] == old(buffer[..pos]) + data
  {
    forall i | 0 <= i < |data| {
      buffer[pos + i] := data[i];
    }
  }

  lemma JoinedStart(s: seq<Slot>)
    ensures NoGaps(s[..0]) && Joined(s[..0]) == []
  {
  }

  lemma JoinedStep(s: seq<Slot>, k: nat)
    requires k < |s| && NoGaps(s[..k]) && s[k].Got?
    ensures NoGaps(s[..k + 1]) && Joined(s[..k + 1]) == Joined(s[..k]) + s[k].data
  {
    assert s[..k + 1][..k] == s[..k];
  }

  lemma GapAt(s: seq<Slot>, k: nat)
    requires k < |s| && s[k].Empty?
    ensures !NoGaps(s)
  {
  }

  lemma {:induction false} JoinedGrows(s: seq<Slot>, k: nat)
    requires k <= |s| && NoGaps(s[..k])
    ensures NoGaps(s) ==> |Joined(s[..k])| <= |Joined(s)|
    decreases |s|
  {
    if k == |s| {
      assert s[..k] == s;
    } else {
      assert s[..|s| - 1][..k] == s[..k];
      JoinedGrows(s[..|s| - 1], k);
    }
  }

  class Chunk {
    const id: int
    const hash: Bytes
    var nextExpected: nat
    var downloaded: bool
    var totalData: nat
    var peer: Peer?
    var peers: seq<Peer>
    var packets: PacketNode?
    // The nodes behind `packets`, and whether they have been freed.
    ghost var nodes: seq<PacketNode>
    ghost var freed: bool
    // The transfer under way, or the last one: the byte count it started from and the packets filed since; and
    // whether a finished transfer has left its count behind without the chunk.
    ghost var start: nat
    ghost var got: seq<Segment>
    ghost var spoiled: bool

    /** No node belongs to two chunks. */
    ghost predicate Owned(ns: seq<PacketNode>) {
      forall i :: 0 <= i < |ns| ==> ns[i].owner == this
    }

    /** The list may be read: it is linked and has not been freed. */
    ghost predicate ListOk()
      reads this`packets, this`nodes, this`freed, nodes`next
    {
      !freed && Linked(packets, nodes) && Owned(nodes)
    }

    ghost function View(): Assembly
      reads this`nodes, this`nextExpected, this`totalData, nodes`recv, nodes`data
    {
      Assembly(SlotsOf(nodes), nextExpected, totalData)
    }

    constructor (id: int, hash: Bytes)
      ensures this.id == id && this.hash == hash && View() == NOTHING && ListOk() && nodes == []
      ensures !downloaded && peer == null && peers == [] && !freed && start == 0 && got == [] && !spoiled
    {
      this.id, this.hash := id, hash;
      nextExpected, downloaded, totalData := 1, false, 0;
      peer, peers, packets, nodes, freed := null, [], null, [], false;
      start, got, spoiled := 0, [], false;
    }

    /** The record is what the packets of the transfer have made of the count that it started from. */
    ghost predicate Recorded()
      reads this`nodes, this`nextExpected, this`totalData, this`start, this`got, nodes`recv, nodes`data
    {
      Numbered(got) && View() == AddAll(Assembly([], 1, start), got)
    }

    /** Before and during a transfer: the count to start from is zero, or a full one that was left behind. */
    ghost predicate CountKnown()
      reads this`peer, this`downloaded, this`totalData, this`start, this`spoiled
    {
      var n := if peer == null then totalData else start;
      !downloaded ==> if spoiled then n >= CHUNK_SIZE else n == 0
    }

    ghost predicate History()
      reads this`peer, this`downloaded, this`totalData, this`start, this`spoiled,
            this`nodes, this`nextExpected, this`got, nodes`recv, nodes`data
    {
      CountKnown() && (peer != null ==> Recorded())
    }

    /** Walks the list until the packet's node or the end. */
    method Find(seqNum: nat) returns (cur: PacketNode?, prev: PacketNode?, lastSeq: nat)
      requires ListOk() && seqNum >= 1
      ensures cur != null ==> seqNum <= |nodes| && cur == nodes[seqNum - 1] && lastSeq == seqNum
      ensures cur == null ==> seqNum > |nodes| && lastSeq == |nodes|
      ensures Arrived(SlotsOf(nodes), seqNum) <==> cur != null && cur.recv
      ensures cur == null ==> prev == if nodes == [] then null else nodes[|nodes| - 1]
    {
      lastSeq, prev, cur := 0, null, packets;
      while cur != null
        invariant lastSeq <= |nodes| && lastSeq < seqNum
        invariant cur == if lastSeq < |nodes| then nodes[lastSeq] else null
        invariant prev == if lastSeq == 0 then null else nodes[lastSeq - 1]
        decreases |nodes| - lastSeq
      {
        lastSeq := cur.seqNum;
        if lastSeq == seqNum { return; }
        prev := cur;
        cur := cur.next;
      }
    }

    /** Hangs one new node behind the last one. */
    method Append(prev: PacketNode?, node: PacketNode)
      requires ListOk() && node !in nodes && node.next == null && node.seqNum == |nodes| + 1 && node.owner == this
      requires prev == if nodes == [] then null else nodes[|nodes| - 1]
      modifies this`packets, this`nodes, (if prev == null then {} else {prev})`next
      ensures ListOk() && nodes == old(nodes) + [node]
      ensures SlotsOf(nodes) == old(SlotsOf(nodes)) + [node.Slot()]
    {
      hide SlotsOf;
      ghost var was := nodes;
      if packets == null {
        packets := node;
      } else {
        prev.next := node;
      }
      nodes := nodes + [node];
      SlotsOfAppend(was, node);
    }

    lemma OtherNodes(seqNum: nat)
      requires ListOk() && 1 <= seqNum <= |nodes|
      ensures forall i :: 0 <= i < |nodes| && i != seqNum - 1 ==> nodes[i] != nodes[seqNum - 1]
    {
      assert forall i :: 0 <= i < |nodes| ==> nodes[i].seqNum == i + 1;
    }

    /** A placeholder becomes the packet. */
    method Fill(cur: PacketNode, ghost seqNum: nat, data: Bytes)
      requires ListOk() && 1 <= seqNum <= |nodes| && cur == nodes[seqNum - 1]
      modifies cur`recv, cur`data
      ensures ListOk() && SlotsOf(nodes) == Place(old(SlotsOf(nodes)), seqNum - 1, Got(data))
    {
      hide Linked, SlotsOf;
      ghost var s := SlotsOf(nodes);
      OtherNodes(seqNum);
      cur.recv := true;
      cur.data := data;
      assert forall i :: 0 <= i < |nodes| ==> nodes[i].Slot() == if i == seqNum - 1 then Got(data) else s[i];
      assert SlotsOf(nodes) == s[seqNum - 1 := Got(data)];
    }

    /** One new node, a placeholder or a packet, at the end. */
    method Hang(prev: PacketNode?, i: nat, recv: bool, data: Bytes) returns (node: PacketNode)
      requires ListOk() && i == |nodes| + 1
      requires prev == if nodes == [] then null else nodes[|nodes| - 1]
      modifies this`packets, this`nodes, (if prev == null then {} else {prev})`next
      ensures ListOk() && fresh(node) && nodes == old(nodes) + [node]
      ensures SlotsOf(nodes) == old(SlotsOf(nodes)) + [if recv then Got(data) else Empty]
    {
      hide Linked, SlotsOf;
      node := new PacketNode(i, recv, data, this);
      Append(prev, node);
    }

    /** Placeholders up to the packet, then the packet. */
    method Extend(prev0: PacketNode?, lastSeq: nat, seqNum: nat, data: Bytes)
      requires ListOk() && lastSeq == |nodes| < seqNum
      requires prev0 == if nodes == [] then null else nodes[|nodes| - 1]
      modifies this`packets, this`nodes, nodes`next
      ensures ListOk()
      ensures old(nodes) <= nodes && forall n :: n in nodes ==> n in old(nodes) || fresh(n)
      ensures SlotsOf(nodes) == Place(old(SlotsOf(nodes)), seqNum - 1, Got(data))
    {
      hide Linked, SlotsOf, Place, Padded;
      var prev := prev0;
      ghost var was, s := nodes, SlotsOf(nodes);
      assert Padded(s, |s|, seqNum, data) == s by { PaddedStart(s, seqNum, data); }
      for i := lastSeq + 1 to seqNum + 1
        invariant ListOk() && |nodes| == i - 1 && was <= nodes && forall n :: n in nodes ==> n in was || fresh(n)
        invariant prev == if nodes == [] then null else nodes[|nodes| - 1]
        invariant |s| == |was| && SlotsOf(nodes) == Padded(s, i - 1, seqNum, data)
      {
        assert prev != null ==> prev in nodes;
        prev := Hang(prev, i, i == seqNum, if i == seqNum then data else []);
        PaddedStep(s, i, seqNum, data);
      }
      assert Padded(s, seqNum, seqNum, data) == Place(s, seqNum - 1, Got(data)) by { PaddedStart(s, seqNum, data); }
    }

    /** The last number of the gapless prefix. */
    method GottenUpto() returns (lastGotten: nat)
      requires ListOk()
      ensures lastGotten == Prefix(SlotsOf(nodes))
    {
      lastGotten := 0;
      var cur := packets;
      while cur != null
        invariant lastGotten <= |nodes|
        invariant cur == if lastGotten < |nodes| then nodes[lastGotten] else null
        invariant forall i :: 0 <= i < lastGotten ==> nodes[i].recv
        decreases |nodes| - lastGotten
      {
        if !cur.recv { return; }
        lastGotten := cur.seqNum;
        cur := cur.next;
      }
    }

    method Store(cur: PacketNode?, prev: PacketNode?, lastSeq: nat, seqNum: nat, data: Bytes)
      requires ListOk() && seqNum >= 1
      requires if cur != null then seqNum <= |nodes| && cur == nodes[seqNum - 1] else lastSeq == |nodes| < seqNum
      requires cur == null ==> prev == if nodes == [] then null else nodes[|nodes| - 1]
      modifies this`packets, this`nodes, nodes`next, nodes`recv, nodes`data
      ensures ListOk() && SlotsOf(nodes) == Place(old(SlotsOf(nodes)), seqNum - 1, Got(data))
      ensures old(nodes) <= nodes && forall n :: n in nodes ==> n in old(nodes) || fresh(n)
    {
      hide ListOk, SlotsOf, Place;
      if cur != null {
        Fill(cur, seqNum, data);
      } else {
        Extend(prev, lastSeq, seqNum, data);
      }
    }

    method Record(cur: PacketNode?, prev: PacketNode?, lastSeq: nat, seqNum: nat, data: Bytes)
      requires ListOk() && seqNum >= 1
      requires if cur != null then seqNum <= |nodes| && cur == nodes[seqNum - 1] else lastSeq == |nodes| < seqNum
      requires cur == null ==> prev == if nodes == [] then null else nodes[|nodes| - 1]
      modifies this`packets, this`nodes, this`nextExpected, this`totalData, nodes`next, nodes`recv, nodes`data
      ensures ListOk() && SlotsOf(nodes) == Place(old(SlotsOf(nodes)), seqNum - 1, Got(data))
      ensures nextExpected == Prefix(SlotsOf(nodes)) + 1 && totalData == old(totalData) + |data|
      ensures old(nodes) <= nodes && forall n :: n in nodes ==> n in old(nodes) || fresh(n)
    {
      hide ListOk, SlotsOf, Place, Prefix;
      Store(cur, prev, lastSeq, seqNum, data);
      totalData := totalData + |data|;
      var lastGotten := GottenUpto();
      nextExpected := lastGotten + 1;
    }

    /** Files a packet: ignored when it is already there, otherwise stored in order with placeholders for what
        is missing before it. */
    method AddPacketList(seqNum: nat, data: Bytes)
      requires ListOk() && seqNum >= 1
      modifies this`packets, this`nodes, this`nextExpected, this`totalData, nodes`next, nodes`recv, nodes`data
      ensures ListOk() && View() == Add(old(View()), Segment(seqNum, data))
      ensures old(nodes) <= nodes && forall n :: n in nodes ==> n in old(nodes) || fresh(n)
    {
      hide ListOk, Linked, Prefix, SlotsOf, Place, Arrived;
      var cur, prev, lastSeq := Find(seqNum);
      if cur == null || !cur.recv {
        Record(cur, prev, lastSeq, seqNum, data);
      }
    }

    /** Frees the list but leaves the pointer to it. */
    method DelPacketList()
      requires ListOk()
      modifies this`freed
      ensures freed
    {
      freed := true;
    }

    /** Copies the packets one behind the other into the buffer.  A placeholder on the way, or more data than
        the buffer holds, is an undefined read or write in C: the model stops there and says so. */
    method WriteToBuffer(buffer: array<bv8>) returns (ok: bool)
      requires ListOk()
      modifies buffer
      ensures ok <==> NoGaps(SlotsOf(nodes)) && |Joined(SlotsOf(nodes))| <= buffer.Length
      ensures ok ==> var j := Joined(SlotsOf(nodes)); buffer[..|j|] == j
    {
      hide Joined, NoGaps, SlotsOf;
      var cur, pos := packets, 0;
      ghost var k, s := 0, SlotsOf(nodes);
      ok := true;
      JoinedStart(s);
      while cur != null
        invariant k <= |nodes| == |s| && 0 <= pos <= buffer.Length
        invariant cur == if k < |nodes| then nodes[k] else null
        invariant s == SlotsOf(nodes) && NoGaps(s[..k]) && buffer[..pos] == Joined(s[..k])
        decreases |nodes| - k
      {
        assert s[k] == cur.Slot();
        if !cur.recv {
          GapAt(s, k);
          return false;
        }
        JoinedStep(s, k);
        if pos + |cur.data| > buffer.Length {
          JoinedGrows(s, k + 1);
          return false;
        }
        CopyInto(buffer, pos, cur.data);
        pos := pos + |cur.data|;
        cur := cur.next;
        k := k + 1;
      }
      assert s[..k] == s;
    }
  }
}
