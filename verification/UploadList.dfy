/** The doubly linked list of uploads, and the congestion-control pass that deletes from it while walking. */
module UploadList {
  import opened Octets
  import opened Reassembly
  import opened Upload

  import Fips180
  import Sha1

  class BtSender {
    const peerId: int
    const packets: seq<Segment>
    var lastAcked: int
    var lastSent: int
    var window: int
    var recvd: int
    var ssthresh: int
    var avoiding: bool
    var retransmit: int
    var sentTime: int
    var dropped: int
    var prev: BtSender?
    var next: BtSender?

    ghost function State(): Sender
      reads this`lastAcked, this`lastSent, this`window, this`recvd, this`ssthresh, this`avoiding,
            this`retransmit, this`sentTime, this`dropped
    {
      Sender(|packets|, lastAcked, lastSent, window, recvd, ssthresh, avoiding, retransmit, sentTime, dropped)
    }

    constructor (peerId: int, packets: seq<Segment>, next: BtSender?)
      ensures this.peerId == peerId && this.packets == packets && prev == null && this.next == next
      ensures State() == NewSender(|packets|)
    {
      this.peerId, this.packets := peerId, packets;
      lastAcked, lastSent, window, recvd, ssthresh := 0, 0, 1, 0, SSTHRESH_INIT;
      avoiding, retransmit, sentTime, dropped := false, 0, 0, 0;
      prev, this.next := null, next;
    }
  }

  /** What is put on the outgoing queue: the peer it is for and the packet. */
  datatype Outgoing = Outgoing(peerId: int, packet: Segment)

  /** The buffer for a chunk after reading the data file into it, and how many bytes were read. */
  datatype Stored = Stored(buffer: Bytes, read: nat)

  /** An upload as a value. */
  datatype Record = Record(peerId: int, packets: seq<Segment>, state: Sender)

  ghost function RecordOf(s: BtSender): Record
    reads s`lastAcked, s`lastSent, s`window, s`recvd, s`ssthresh, s`avoiding, s`retransmit, s`sentTime, s`dropped
  {
    Record(s.peerId, s.packets, s.State())
  }

  ghost function RecordsOf(list: seq<BtSender>): (rs: seq<Record>)
    reads list`lastAcked, list`lastSent, list`window, list`recvd, list`ssthresh, list`avoiding, list`retransmit,
          list`sentTime, list`dropped
    ensures |rs| == |list| && forall i :: 0 <= i < |rs| ==> rs[i] == RecordOf(list[i])
  {
    if list == [] then [] else [RecordOf(list[0])] + RecordsOf(list[1..])
  }

  lemma RecordsCons(s: BtSender, list: seq<BtSender>)
    ensures RecordsOf([s] + list) == [RecordOf(s)] + RecordsOf(list)
  {
    hide RecordOf;
    assert ([s] + list)[1..] == list;
  }

  ghost predicate AllSteady(rs: seq<Record>) {
    forall i :: 0 <= i < |rs| ==> Steady(rs[i].state) && rs[i].state.num == |rs[i].packets|
  }

  ghost predicate OnePerPeer(rs: seq<Record>) {
    forall i, j :: 0 <= i < j < |rs| ==> rs[i].peerId != rs[j].peerId
  }

  lemma SteadyWithout(rs: seq<Record>, k: nat)
    requires k < |rs| && AllSteady(rs)
    ensures AllSteady(rs[..k] + rs[k + 1..]) && Steady(rs[k].state)
  {
  }

  function Acknowledged(r: Record, a: int): Record {
    r.(state := Ack(r.state, a))
  }

  lemma AckKeepsGood(rs: seq<Record>, k: nat, a: int)
    requires k < |rs| && AllSteady(rs) && OnePerPeer(rs) && a <= |rs[k].packets|
    ensures AllSteady(rs[k := Acknowledged(rs[k], a)]) && OnePerPeer(rs[k := Acknowledged(rs[k], a)])
  {
    hide Ack;
    AckKeepsSteady(rs[k].state, a);
  }

  /** Some upload goes to this peer. */
  ghost predicate Serves(rs: seq<Record>, peerId: int) {
    exists i :: 0 <= i < |rs| && rs[i].peerId == peerId
  }

  lemma ServesAt(list: seq<BtSender>, peerId: int, s: BtSender?, k: nat)
    requires s == null ==> forall i :: 0 <= i < |list| ==> list[i].peerId != peerId
    requires s != null ==> k < |list| && s == list[k] && s.peerId == peerId
    ensures s != null <==> Serves(RecordsOf(list), peerId)
  {
    if s != null { assert RecordsOf(list)[k].peerId == peerId; }
  }

  /** A new upload: the slices of the chunk in order, and untouched counters. */
  ghost function Fresh(peerId: int, chunk: Bytes): Record {
    var packets := seq(NumPackets(|chunk|),
                      i requires 0 <= i < NumPackets(|chunk|) => Segment(i + 1, Slice(chunk, i + 1)));
    Record(peerId, packets, NewSender(|packets|))
  }

  lemma FreshRecord(peerId: int, chunk: Bytes, packets: seq<Segment>)
    requires |packets| == NumPackets(|chunk|)
    requires forall n :: 1 <= n <= |packets| ==> packets[n - 1] == Segment(n, Slice(chunk, n))
    ensures Record(peerId, packets, NewSender(|packets|)) == Fresh(peerId, chunk)
    ensures Fresh(peerId, chunk).state == NewSender(|Fresh(peerId, chunk).packets|)
    ensures Fresh(peerId, chunk).peerId == peerId
  {
    hide NumPackets, Slice;
    assert forall i :: 0 <= i < |packets| ==> packets[i] == packets[(i + 1) - 1];
    assert packets == Fresh(peerId, chunk).packets;
  }

  lemma GoodCons(r: Record, rs: seq<Record>)
    requires AllSteady(rs) && OnePerPeer(rs) && !Serves(rs, r.peerId) && r.state == NewSender(|r.packets|)
    ensures AllSteady([r] + rs) && OnePerPeer([r] + rs)
  {
  }

  function OutsOne(peerId: int, packets: seq<Segment>, n: int): seq<Outgoing> {
    if 1 <= n <= |packets| then [Outgoing(peerId, packets[n - 1])] else []
  }

  /** The packets with these numbers, addressed to a peer. */
  ghost function Outs(peerId: int, packets: seq<Segment>, ns: seq<int>): seq<Outgoing> {
    if ns == [] then [] else OutsOne(peerId, packets, ns[0]) + Outs(peerId, packets, ns[1..])
  }

  lemma {:induction false} OutsAppend(peerId: int, packets: seq<Segment>, a: seq<int>, b: seq<int>)
    ensures Outs(peerId, packets, a + b) == Outs(peerId, packets, a) + Outs(peerId, packets, b)
  {
    hide OutsOne;
    if a == [] {
      assert a + b == b;
    } else {
      assert (a + b)[1..] == a[1..] + b;
      OutsAppend(peerId, packets, a[1..], b);
    }
  }

  lemma NoOuts(peerId: int, packets: seq<Segment>)
    ensures Outs(peerId, packets, []) == []
  {
  }

  lemma NoNumbers(from: int, to: int)
    requires to < from
    ensures Numbers(from, to) == []
  {
  }

  lemma OutsNext(peerId: int, packets: seq<Segment>, from: int, n: int)
    requires from <= n && 1 <= n <= |packets|
    ensures Outs(peerId, packets, Numbers(from, n))
         == Outs(peerId, packets, Numbers(from, n - 1)) + [Outgoing(peerId, packets[n - 1])]
  {
    assert Numbers(from, n) == Numbers(from, n - 1) + [n];
    OutsAppend(peerId, packets, Numbers(from, n - 1), [n]);
    assert Outs(peerId, packets, [n]) == OutsOne(peerId, packets, n) + Outs(peerId, packets, []);
  }

  // ---------- a whole pass as a value ----------

  ghost function Kept(r: Record, now: int): seq<Record> {
    match Pass(r.state, now).kept
    case None => []
    case Some(u) => [r.(state := u)]
  }

  ghost function QueuedFor(r: Record, now: int): seq<Outgoing> {
    Outs(r.peerId, r.packets, Pass(r.state, now).queued)
  }

  ghost function Survivors(rs: seq<Record>, now: int): seq<Record> {
    if rs == [] then [] else Kept(rs[0], now) + Survivors(rs[1..], now)
  }

  ghost function Queued(rs: seq<Record>, now: int): seq<Outgoing> {
    if rs == [] then [] else QueuedFor(rs[0], now) + Queued(rs[1..], now)
  }

  /** Dealing with positions k and above as well will leave the survivors `goal` and the queue `goalQ`. */
  ghost predicate OnTrack(rs: seq<Record>, k: nat, queue: seq<Outgoing>, now: int,
                          goal: seq<Record>, goalQ: seq<Outgoing>) {
    k <= |rs| && rs[..k] + Survivors(rs[k..], now) == goal && queue + Queued(rs[k..], now) == goalQ
  }

  lemma TrackStarts(rs: seq<Record>, queue: seq<Outgoing>, now: int)
    ensures OnTrack(rs, 0, queue, now, Survivors(rs, now), queue + Queued(rs, now))
  {
    assert rs[0..] == rs;
  }

  lemma TrackEnds(rs: seq<Record>, queue: seq<Outgoing>, now: int, goal: seq<Record>, goalQ: seq<Outgoing>)
    requires OnTrack(rs, |rs|, queue, now, goal, goalQ)
    ensures rs == goal && queue == goalQ
  {
  }

  /** The upload at k goes, and its closed form says nothing is left of it. */
  lemma DropOnTrack(rs: seq<Record>, k: nat, queue: seq<Outgoing>, now: int, goal: seq<Record>, goalQ: seq<Outgoing>)
    requires k < |rs| && OnTrack(rs, k, queue, now, goal, goalQ)
    requires Steady(rs[k].state) && (rs[k].state.lastAcked == rs[k].state.num || Counted(rs[k].state, now).dropped > 5)
    ensures OnTrack(rs[..k] + rs[k + 1..], k, queue, now, goal, goalQ)
  {
    hide Pass, Counted;
    DropUnfolds(rs[k].state, now);
    NoOuts(rs[k].peerId, rs[k].packets);
    assert (rs[..k] + rs[k + 1..])[..k] == rs[..k] && (rs[..k] + rs[k + 1..])[k..] == rs[k + 1..];
    assert rs[k..][1..] == rs[k + 1..];
  }

  /** The upload at k stays for another look with part of its packets queued. */
  lemma RetryOnTrack(rs: seq<Record>, k: nat, queue: seq<Outgoing>, now: int, goal: seq<Record>, goalQ: seq<Outgoing>)
    requires k < |rs| && AllSteady(rs) && OnTrack(rs, k, queue, now, goal, goalQ)
    requires var s := rs[k].state; s.lastAcked != s.num && Lossy(s, now) && Counted(s, now).dropped <= 5
    ensures var s := rs[k].state;
            var r := rs[k].(state := Retried(s, now));
            && s.lastAcked >= 0 && AllSteady(rs[k := r])
            && OnTrack(rs[k := r], k,
                       queue + Outs(r.peerId, r.packets, Numbers(s.lastAcked + 1, UpTo(r.state, s.lastAcked + 1))),
                       now, goal, goalQ)
  {
    hide Pass, Numbers, Outs, Lossy;
    var s := rs[k].state;
    var r := rs[k].(state := Retried(s, now));
    RetryUnfolds(s, now);
    var ns := Numbers(s.lastAcked + 1, UpTo(r.state, s.lastAcked + 1));
    var q := Outs(r.peerId, r.packets, ns);
    OutsAppend(r.peerId, r.packets, ns, Pass(r.state, now).queued);
    assert rs[k := r][..k] == rs[..k] && rs[k := r][k..] == [r] + rs[k + 1..];
    assert rs[k..] == [rs[k]] + rs[k + 1..];
    assert queue + Queued(rs[k..], now) == (queue + q) + Queued(rs[k := r][k..], now);
  }

  /** A loss-free look at an unfinished upload. */
  function Settled(s: Sender, now: int): Sender {
    if s.lastAcked == s.lastSent then Sent(s, s.lastAcked + 1, now) else s
  }

  lemma SettledIsKept(s: Sender, now: int)
    requires Steady(s) && s.lastAcked != s.num && !Lossy(s, now)
    ensures Pass(s, now) == Outcome(Some(Settled(s, now)),
                                    if s.lastAcked == s.lastSent then Numbers(s.lastAcked + 1, UpTo(s, s.lastAcked + 1))
                                    else [], 0)
    ensures Steady(Settled(s, now)) && Settled(s, now).num == s.num
  {
  }

  lemma SettleOnTrack(rs: seq<Record>, k: nat, queue: seq<Outgoing>, now: int, goal: seq<Record>, goalQ: seq<Outgoing>)
    requires k < |rs| && AllSteady(rs) && OnTrack(rs, k, queue, now, goal, goalQ)
    requires var s := rs[k].state; s.lastAcked != s.num && !Lossy(s, now)
    ensures var s := rs[k].state;
            var r := rs[k].(state := Settled(s, now));
            && s.lastAcked >= 0 && AllSteady(rs[k := r])
            && OnTrack(rs[k := r], k + 1,
                       if s.lastAcked == s.lastSent
                       then queue + Outs(r.peerId, r.packets, Numbers(s.lastAcked + 1, UpTo(s, s.lastAcked + 1)))
                       else queue,
                       now, goal, goalQ)
  {
    hide Numbers, Outs;
    var s := rs[k].state;
    var r := rs[k].(state := Settled(s, now));
    SettledIsKept(s, now);
    hide Pass, Settled;
    NoOuts(r.peerId, r.packets);
    assert rs[k := r][..k + 1] == rs[..k] + [r] && rs[k := r][k + 1..] == rs[k + 1..];
    assert rs[k..] == [rs[k]] + rs[k + 1..];
    assert rs[..k + 1] == rs[..k] + [rs[k]];
  }

  /** After a pass every upload is unfinished, on time, without two duplicates and with at most five drops. */
  lemma {:induction false} SurvivorsAreHealthy(rs: seq<Record>, now: int)
    requires AllSteady(rs)
    ensures forall i :: 0 <= i < |Survivors(rs, now)| ==>
              var s := Survivors(rs, now)[i].state;
              s.lastAcked < s.num && s.retransmit < 2 && s.dropped <= 5 && !TimedOut(s, now)
  {
    hide Pass, TimedOut;
    if rs != [] {
      SurvivorsAreHealthy(rs[1..], now);
      if Pass(rs[0].state, now).kept.Some? { SurvivorIsHealthy(rs[0].state, now); }
    }
  }

  lemma KeptOne(r: Record, now: int)
    ensures |Kept(r, now)| <= 1 && forall i :: 0 <= i < |Kept(r, now)| ==> Kept(r, now)[i].peerId == r.peerId
  {
    hide Pass;
  }

  lemma {:induction false} ServedBefore(rs: seq<Record>, now: int, i: nat)
    requires i < |Survivors(rs, now)|
    ensures Serves(rs, Survivors(rs, now)[i].peerId)
  {
    hide Kept;
    KeptOne(rs[0], now);
    var n, peerId := |Kept(rs[0], now)|, Survivors(rs, now)[i].peerId;
    if i < n {
      assert rs[0].peerId == peerId;
    } else {
      ServedBefore(rs[1..], now, i - n);
      var j :| 0 <= j < |rs[1..]| && rs[1..][j].peerId == peerId;
      assert rs[j + 1].peerId == peerId;
    }
  }

  lemma OtherPeer(rs: seq<Record>, peerId: int)
    requires rs != [] && OnePerPeer(rs) && Serves(rs[1..], peerId)
    ensures peerId != rs[0].peerId
  {
    var j :| 0 <= j < |rs[1..]| && rs[1..][j].peerId == peerId;
    assert rs[j + 1].peerId == peerId;
  }

  /** Uploads are neither reordered nor duplicated. */
  lemma {:induction false} SurvivorsOnePerPeer(rs: seq<Record>, now: int)
    requires OnePerPeer(rs)
    ensures OnePerPeer(Survivors(rs, now))
    ensures forall i :: 0 <= i < |Survivors(rs, now)| ==> Serves(rs, Survivors(rs, now)[i].peerId)
  {
    hide Kept, Serves;
    forall i | 0 <= i < |Survivors(rs, now)| ensures Serves(rs, Survivors(rs, now)[i].peerId) {
      ServedBefore(rs, now, i);
    }
    if rs != [] {
      SurvivorsOnePerPeer(rs[1..], now);
      KeptOne(rs[0], now);
      var t := Survivors(rs[1..], now);
      forall i | 0 <= i < |t| ensures t[i].peerId != rs[0].peerId {
        OtherPeer(rs, t[i].peerId);
      }
    }
  }

  lemma ServesJoin(a: seq<Record>, b: seq<Record>, peerId: int)
    ensures Serves(a + b, peerId) <==> Serves(a, peerId) || Serves(b, peerId)
  {
    if Serves(a, peerId) {
      var i :| 0 <= i < |a| && a[i].peerId == peerId;
      assert (a + b)[i].peerId == peerId;
    }
    if Serves(b, peerId) {
      var i :| 0 <= i < |b| && b[i].peerId == peerId;
      assert (a + b)[|a| + i].peerId == peerId;
    }
  }

  lemma KeptServes(r: Record, now: int, peerId: int)
    ensures Serves(Kept(r, now), peerId) <==> peerId == r.peerId && Pass(r.state, now).kept.Some?
  {
    hide Pass;
    if Pass(r.state, now).kept.Some? { assert Kept(r, now)[0].peerId == r.peerId; }
  }

  lemma NotServed(rs: seq<Record>, now: int, peerId: int)
    requires OnePerPeer(rs) && forall i :: 0 <= i < |rs| ==> rs[i].peerId != peerId
    ensures !Serves(Survivors(rs, now), peerId)
  {
    SurvivorsOnePerPeer(rs, now);
  }

  /** Which uploads a pass leaves: the unfinished ones with fewer than two duplicates, unless they are overdue with
      five drops. */
  lemma {:induction false} SurvivesExactly(rs: seq<Record>, now: int, i: nat)
    requires AllSteady(rs) && OnePerPeer(rs) && i < |rs|
    ensures var s := rs[i].state;
            Serves(Survivors(rs, now), rs[i].peerId)
            <==> s.lastAcked < s.num && s.retransmit < 2
                 && !(s.dropped == 5 && s.sentTime != 0 && now >= s.sentTime + 6)
  {
    hide Pass, TimedOut, Kept, Serves;
    var p := rs[i].peerId;
    ServesJoin(Kept(rs[0], now), Survivors(rs[1..], now), p);
    KeptServes(rs[0], now, p);
    OverdueFromSixSeconds(rs[i].state, now);
    if i == 0 {
      NotServed(rs[1..], now, p);
      var s := rs[0].state;
      if s.lastAcked < s.num { DiesExactly(s, now); } else { DropUnfolds(s, now); }
    } else {
      SurvivesExactly(rs[1..], now, i - 1);
    }
  }

  /** What a batch of numbers puts on the queue: those packets, in that order, for that peer. */
  lemma {:induction false} OutsAre(peerId: int, packets: seq<Segment>, ns: seq<int>)
    requires forall i :: 0 <= i < |ns| ==> 1 <= ns[i] <= |packets|
    ensures var q := Outs(peerId, packets, ns);
            |q| == |ns| && forall i :: 0 <= i < |ns| ==> q[i] == Outgoing(peerId, packets[ns[i] - 1])
  {
    if ns != [] {
      OutsAre(peerId, packets, ns[1..]);
      assert Outs(peerId, packets, ns) == [Outgoing(peerId, packets[ns[0] - 1])] + Outs(peerId, packets, ns[1..]);
    }
  }

  lemma QueuedForAre(r: Record, now: int)
    requires Steady(r.state) && r.state.num == |r.packets|
    ensures var ns := Pass(r.state, now).queued;
            && |QueuedFor(r, now)| == |ns|
            && forall j :: 0 <= j < |ns| ==>
                 r.state.lastAcked < ns[j] <= |r.packets|
                 && QueuedFor(r, now)[j] == Outgoing(r.peerId, r.packets[ns[j] - 1])
  {
    hide Pass, Outs;
    var ns := Pass(r.state, now).queued;
    QueuedAreReal(r.state, now);
    assert forall j :: 0 <= j < |ns| ==> ns[j] in ns;
    OutsAre(r.peerId, r.packets, ns);
  }

  lemma {:induction false} QueuedSplit(rs: seq<Record>, now: int, i: nat)
    requires i < |rs|
    ensures Queued(rs, now) == Queued(rs[..i], now) + QueuedFor(rs[i], now) + Queued(rs[i + 1..], now)
  {
    hide QueuedFor;
    if i > 0 {
      QueuedSplit(rs[1..], now, i - 1);
      assert rs[..i][1..] == rs[1..][..i - 1] && rs[1..][i..] == rs[i + 1..];
    }
  }

  /** A pass queues for each upload the packets that its closed form names, one upload after the other. */
  lemma QueuedInTurn(rs: seq<Record>, now: int, i: nat)
    requires AllSteady(rs) && i < |rs|
    ensures var before, r := |Queued(rs[..i], now)|, rs[i];
            var ns := Pass(r.state, now).queued;
            && before + |ns| + |Queued(rs[i + 1..], now)| == |Queued(rs, now)|
            && forall j :: 0 <= j < |ns| ==>
                 r.state.lastAcked < ns[j] <= |r.packets|
                 && Queued(rs, now)[before + j] == Outgoing(r.peerId, r.packets[ns[j] - 1])
  {
    hide Pass, Queued, QueuedFor;
    QueuedForAre(rs[i], now);
    QueuedSplit(rs, now, i);
  }

  /** Pointers forth and back agree with the sequence. */
  ghost predicate Linked(head: BtSender?, list: seq<BtSender>)
    reads list`prev, list`next
  {
    && head == (if list == [] then null else list[0])
    && (forall i {:trigger list[i].next} :: 0 <= i < |list| ==>
          list[i].next == if i + 1 < |list| then list[i + 1] else null)
    && (forall i {:trigger list[i].prev} :: 0 <= i < |list| ==> list[i].prev == if i > 0 then list[i - 1] else null)
    && (forall i, j :: 0 <= i < j < |list| ==> list[i] != list[j])
  }

  lemma CountedFacts(s: Sender, now: int)
    ensures !Lossy(s, now) ==> Counted(s, now) == s
    ensures Lossy(s, now) ==> Counted(s, now).dropped > s.dropped
    ensures Counted(s, now) == s.(dropped := Counted(s, now).dropped)
  {
  }

  method CountLosses(s: BtSender, now: int) returns (cc: bool)
    modifies s`dropped
    ensures s.State() == Counted(old(s.State()), now) && cc == Lossy(old(s.State()), now)
  {
    cc := false;
    if s.retransmit >= 2 {
      s.dropped := s.dropped + 1;
      cc := true;
    }
    if now - s.sentTime > CC_TIMEOUT && s.sentTime != 0 {
      s.dropped := s.dropped + 1;
      cc := true;
    }
  }

  method TakeAck(s: BtSender, a: int)
    modifies s`lastAcked, s`retransmit, s`dropped, s`window, s`avoiding, s`recvd
    ensures s.State() == Ack(old(s.State()), a)
  {
    if s.lastAcked == a {
      s.retransmit := Inc8(s.retransmit);
    }
    if s.lastAcked < a {
      s.lastAcked := a;
      s.retransmit := 0;
      s.dropped := 0;
    }
    if !s.avoiding {
      s.window := s.window + 1;
      if s.window > s.ssthresh { s.avoiding := true; }
    } else {
      s.recvd := s.recvd + 1;
      if s.recvd == s.window {
        s.window := s.window + 1;
        s.recvd := 0;
      }
    }
  }

  class Uploads {
    var upload: BtSender?
    var queue: seq<Outgoing>
    ghost var list: seq<BtSender>

    ghost predicate Valid()
      reads this`upload, this`list, list`prev, list`next
    {
      Linked(upload, list)
    }

    constructor ()
      ensures Valid() && list == [] && queue == []
    {
      upload, queue, list := null, [], [];
    }

    method LinkInFront(sender: BtSender)
      requires Valid() && sender !in list && sender.prev == null && sender.next == upload
      modifies this`upload, this`list, list`prev
      ensures Valid() && list == [sender] + old(list)
    {
      hide RecordsOf;
      if upload != null { upload.prev := sender; }
      upload := sender;
      list := [sender] + list;
    }

    /** Adds an upload at the front. */
    method AddSenderList(packets: seq<Segment>, peerId: int)
      requires Valid()
      modifies this`upload, this`list, list`prev
      ensures Valid() && |list| == |old(list)| + 1 && list[1..] == old(list) && fresh(list[0])
      ensures RecordsOf(list) == [Record(peerId, packets, NewSender(|packets|))] + old(RecordsOf(list))
    {
      hide Valid, RecordsOf;
      var sender := new BtSender(peerId, packets, upload);
      RecordsCons(sender, list);
      LinkInFront(sender);
    }

    /** The first upload to the peer. */
    method FindSenderList(peerId: int) returns (sender: BtSender?, ghost k: nat)
      requires Valid()
      ensures sender == null ==> forall i :: 0 <= i < |list| ==> list[i].peerId != peerId
      ensures sender != null ==> k < |list| && sender == list[k] && sender.peerId == peerId
                                 && forall i :: 0 <= i < k ==> list[i].peerId != peerId
    {
      sender, k := upload, 0;
      while sender != null
        invariant k <= |list| && sender == if k < |list| then list[k] else null
        invariant forall i :: 0 <= i < k ==> list[i].peerId != peerId
        decreases |list| - k
      {
        if sender.peerId == peerId { return; }
        sender := sender.next;
        k := k + 1;
      }
    }

    /** Unlinks an upload and returns what followed it. */
    method DelSenderList(sender: BtSender, ghost k: nat) returns (after: BtSender?)
      requires Valid() && k < |list| && sender == list[k]
      modifies this`upload, this`list, list`prev, list`next
      ensures Valid() && list == old(list)[..k] + old(list)[k + 1..]
      ensures after == if k < |list| then list[k] else null
    {
      var before := sender.prev;
      after := sender.next;
      if before != null { before.next := after; } else { upload := after; }
      if after != null { after.prev := before; }
      list := list[..k] + list[k + 1..];
    }

    /** At most one upload per peer, each in a state that honest runs reach. */
    ghost predicate Good()
      reads this`upload, this`list, list
    {
      Valid() && AllSteady(RecordsOf(list)) && OnePerPeer(RecordsOf(list))
    }

    /** Cuts the data and starts the upload. */
    method Upload(peerId: int, data: Bytes)
      requires Good() && !Serves(RecordsOf(list), peerId)
      modifies this`upload, this`list, list`prev
      ensures Good() && RecordsOf(list) == [Fresh(peerId, data)] + old(RecordsOf(list))
    {
      hide Linked, RecordOf, AllSteady, OnePerPeer, Fresh, NumPackets, Slice, Serves;
      ghost var rs := RecordsOf(list);
      var packets := SendData(data);
      AddSenderList(packets, peerId);
      FreshRecord(peerId, data, packets);
      GoodCons(Fresh(peerId, data), rs);
    }

    /** Starts the upload if something was read and its hash is the one asked for. */
    method SendFile(peerId: int, hash: Bytes, stored: Stored, little: bool) returns (accepted: bool)
      requires Good() && !Serves(RecordsOf(list), peerId) && |stored.buffer| == CHUNK_SIZE && stored.read <= CHUNK_SIZE
      modifies this`upload, this`list, list`prev
      ensures Good() && (accepted <==> stored.read > 0 && hash == Fips180.Sha1(stored.buffer))
      ensures !accepted ==> RecordsOf(list) == old(RecordsOf(list))
      ensures accepted ==> RecordsOf(list) == [Fresh(peerId, stored.buffer[..stored.read])] + old(RecordsOf(list))
    {
      hide Linked, RecordOf, RecordsOf, AllSteady, OnePerPeer, Fresh, Serves, Fips180.Sha1;
      accepted := false;
      if stored.read == 0 { return; }
      var computed := Sha1.ShaHash(stored.buffer, little);
      if hash != computed { return; }
      Upload(peerId, stored.buffer[..stored.read]);
      accepted := true;
    }

    /** A request of `length` bytes for the chunk with this hash from the peer that has the sender's address, if
        one has.  `stored` is what reading the data file leaves in the buffer, if the chunk is owned. */
    method ProcessGet(peer: Option<int>, length: int, hash: Bytes, stored: Option<Stored>, little: bool)
      returns (accepted: bool)
      requires Good() && (stored.Some? ==> |stored.value.buffer| == CHUNK_SIZE && stored.value.read <= CHUNK_SIZE)
      modifies this`upload, this`list, list`prev
      ensures Good()
      ensures accepted <==> && peer.Some? && !Serves(old(RecordsOf(list)), peer.value) && length == 20
                            && stored.Some? && stored.value.read > 0 && hash == Fips180.Sha1(stored.value.buffer)
      ensures !accepted ==> RecordsOf(list) == old(RecordsOf(list))
      ensures accepted ==>
                RecordsOf(list) == [Fresh(peer.value, stored.value.buffer[..stored.value.read])] + old(RecordsOf(list))
    {
      hide Linked, RecordOf, RecordsOf, AllSteady, OnePerPeer, Fresh, Serves, Fips180.Sha1;
      accepted := false;
      if peer == None { return; }
      var s, k := FindSenderList(peer.value);
      ServesAt(list, peer.value, s, k);
      if s != null || length != 20 || stored == None { return; }
      accepted := SendFile(peer.value, hash, stored.value, little);
    }

    /** Everything except the sender at k is as recorded. */
    ghost predicate OthersAre(k: nat, rs: seq<Record>)
      reads this`list, list
    {
      |rs| == |list| && k < |list| && forall i :: 0 <= i < |list| && i != k ==> RecordOf(list[i]) == rs[i]
    }

    lemma RecordAt(k: nat)
      requires k < |list|
      ensures OthersAre(k, RecordsOf(list)) && RecordsOf(list)[k] == RecordOf(list[k])
    {
    }

    lemma AllDifferent(k: nat)
      requires Valid() && k < |list|
      ensures forall i :: 0 <= i < |list| && i != k ==> list[i] != list[k]
    {
    }

    lemma OneChanged(k: nat, rs: seq<Record>)
      requires OthersAre(k, rs)
      ensures RecordsOf(list) == rs[k := RecordOf(list[k])]
    {
      hide RecordOf;
    }

    /** An acknowledgement touches the counters of the acknowledging peer's upload only. */
    method ProcessAck(peerId: int, a: int) returns (found: bool, ghost k: nat)
      requires Good()
      modifies list`lastAcked, list`retransmit, list`dropped, list`window, list`avoiding, list`recvd
      ensures Valid()
      ensures found <==> Serves(old(RecordsOf(list)), peerId)
      ensures !found ==> RecordsOf(list) == old(RecordsOf(list))
      ensures found ==> k < |list| && list[k].peerId == peerId
                        && RecordsOf(list) == old(RecordsOf(list))[k := Acknowledged(old(RecordsOf(list))[k], a)]
      ensures (found ==> a <= |list[k].packets|) ==> Good()
    {
      hide Linked, AllSteady, OnePerPeer, Ack, Serves, RecordsOf;
      ghost var rs := RecordsOf(list);
      var s;
      s, k := FindSenderList(peerId);
      ServesAt(list, peerId, s, k);
      found := s != null;
      if s == null { return; }
      AllDifferent(k);
      RecordAt(k);
      TakeAck(s, a);
      OneChanged(k, rs);
      if a <= |list[k].packets| { AckKeepsGood(rs, k, a); }
    }

    /** Queues the packets of the window from `start` on. */
    method PacketSender(s: BtSender, start: nat, now: int)
      requires start >= 1
      modifies this`queue, s`sentTime, s`lastSent
      ensures s.State() == Sent(old(s.State()), start, now)
      ensures queue == old(queue) + Outs(s.peerId, s.packets, Numbers(start, UpTo(old(s.State()), start)))
    {
      hide Outs, Numbers;
      var sendUpTo := start + s.window - 1;
      if sendUpTo > |s.packets| { sendUpTo := |s.packets|; }
      var i := start - 1;
      NoNumbers(start, start - 1);
      assert Outs(s.peerId, s.packets, []) == [] by { NoOuts(s.peerId, s.packets); }
      while i < sendUpTo
        invariant start - 1 <= i && (i <= sendUpTo || i == start - 1)
        invariant queue == old(queue) + Outs(s.peerId, s.packets, Numbers(start, i))
        invariant s.State() == old(s.State())
      {
        OutsNext(s.peerId, s.packets, start, i + 1);
        queue := queue + [Outgoing(s.peerId, s.packets[i])];
        i := i + 1;
      }
      if i > sendUpTo { NoNumbers(start, sendUpTo); }
      s.sentTime := now;
      s.lastSent := sendUpTo;
    }

    lemma AtHead()
      requires Valid()
      ensures upload == if list == [] then null else list[0]
    {
    }

    lemma AtPosition(k: nat)
      requires Valid() && k < |list| && AllSteady(RecordsOf(list))
      ensures list[k].next == if k + 1 < |list| then list[k + 1] else null
      ensures OthersAre(k, RecordsOf(list))
      ensures RecordsOf(list)[k] == RecordOf(list[k]) && Steady(list[k].State())
    {
    }

    lemma OneRemoved(k: nat, rs: seq<Record>)
      requires OthersAre(k, rs)
      ensures RecordsOf(list[..k] + list[k + 1..]) == rs[..k] + rs[k + 1..]
    {
      hide RecordOf;
    }

    method Remove(sender: BtSender, ghost k: nat, ghost rs: seq<Record>, now: int,
                  ghost goal: seq<Record>, ghost goalQ: seq<Outgoing>)
      returns (next: BtSender?)
      requires Valid() && k < |list| == |rs| && sender == list[k] && OthersAre(k, rs) && AllSteady(rs)
      requires OnTrack(rs, k, queue, now, goal, goalQ)
      requires rs[k].state.num == rs[k].state.lastAcked || Counted(rs[k].state, now).dropped > 5
      modifies this`upload, this`list, list`prev, list`next
      ensures Valid() && AllSteady(RecordsOf(list)) && |list| == |old(list)| - 1
              && forall i :: 0 <= i < |list| ==> list[i] in old(list)
      ensures next == if k < |list| then list[k] else null
      ensures OnTrack(RecordsOf(list), k, queue, now, goal, goalQ)
    {
      hide Linked, RecordOf, RecordsOf, OnTrack, Counted, OthersAre;
      OneRemoved(k, rs);
      SteadyWithout(rs, k);
      DropOnTrack(rs, k, queue, now, goal, goalQ);
      hide AllSteady;
      next := DelSenderList(sender, k);
    }

    /** The reaction to a loss. */
    method Resend(sender: BtSender, now: int)
      requires sender.lastAcked >= 0
      modifies this`queue, sender`avoiding, sender`ssthresh, sender`window, sender`sentTime, sender`lastSent
      ensures sender.State() == Sent(Reacted(old(sender.State())), old(sender.lastAcked) + 1, now)
      ensures var from := old(sender.lastAcked) + 1;
              queue == old(queue) + Outs(sender.peerId, sender.packets, Numbers(from, UpTo(sender.State(), from)))
    {
      hide Numbers, Outs;
      if sender.avoiding { sender.avoiding := false; }
      sender.ssthresh := Halved(sender.window);
      sender.window := 1;
      PacketSender(sender, sender.lastAcked + 1, now);
    }

    method React(sender: BtSender, ghost k: nat, ghost rs: seq<Record>, now: int,
                 ghost goal: seq<Record>, ghost goalQ: seq<Outgoing>)
      requires Valid() && k < |list| && sender == list[k] && OthersAre(k, rs) && AllSteady(rs)
      requires OnTrack(rs, k, queue, now, goal, goalQ)
      requires RecordOf(sender) == rs[k].(state := Counted(rs[k].state, now))
      requires rs[k].state.lastAcked != rs[k].state.num && Lossy(rs[k].state, now) && sender.dropped <= 5
      modifies this`queue, sender`avoiding, sender`ssthresh, sender`window, sender`sentTime, sender`lastSent
      ensures AllSteady(RecordsOf(list))
      ensures OnTrack(RecordsOf(list), k, queue, now, goal, goalQ)
    {
      hide Linked, OnTrack, Numbers, Outs, Lossy, AllSteady, RecordsOf, Counted;
      AllDifferent(k);
      RetryOnTrack(rs, k, queue, now, goal, goalQ);
      CountedFacts(rs[k].state, now);
      Resend(sender, now);
      OneChanged(k, rs);
    }

    method Settle(sender: BtSender, ghost k: nat, ghost rs: seq<Record>, now: int,
                  ghost goal: seq<Record>, ghost goalQ: seq<Outgoing>)
      requires Valid() && k < |list| && sender == list[k] && OthersAre(k, rs) && AllSteady(rs)
      requires OnTrack(rs, k, queue, now, goal, goalQ)
      requires RecordOf(sender) == rs[k] && rs[k].state.lastAcked != rs[k].state.num && !Lossy(rs[k].state, now)
      modifies this`queue, sender`sentTime, sender`lastSent
      ensures AllSteady(RecordsOf(list))
      ensures OnTrack(RecordsOf(list), k + 1, queue, now, goal, goalQ)
    {
      hide Linked, OnTrack, Numbers, Outs, Lossy, AllSteady, RecordsOf;
      AllDifferent(k);
      SettleOnTrack(rs, k, queue, now, goal, goalQ);
      if sender.lastAcked == sender.lastSent {
        PacketSender(sender, sender.lastAcked + 1, now);
      }
      OneChanged(k, rs);
    }

    /** One turn of the loop on the upload at position k. */
    method CcStep(sender: BtSender, ghost k: nat, now: int, ghost goal: seq<Record>, ghost goalQ: seq<Outgoing>)
      returns (next: BtSender?, ghost k': nat)
      requires Valid() && k < |list| && sender == list[k] && AllSteady(RecordsOf(list))
      requires OnTrack(RecordsOf(list), k, queue, now, goal, goalQ)
      modifies this`upload, this`list, this`queue, list
      ensures Valid() && AllSteady(RecordsOf(list)) && forall i :: 0 <= i < |list| ==> list[i] in old(list)
      ensures k' <= |list| && next == if k' < |list| then list[k'] else null
      ensures OnTrack(RecordsOf(list), k', queue, now, goal, goalQ)
      ensures |list| - k' < |old(list)| - k
           || (|list| - k' == |old(list)| - k && next == sender && old(sender.dropped) < sender.dropped <= 5)
    {
      hide Linked, RecordsOf, AllSteady, OnTrack, Counted, Lossy;
      ghost var rs := RecordsOf(list);
      AtPosition(k);
      AllDifferent(k);
      if |sender.packets| == sender.lastAcked {
        next := Remove(sender, k, rs, now, goal, goalQ);
        k' := k;
        return;
      }
      var cc := CountLosses(sender, now);
      CountedFacts(rs[k].state, now);
      if sender.dropped > 5 {
        next := Remove(sender, k, rs, now, goal, goalQ);
        k' := k;
        return;
      }
      if cc {
        React(sender, k, rs, now, goal, goalQ);
        next, k' := sender, k;
      } else {
        Settle(sender, k, rs, now, goal, goalQ);
        next, k' := sender.next, k + 1;
      }
    }

    /** One pass over all uploads: each is replaced by what its closed form says, or removed; the order stays. */
    method PeerCc(now: int)
      requires Good()
      modifies this`upload, this`list, this`queue, list
      ensures Good()
      ensures RecordsOf(list) == Survivors(old(RecordsOf(list)), now)
      ensures queue == old(queue) + Queued(old(RecordsOf(list)), now)
    {
      hide Linked, RecordsOf, AllSteady, OnePerPeer, Survivors, Queued, OnTrack;
      ghost var rs, all := RecordsOf(list), list;
      ghost var goal, goalQ := Survivors(rs, now), queue + Queued(rs, now);
      var sender := upload;
      ghost var k: nat := 0;
      AtHead();
      TrackStarts(rs, queue, now);
      while sender != null
        invariant Valid() && k <= |list| && sender == (if k < |list| then list[k] else null)
        invariant AllSteady(RecordsOf(list)) && (forall i :: 0 <= i < |list| ==> list[i] in all)
        invariant OnTrack(RecordsOf(list), k, queue, now, goal, goalQ)
        decreases |list| - k, if sender == null then 0 else 7 - sender.dropped
      {
        sender, k := CcStep(sender, k, now, goal, goalQ);
      }
      TrackEnds(RecordsOf(list), queue, now, goal, goalQ);
      SurvivorsOnePerPeer(rs, now);
    }
  }
}
