/** One chunk transfer as a protocol: the sender, the receiver, and a network that loses, duplicates and
    reorders whatever was ever put on it. */
module Transfer {
  import opened Octets
  import opened Reassembly
  import opened Upload

  /** `data` and `acks` hold every packet ever queued: a packet in them may be delivered at any time, any
      number of times, or never.  `highest` is the highest number ever queued; `finished` says that the sender
      removed the upload as completely acknowledged. */
  datatype State = State(up: Option<Sender>, record: Assembly, receiving: bool,
                         data: set<int>, acks: set<int>, highest: int, finished: bool)

  function Start(chunk: Bytes): State {
    State(Some(NewSender(NumPackets(|chunk|))), NOTHING, true, {}, {}, 0, false)
  }

  datatype Event =
    | CcPass(now: int)  // congestion control looks at the upload
    | DataIn(num: int)  // a DATA packet reaches the receiver
    | AckIn(num: int)   // an acknowledgement reaches the sender
    | GiveUp            // the receiver declares the peer bad

  function Highest(before: int, queued: seq<int>): int {
    if queued != [] && queued[|queued| - 1] > before then queued[|queued| - 1] else before
  }

  /** The network can produce the event. */
  predicate Possible(chunk: Bytes, s: State, e: Event) {
    match e
    case CcPass(_) => true
    case DataIn(n) => n in s.data && 1 <= n <= NumPackets(|chunk|)
    case AckIn(n) => n in s.acks
    case GiveUp => true
  }

  function Next(chunk: Bytes, s: State, e: Event): State
    requires Possible(chunk, s, e)
  {
    match e
    case CcPass(now) =>
      if s.up.None? then s else
        var o := Pass(s.up.value, now);
        s.(up := o.kept, data := s.data + (set n | n in o.queued), highest := Highest(s.highest, o.queued),
           finished := s.finished || s.up.value.num == s.up.value.lastAcked)
    case DataIn(n) =>
      if !s.receiving then s else
        var r := Add(s.record, Segment(n, Slice(chunk, n)));
        s.(record := r, acks := s.acks + {r.next - 1}, receiving := !Finished(r))
    case AckIn(n) =>
      if s.up.None? then s else s.(up := Some(Ack(s.up.value, n)))
    case GiveUp => s.(receiving := false)
  }

  // ---------- the invariant ----------

  ghost predicate SenderOk(chunk: Bytes, s: State) {
    s.up.Some? ==> Steady(s.up.value) && s.up.value.num == NumPackets(|chunk|) && s.up.value.lastAcked < s.record.next
  }

  ghost predicate NetworkOk(chunk: Bytes, s: State) {
    && (forall n :: n in s.data ==> 1 <= n <= s.highest)
    && 0 <= s.highest <= NumPackets(|chunk|)
    && (forall n :: n in s.acks ==> 0 <= n < s.record.next)
  }

  ghost predicate ReceiverOk(chunk: Bytes, s: State) {
    && Sensible(s.record, 0) && SlotsGenuine(chunk, s.record.slots) && |s.record.slots| <= s.highest
    && (s.receiving ==> !Finished(s.record))
  }

  ghost predicate Inv(chunk: Bytes, s: State) {
    && SenderOk(chunk, s) && NetworkOk(chunk, s) && ReceiverOk(chunk, s)
    && (s.finished ==> s.record.next > NumPackets(|chunk|))
  }

  lemma {:induction false} PrefixGrows(s: seq<Slot>, i: nat, d: Bytes)
    requires !Arrived(s, i + 1)
    ensures Prefix(Place(s, i, Got(d))) >= Prefix(s)
  {
    var t := Place(s, i, Got(d));
    var k := Prefix(t);
    assert k < |t| ==> t[k].Empty?;
    assert k < |s| ==> t[k] == s[k] || k == i;
    assert forall j :: 0 <= j < Prefix(s) ==> s[j].Got?;
  }

  lemma AddAdvances(a: Assembly, p: Segment)
    requires Sensible(a, 0) && p.num >= 1
    ensures Add(a, p).next >= a.next
    ensures |Add(a, p).slots| <= if p.num > |a.slots| then p.num else |a.slots|
  {
    hide Prefix, SlotBytes;
    if !Arrived(a.slots, p.num) { PrefixGrows(a.slots, p.num - 1, p.data); }
  }

  /** The last number queued in a pass is the largest. */
  lemma QueuedAscend(u: Sender, now: int)
    ensures var q := Pass(u, now).queued; forall n :: n in q ==> n <= q[|q| - 1]
  {
  }

  lemma PassKeeps(chunk: Bytes, s: State, now: int)
    requires Inv(chunk, s)
    ensures Inv(chunk, Next(chunk, s, CcPass(now)))
  {
    hide Sensible, SlotsGenuine, NumPackets;
    if s.up.Some? {
      var u := s.up.value;
      PassKeepsSteady(u, now);
      QueuedAreReal(u, now);
      QueuedAscend(u, now);
      hide Pass, Steady;
    }
  }

  lemma DataKeeps(chunk: Bytes, s: State, n: int)
    requires Inv(chunk, s) && Possible(chunk, s, DataIn(n))
    ensures Inv(chunk, Next(chunk, s, DataIn(n)))
  {
    hide Steady, NumPackets, Add;
    if s.receiving {
      var p := Segment(n, Slice(chunk, n));
      AddKeepsSensible(s.record, p, 0);
      AddKeepsGenuine(chunk, s.record, p);
      AddAdvances(s.record, p);
      hide Sensible, SlotsGenuine;
    }
  }

  lemma AckRaises(u: Sender, n: int)
    ensures Ack(u, n).lastAcked == if u.lastAcked < n then n else u.lastAcked
  {
  }

  lemma PrefixWithinHighest(chunk: Bytes, s: State)
    requires ReceiverOk(chunk, s)
    ensures s.record.next - 1 <= |s.record.slots| <= s.highest
  {
    hide SlotBytes;
  }

  lemma AckKeeps(chunk: Bytes, s: State, n: int)
    requires Inv(chunk, s) && Possible(chunk, s, AckIn(n))
    ensures Inv(chunk, Next(chunk, s, AckIn(n)))
  {
    hide SlotsGenuine, NumPackets;
    if s.up.Some? {
      PrefixWithinHighest(chunk, s);
      hide Sensible;
      AckKeepsSteady(s.up.value, n);
      AckRaises(s.up.value, n);
      hide Ack, Steady;
    }
  }

  // ---------- runs ----------

  ghost predicate IsRun(chunk: Bytes, es: seq<Event>, ss: seq<State>) {
    && |ss| == |es| + 1 && ss[0] == Start(chunk)
    && forall i :: 0 <= i < |es| ==> Possible(chunk, ss[i], es[i]) && ss[i + 1] == Next(chunk, ss[i], es[i])
  }

  lemma StartsUnacked(n: nat)
    ensures NewSender(n).num == n && NewSender(n).lastAcked == 0
  {
  }

  lemma StartOk(chunk: Bytes)
    ensures Inv(chunk, Start(chunk))
  {
    hide Steady, Sensible, NumPackets, NewSender;
    NewIsSteady(NumPackets(|chunk|));
    NothingSensible(0);
    StartsUnacked(NumPackets(|chunk|));
  }

  lemma StepKeeps(chunk: Bytes, s: State, e: Event)
    requires Inv(chunk, s) && Possible(chunk, s, e)
    ensures Inv(chunk, Next(chunk, s, e))
  {
    match e
    case CcPass(now) => PassKeeps(chunk, s, now);
    case DataIn(n) => DataKeeps(chunk, s, n);
    case AckIn(n) => AckKeeps(chunk, s, n);
    case GiveUp => hide Sensible, SlotsGenuine, Steady;
  }

  lemma {:induction false} RunKeeps(chunk: Bytes, es: seq<Event>, ss: seq<State>, i: nat)
    requires IsRun(chunk, es, ss) && i < |ss|
    ensures Inv(chunk, ss[i])
  {
    hide Inv, Next, Start;
    if i == 0 {
      StartOk(chunk);
    } else {
      RunKeeps(chunk, es, ss, i - 1);
      StepKeeps(chunk, ss[i - 1], es[i - 1]);
    }
  }

  lemma InvMeans(chunk: Bytes, s: State)
    requires Inv(chunk, s)
    ensures (s.up.Some? ==> 0 <= s.up.value.lastAcked <= s.record.next - 1)
    ensures s.record.next - 1 <= s.highest <= NumPackets(|chunk|)
    ensures s.record.total <= |chunk|
    ensures s.finished ==> Complete(chunk, s.record.slots) && Joined(s.record.slots) == chunk
    ensures |chunk| == CHUNK_SIZE && Finished(s.record) ==>
              Complete(chunk, s.record.slots) && Joined(s.record.slots) == chunk
    ensures |chunk| == CHUNK_SIZE && s.finished ==> !s.receiving
  {
    hide SlotBytes, Joined;
    PrefixWithinHighest(chunk, s);
    CountDecides(chunk, s.record.slots);
  }

  /** In every state of every run: what the sender believes acknowledged has arrived without a gap, and nothing
      has arrived that was not sent.  When the sender is done the receiver holds the whole chunk, byte for
      byte; and the receiver calls a full chunk finished only then. */
  lemma EndToEnd(chunk: Bytes, es: seq<Event>, ss: seq<State>, i: nat)
    requires IsRun(chunk, es, ss) && i < |ss|
    ensures var s := ss[i];
            && (s.up.Some? ==> 0 <= s.up.value.lastAcked <= s.record.next - 1)
            && s.record.next - 1 <= s.highest <= NumPackets(|chunk|)
            && s.record.total <= |chunk|
            && (s.finished ==> Complete(chunk, s.record.slots) && Joined(s.record.slots) == chunk)
            && (|chunk| == CHUNK_SIZE && Finished(s.record) ==>
                  Complete(chunk, s.record.slots) && Joined(s.record.slots) == chunk)
            && (|chunk| == CHUNK_SIZE && s.finished ==> !s.receiving)
  {
    RunKeeps(chunk, es, ss, i);
    InvMeans(chunk, ss[i]);
  }

  // ---------- how a lost packet ends an upload ----------

  lemma FirstArrives(chunk: Bytes) returns (a: Assembly)
    requires NumPackets(|chunk|) >= 3
    ensures a == Add(NOTHING, Segment(1, Slice(chunk, 1))) && a.next == 2 && !Finished(a)
    ensures a.slots == [Got(Slice(chunk, 1))] && a.total <= MAX_DATA
  {
    hide NumPackets, Slice;
    a := Add(NOTHING, Segment(1, Slice(chunk, 1)));
    assert a.slots == [Got(Slice(chunk, 1))];
  }

  lemma FirstAndThird(chunk: Bytes) returns (b: Assembly)
    requires NumPackets(|chunk|) >= 3
    ensures b == Add(Add(NOTHING, Segment(1, Slice(chunk, 1))), Segment(3, Slice(chunk, 3)))
    ensures b.next == 2 && !Finished(b)
  {
    hide NumPackets, Slice;
    var a := FirstArrives(chunk);
    b := Add(a, Segment(3, Slice(chunk, 3)));
    assert b.slots == [Got(Slice(chunk, 1)), Empty, Got(Slice(chunk, 3))];
    assert b.slots[1..][0] == Empty;
  }

  /** The three passes of this run. */
  lemma FirstPasses(n: nat)
    requires n >= 3
    ensures Pass(NewSender(n), 1) == Outcome(Some(Sender(n, 0, 1, 1, 0, 64, false, 0, 1, 0)), [1], 0)
    ensures Pass(Sender(n, 1, 1, 2, 0, 64, false, 0, 1, 0), 2)
         == Outcome(Some(Sender(n, 1, 3, 2, 0, 64, false, 0, 2, 0)), [2, 3], 0)
    ensures Pass(Sender(n, 1, 3, 4, 0, 64, false, 2, 2, 0), 3) == Outcome(None, [2, 2, 2, 2, 2], 6)
  {
    assert Numbers(1, 1) == [1];
    assert Numbers(2, 3) == [2, 3];
    assert Repeat(2, 5) == [2, 2, 2, 2, 2];
  }

  /** The three acknowledgements of this run. */
  lemma FirstAcks(n: nat)
    requires n >= 3
    ensures Ack(Sender(n, 0, 1, 1, 0, 64, false, 0, 1, 0), 1) == Sender(n, 1, 1, 2, 0, 64, false, 0, 1, 0)
    ensures Ack(Sender(n, 1, 3, 2, 0, 64, false, 0, 2, 0), 1) == Sender(n, 1, 3, 3, 0, 64, false, 1, 2, 0)
    ensures Ack(Sender(n, 1, 3, 3, 0, 64, false, 1, 2, 0), 1) == Sender(n, 1, 3, 4, 0, 64, false, 2, 2, 0)
  {
  }

  ghost predicate Steps(chunk: Bytes, s: State, e: Event, t: State) {
    Possible(chunk, s, e) && t == Next(chunk, s, e) && e != GiveUp
  }

  lemma PassStep(chunk: Bytes, s: State, now: int, t: State)
    requires s.up.Some? && s.up.value.num != s.up.value.lastAcked
    requires var o := Pass(s.up.value, now);
             t == State(o.kept, s.record, s.receiving, t.data, s.acks, Highest(s.highest, o.queued), s.finished)
             && t.data == s.data + set n | n in o.queued
    ensures Steps(chunk, s, CcPass(now), t)
  {
    hide Pass;
  }

  lemma AckStep(chunk: Bytes, s: State, n: int, t: State)
    requires s.up.Some? && n in s.acks && t == s.(up := Some(Ack(s.up.value, n)))
    ensures Steps(chunk, s, AckIn(n), t)
  {
    hide Ack;
  }

  lemma DataStep(chunk: Bytes, s: State, n: int, t: State)
    requires s.receiving && n in s.data && 1 <= n <= NumPackets(|chunk|)
    requires var r := Add(s.record, Segment(n, Slice(chunk, n)));
             !Finished(r) && t == s.(record := r, acks := s.acks + {r.next - 1})
    ensures Steps(chunk, s, DataIn(n), t)
  {
    hide Add, NumPackets, Slice, Finished;
  }

  lemma OneMore(chunk: Bytes, es: seq<Event>, ss: seq<State>, e: Event, t: State)
    requires IsRun(chunk, es, ss) && Steps(chunk, ss[|es|], e, t)
    ensures IsRun(chunk, es + [e], ss + [t])
  {
    hide Next, Possible;
  }

  /** Two more steps, and where they lead. */
  lemma TwoMore(chunk: Bytes, es: seq<Event>, ss: seq<State>, e: Event, t: State, f: Event, u: State)
    returns (es': seq<Event>, ss': seq<State>)
    requires IsRun(chunk, es, ss) && Steps(chunk, ss[|es|], e, t) && Steps(chunk, t, f, u)
    ensures IsRun(chunk, es', ss') && es' == es + [e, f] && ss'[|es'| - 1] == t && ss'[|es'|] == u
  {
    hide Steps, Next, Possible;
    OneMore(chunk, es, ss, e, t);
    OneMore(chunk, es + [e], ss + [t], f, u);
    es', ss' := es + [e] + [f], ss + [t] + [u];
  }

  lemma NoStep(chunk: Bytes)
    ensures IsRun(chunk, [], [Start(chunk)])
  {
  }

  /** Packet 2 is lost, packet 3 arrives, and the acknowledgement that repeats 1 is delivered twice: the next pass
      ends the upload although nobody gave up. */
  lemma LostPacketEndsUpload(chunk: Bytes) returns (es: seq<Event>, ss: seq<State>)
    requires NumPackets(|chunk|) >= 3
    ensures IsRun(chunk, es, ss)
    ensures es == [CcPass(1), DataIn(1), AckIn(1), CcPass(2), DataIn(3), AckIn(1), AckIn(1), CcPass(3)]
    ensures ss[7].up.Some? && ss[8].up.None? && !ss[8].finished && ss[8].receiving
  {
    hide NumPackets, Slice, Add, Finished, Pass, Ack, Steps, IsRun;
    var n := NumPackets(|chunk|);
    var a := FirstArrives(chunk);
    var b := FirstAndThird(chunk);
    FirstPasses(n);
    FirstAcks(n);
    var s0 := Start(chunk);
    var s1 := s0.(up := Some(Sender(n, 0, 1, 1, 0, 64, false, 0, 1, 0)), data := {1}, highest := 1);
    var s2 := s1.(record := a, acks := {1});
    var s3 := s2.(up := Some(Sender(n, 1, 1, 2, 0, 64, false, 0, 1, 0)));
    var s4 := s3.(up := Some(Sender(n, 1, 3, 2, 0, 64, false, 0, 2, 0)), data := {1, 2, 3}, highest := 3);
    var s5 := s4.(record := b);
    var s6 := s5.(up := Some(Sender(n, 1, 3, 3, 0, 64, false, 1, 2, 0)));
    var s7 := s6.(up := Some(Sender(n, 1, 3, 4, 0, 64, false, 2, 2, 0)));
    var s8 := s7.(up := None);
    PassStep(chunk, s0, 1, s1);
    DataStep(chunk, s1, 1, s2);
    AckStep(chunk, s2, 1, s3);
    PassStep(chunk, s3, 2, s4);
    DataStep(chunk, s4, 3, s5);
    AckStep(chunk, s5, 1, s6);
    AckStep(chunk, s6, 1, s7);
    PassStep(chunk, s7, 3, s8);
    NoStep(chunk);
    es, ss := TwoMore(chunk, [], [s0], CcPass(1), s1, DataIn(1), s2);
    es, ss := TwoMore(chunk, es, ss, AckIn(1), s3, CcPass(2), s4);
    es, ss := TwoMore(chunk, es, ss, DataIn(3), s5, AckIn(1), s6);
    es, ss := TwoMore(chunk, es, ss, AckIn(1), s7, CcPass(3), s8);
  }
}
