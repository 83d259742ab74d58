/** One chunk in transit: cut into numbered packets by the sender, put together again by the receiver. */
module Reassembly {
  import opened Octets

  const CHUNK_SIZE: nat := 512 * 1024
  const MAX_DATA: nat := 1500 - 16

  /** A DATA packet: its sequence number and its payload. */
  datatype Segment = Segment(num: nat, data: Bytes)

  /** A list node: a placeholder, or a received packet. */
  datatype Slot = Empty | Got(data: Bytes)

  /** The receiver's record of a chunk: slot i is packet i + 1, then the next packet it expects and the
      number of bytes it counted. */
  datatype Assembly = Assembly(slots: seq<Slot>, next: nat, total: nat)

  const NOTHING := Assembly([], 1, 0)

  // ---------- receiving ----------

  function Placeholders(n: nat): (s: seq<Slot>)
    ensures |s| == n && forall i :: 0 <= i < n ==> s[i] == Empty
  {
    seq(n, _ => Empty)
  }

  function Place(s: seq<Slot>, i: nat, x: Slot): (r: seq<Slot>)
    ensures |r| == if i < |s| then |s| else i + 1
    ensures forall j :: 0 <= j < |r| ==> r[j] == if j == i then x else if j < |s| then s[j] else Empty
  {
    if i < |s| then s[i := x] else s + Placeholders(i - |s|) + [x]
  }

  /** How many packets have arrived without a gap. */
  function Prefix(s: seq<Slot>): (n: nat)
    ensures n <= |s| && (forall i :: 0 <= i < n ==> s[i].Got?) && (n < |s| ==> s[n].Empty?)
  {
    if s == [] || s[0].Empty? then 0 else 1 + Prefix(s[1..])
  }

  predicate Arrived(s: seq<Slot>, n: nat) {
    1 <= n <= |s| && s[n - 1].Got?
  }

  function Add(a: Assembly, p: Segment): Assembly
    requires p.num >= 1
  {
    if Arrived(a.slots, p.num) then a
    else
      var s := Place(a.slots, p.num - 1, Got(p.data));
      Assembly(s, Prefix(s) + 1, a.total + |p.data|)
  }

  predicate Numbered(ps: seq<Segment>) {
    forall i :: 0 <= i < |ps| ==> ps[i].num >= 1
  }

  function AddAll(a: Assembly, ps: seq<Segment>): Assembly
    requires Numbered(ps)
  {
    if ps == [] then a else Add(AddAll(a, ps[..|ps| - 1]), ps[|ps| - 1])
  }

  lemma AddAllOne(a: Assembly, ps: seq<Segment>, p: Segment)
    requires Numbered(ps) && p.num >= 1
    ensures Numbered(ps + [p]) && AddAll(a, ps + [p]) == Add(AddAll(a, ps), p)
  {
    assert (ps + [p])[..|ps|] == ps;
  }

  /** Equal numbers carry equal data. */
  predicate Consistent(ps: seq<Segment>) {
    forall i, j :: 0 <= i < |ps| && 0 <= j < |ps| && ps[i].num == ps[j].num ==> ps[i] == ps[j]
  }

  predicate Occurs(ps: seq<Segment>, n: nat) {
    exists i :: 0 <= i < |ps| && ps[i].num == n
  }

  function SlotBytes(s: seq<Slot>): nat {
    if s == [] then 0
    else SlotBytes(s[..|s| - 1]) + if s[|s| - 1].Got? then |s[|s| - 1].data| else 0
  }

  lemma {:induction false} SlotBytesPlace(s: seq<Slot>, i: nat, d: Bytes)
    requires i < |s| && s[i].Empty?
    ensures SlotBytes(s[i := Got(d)]) == SlotBytes(s) + |d|
  {
    var n := |s| - 1;
    if i == n {
      assert s[i := Got(d)][..n] == s[..n];
    } else {
      assert s[i := Got(d)][..n] == s[..n][i := Got(d)];
      SlotBytesPlace(s[..n], i, d);
    }
  }

  lemma {:induction false} SlotBytesPadding(s: seq<Slot>, k: nat)
    ensures SlotBytes(s + Placeholders(k)) == SlotBytes(s)
  {
    if k == 0 {
      assert s + Placeholders(0) == s;
    } else {
      assert (s + Placeholders(k))[..|s| + k - 1] == s + Placeholders(k - 1);
      SlotBytesPadding(s, k - 1);
    }
  }

  lemma SlotBytesPlaced(s: seq<Slot>, i: nat, d: Bytes)
    requires !Arrived(s, i + 1)
    ensures SlotBytes(Place(s, i, Got(d))) == SlotBytes(s) + |d|
  {
    if i < |s| {
      SlotBytesPlace(s, i, d);
    } else {
      var t := s + Placeholders(i - |s|);
      SlotBytesPadding(s, i - |s|);
      assert (t + [Got(d)])[..|t|] == t;
    }
  }

  /** The record says what it claims: the counters fit the list, and the list ends with a received packet. */
  ghost predicate Sensible(a: Assembly, extra: nat) {
    && a.next == Prefix(a.slots) + 1
    && a.total == extra + SlotBytes(a.slots)
    && (a.slots != [] ==> a.slots[|a.slots| - 1].Got?)
  }

  lemma AddKeepsSensible(a: Assembly, p: Segment, extra: nat)
    requires Sensible(a, extra) && p.num >= 1
    ensures Sensible(Add(a, p), extra)
  {
    hide SlotBytes, Prefix;
    if !Arrived(a.slots, p.num) {
      SlotBytesPlaced(a.slots, p.num - 1, p.data);
    }
  }

  /** Node i is received exactly when packet i occurred, with its data. */
  ghost predicate Records(ps: seq<Segment>, s: seq<Slot>) {
    && (forall n: nat :: Arrived(s, n) <==> Occurs(ps, n))
    && (forall i :: 0 <= i < |ps| ==> Arrived(s, ps[i].num) && s[ps[i].num - 1] == Got(ps[i].data))
  }

  lemma OccursAppend(qs: seq<Segment>, p: Segment)
    ensures forall n: nat :: Occurs(qs + [p], n) <==> Occurs(qs, n) || n == p.num
  {
    var ps := qs + [p];
    forall n: nat ensures Occurs(ps, n) <==> Occurs(qs, n) || n == p.num {
      assert ps[|qs|] == p;
      if Occurs(qs, n) {
        var i :| 0 <= i < |qs| && qs[i].num == n;
        assert ps[i].num == n;
      }
      if Occurs(ps, n) && n != p.num {
        var i :| 0 <= i < |ps| && ps[i].num == n;
        assert qs[i].num == n;
      }
    }
  }

  /** No earlier packet has the number of the i-th. */
  predicate IsFirst(ps: seq<Segment>, i: nat)
    requires i < |ps|
  {
    !Occurs(ps[..i], ps[i].num)
  }

  /** Node i is received exactly when packet i occurred, with the data that came first. */
  ghost predicate KeepsFirst(ps: seq<Segment>, s: seq<Slot>) {
    && (forall n: nat :: Arrived(s, n) <==> Occurs(ps, n))
    && (forall i :: 0 <= i < |ps| && IsFirst(ps, i) ==>
          Arrived(s, ps[i].num) && s[ps[i].num - 1] == Got(ps[i].data))
  }

  lemma AddKeepsFirst(qs: seq<Segment>, p: Segment, a: Assembly)
    requires p.num >= 1 && KeepsFirst(qs, a.slots)
    ensures KeepsFirst(qs + [p], Add(a, p).slots)
  {
    hide Prefix, Occurs;
    var ps := qs + [p];
    OccursAppend(qs, p);
    assert ps[|qs|] == p && ps[..|qs|] == qs;
    assert forall i :: 0 <= i < |qs| ==> ps[..i] == qs[..i] && ps[i] == qs[i];
    assert forall i :: 0 <= i < |qs| && IsFirst(ps, i) ==> IsFirst(qs, i);
  }

  lemma NothingSensible(extra: nat)
    ensures Sensible(Assembly([], 1, extra), extra) && KeepsFirst([], [])
  {
  }

  /** What any packet sequence leaves behind, even one whose packets contradict each other. */
  lemma {:induction false} FirstCounts(ps: seq<Segment>, extra: nat)
    requires Numbered(ps)
    ensures var a := AddAll(Assembly([], 1, extra), ps);
            Sensible(a, extra) && KeepsFirst(ps, a.slots)
  {
    hide Sensible, KeepsFirst, Add;
    if ps == [] {
      NothingSensible(extra);
    } else {
      var qs, p := ps[..|ps| - 1], ps[|ps| - 1];
      assert ps == qs + [p];
      FirstCounts(qs, extra);
      AddKeepsSensible(AddAll(Assembly([], 1, extra), qs), p, extra);
      AddKeepsFirst(qs, p, AddAll(Assembly([], 1, extra), qs));
    }
  }

  lemma {:induction false} FirstOf(ps: seq<Segment>, i: nat)
    requires i < |ps|
    ensures exists k :: 0 <= k <= i && IsFirst(ps, k) && ps[k].num == ps[i].num
  {
    if !IsFirst(ps, i) {
      var j :| 0 <= j < i && ps[..i][j].num == ps[i].num;
      FirstOf(ps, j);
    }
  }

  /** What a consistent packet sequence leaves behind: its packets and nothing else; the list ends at the
      highest number; next is the least missing number; the count is the sum over the distinct packets. */
  lemma Reassembled(ps: seq<Segment>, extra: nat)
    requires Numbered(ps) && Consistent(ps)
    ensures var a := AddAll(Assembly([], 1, extra), ps);
            Sensible(a, extra) && Records(ps, a.slots)
  {
    hide Sensible, AddAll, Occurs, IsFirst;
    FirstCounts(ps, extra);
    var s := AddAll(Assembly([], 1, extra), ps).slots;
    forall i | 0 <= i < |ps| ensures Arrived(s, ps[i].num) && s[ps[i].num - 1] == Got(ps[i].data) {
      FirstOf(ps, i);
      var k :| 0 <= k <= i && IsFirst(ps, k) && ps[k].num == ps[i].num;
      assert ps[k] == ps[i];
    }
  }

  lemma SameOccurrences(ps: seq<Segment>, qs: seq<Segment>)
    requires forall x :: x in ps <==> x in qs
    ensures forall n: nat :: Occurs(ps, n) <==> Occurs(qs, n)
  {
    forall n: nat ensures Occurs(ps, n) <==> Occurs(qs, n) {
      if Occurs(ps, n) {
        var i :| 0 <= i < |ps| && ps[i].num == n;
        assert ps[i] in qs;
      }
      if Occurs(qs, n) {
        var i :| 0 <= i < |qs| && qs[i].num == n;
        assert qs[i] in ps;
      }
    }
  }

  lemma SameNode(ps: seq<Segment>, qs: seq<Segment>, s: seq<Slot>, t: seq<Slot>, i: nat)
    requires Records(ps, s) && Records(qs, t) && (forall x :: x in ps ==> x in qs)
    requires i < |s| && i < |t| && (Arrived(s, i + 1) <==> Arrived(t, i + 1))
    ensures s[i] == t[i]
  {
    if Arrived(s, i + 1) {
      assert Occurs(ps, i + 1);
      var j :| 0 <= j < |ps| && ps[j].num == i + 1;
      assert ps[j] in qs;
      var k :| 0 <= k < |qs| && qs[k] == ps[j];
    } else {
      assert !Arrived(t, i + 1);
    }
  }

  lemma SameNodes(ps: seq<Segment>, qs: seq<Segment>, s: seq<Slot>, t: seq<Slot>)
    requires Records(ps, s) && Records(qs, t) && forall x :: x in ps <==> x in qs
    requires (s != [] ==> s[|s| - 1].Got?) && (t != [] ==> t[|t| - 1].Got?)
    ensures s == t
  {
    SameOccurrences(ps, qs);
    assert forall n: nat :: Arrived(s, n) <==> Arrived(t, n);
    assert |s| == |t| by {
      assert s != [] ==> Arrived(s, |s|);
      assert t != [] ==> Arrived(t, |t|);
    }
    forall i | 0 <= i < |s| ensures s[i] == t[i] {
      SameNode(ps, qs, s, t, i);
    }
  }

  /** Order and repetition do not matter: two consistent sequences of the same packets leave equal records. */
  lemma OrderIndependent(ps: seq<Segment>, qs: seq<Segment>, extra: nat)
    requires Numbered(ps) && Consistent(ps) && Numbered(qs) && Consistent(qs)
    requires forall x :: x in ps <==> x in qs
    ensures AddAll(Assembly([], 1, extra), ps) == AddAll(Assembly([], 1, extra), qs)
  {
    hide SlotBytes, Prefix, AddAll, Records;
    Reassembled(ps, extra);
    Reassembled(qs, extra);
    SameNodes(ps, qs, AddAll(Assembly([], 1, extra), ps).slots, AddAll(Assembly([], 1, extra), qs).slots);
  }

  lemma PrefixIsGapless(s: seq<Slot>)
    ensures !Arrived(s, Prefix(s) + 1) && forall n :: 1 <= n <= Prefix(s) ==> Arrived(s, n)
  {
    assert |s| > Prefix(s) ==> s[Prefix(s)].Empty?;
  }

  /** The acknowledged number is the end of the gapless prefix. */
  lemma NextIsLeastMissing(ps: seq<Segment>, extra: nat)
    requires Numbered(ps)
    ensures var a := AddAll(Assembly([], 1, extra), ps);
            a.next >= 1 && !Occurs(ps, a.next) && forall n :: 1 <= n < a.next ==> Occurs(ps, n)
  {
    hide SlotBytes, AddAll, Occurs;
    FirstCounts(ps, extra);
    var a := AddAll(Assembly([], 1, extra), ps);
    PrefixIsGapless(a.slots);
    forall n | 1 <= n < a.next ensures Occurs(ps, n) {
      assert Arrived(a.slots, n);
    }
    assert !Arrived(a.slots, a.next);
  }

  // ---------- sending ----------

  function NumPackets(len: nat): (n: nat)
    ensures (n > 0 ==> (n - 1) * MAX_DATA < len) && len <= n * MAX_DATA
  {
    var n := len / MAX_DATA;
    if n * MAX_DATA < len then n + 1 else n
  }

  /** Where packet n + 1 starts. */
  function Offset(len: nat, n: nat): (o: nat)
    ensures o <= len
  {
    if n * MAX_DATA < len then n * MAX_DATA else len
  }

  /** The payload of packet n. */
  function Slice(chunk: Bytes, n: nat): (d: Bytes)
    requires 1 <= n <= NumPackets(|chunk|)
    ensures 0 < |d| <= MAX_DATA && |d| == Offset(|chunk|, n) - Offset(|chunk|, n - 1)
  {
    chunk[Offset(|chunk|, n - 1)..Offset(|chunk|, n)]
  }

  /** Cuts a chunk into numbered packets. */
  method SendData(chunk: Bytes) returns (packets: seq<Segment>)
    ensures |packets| == NumPackets(|chunk|)
    ensures forall n :: 1 <= n <= |packets| ==> packets[n - 1] == Segment(n, Slice(chunk, n))
  {
    var numPackets := |chunk| / MAX_DATA;
    if numPackets * MAX_DATA < |chunk| { numPackets := numPackets + 1; }
    packets := [];
    var chunkBytes := 0;
    for i := 1 to numPackets + 1
      invariant |packets| == i - 1 && chunkBytes == Offset(|chunk|, i - 1)
      invariant forall n :: 1 <= n < i ==> packets[n - 1] == Segment(n, Slice(chunk, n))
    {
      var bufLen := if |chunk| - chunkBytes > MAX_DATA then MAX_DATA else |chunk| - chunkBytes;
      packets := packets + [Segment(i, chunk[chunkBytes..chunkBytes + bufLen])];
      chunkBytes := chunkBytes + bufLen;
    }
  }

  // ---------- both ends together ----------

  /** The packet is one that the sender cut from the chunk. */
  predicate Genuine(chunk: Bytes, p: Segment) {
    1 <= p.num <= NumPackets(|chunk|) && p.data == Slice(chunk, p.num)
  }

  predicate AllGenuine(chunk: Bytes, ps: seq<Segment>) {
    forall i :: 0 <= i < |ps| ==> Genuine(chunk, ps[i])
  }

  /** Every received node holds the sender's slice. */
  predicate SlotsGenuine(chunk: Bytes, s: seq<Slot>) {
    |s| <= NumPackets(|chunk|) && forall i :: 0 <= i < |s| && s[i].Got? ==> s[i].data == Slice(chunk, i + 1)
  }

  predicate NoGaps(s: seq<Slot>) {
    forall i :: 0 <= i < |s| ==> s[i].Got?
  }

  function Joined(s: seq<Slot>): Bytes
    requires NoGaps(s)
  {
    if s == [] then [] else Joined(s[..|s| - 1]) + s[|s| - 1].data
  }

  lemma AddKeepsGenuine(chunk: Bytes, a: Assembly, p: Segment)
    requires SlotsGenuine(chunk, a.slots) && Genuine(chunk, p)
    ensures SlotsGenuine(chunk, Add(a, p).slots)
  {
    hide SlotBytes, Prefix;
  }

  /** Counted bytes never exceed the offset of the list's end, and reach it exactly without gaps. */
  lemma {:induction false} CountBound(chunk: Bytes, s: seq<Slot>)
    requires SlotsGenuine(chunk, s)
    ensures SlotBytes(s) <= Offset(|chunk|, |s|)
    ensures SlotBytes(s) == Offset(|chunk|, |s|) <==> NoGaps(s)
  {
    if s != [] {
      var t := s[..|s| - 1];
      CountBound(chunk, t);
      assert NoGaps(s) <==> NoGaps(t) && s[|s| - 1].Got?;
      assert |Slice(chunk, |s|)| > 0;
    }
  }

  lemma {:induction false} JoinedIsPrefix(chunk: Bytes, s: seq<Slot>)
    requires SlotsGenuine(chunk, s) && NoGaps(s)
    ensures Joined(s) == chunk[..Offset(|chunk|, |s|)]
  {
    if s != [] {
      var t := s[..|s| - 1];
      JoinedIsPrefix(chunk, t);
      hide NumPackets, Offset, SlotsGenuine, NoGaps;
      assert Joined(s) == Joined(t) + s[|s| - 1].data;
      hide Joined;
    }
  }

  predicate Complete(chunk: Bytes, s: seq<Slot>) {
    |s| == NumPackets(|chunk|) && NoGaps(s)
  }

  /** The byte count reaches the chunk's length exactly when every packet has arrived, never exceeds it, and
      then the list spells out the chunk. */
  lemma CountDecides(chunk: Bytes, s: seq<Slot>)
    requires SlotsGenuine(chunk, s)
    ensures SlotBytes(s) <= |chunk|
    ensures SlotBytes(s) == |chunk| <==> Complete(chunk, s)
    ensures Complete(chunk, s) ==> Joined(s) == chunk
  {
    CountBound(chunk, s);
    if |s| < NumPackets(|chunk|) {
      assert |Slice(chunk, |s| + 1)| > 0;
    }
    if Complete(chunk, s) {
      JoinedIsPrefix(chunk, s);
    }
  }

  lemma {:induction false} AddAllGenuine(chunk: Bytes, ps: seq<Segment>, extra: nat)
    requires AllGenuine(chunk, ps)
    ensures Numbered(ps) && Consistent(ps)
    ensures SlotsGenuine(chunk, AddAll(Assembly([], 1, extra), ps).slots)
  {
    hide SlotBytes, Prefix, Add;
    if ps != [] {
      AddAllGenuine(chunk, ps[..|ps| - 1], extra);
      AddKeepsGenuine(chunk, AddAll(Assembly([], 1, extra), ps[..|ps| - 1]), ps[|ps| - 1]);
    }
  }

  predicate AllSent(chunk: Bytes, ps: seq<Segment>) {
    forall n :: 1 <= n <= NumPackets(|chunk|) ==> Occurs(ps, n)
  }

  lemma CompleteIffAll(chunk: Bytes, ps: seq<Segment>, extra: nat)
    requires AllGenuine(chunk, ps)
    ensures Numbered(ps)
    ensures Complete(chunk, AddAll(Assembly([], 1, extra), ps).slots) <==> AllSent(chunk, ps)
  {
    hide SlotBytes, Prefix, AddAll, NumPackets;
    AddAllGenuine(chunk, ps, extra);
    Reassembled(ps, extra);
    var s := AddAll(Assembly([], 1, extra), ps).slots;
    var n := NumPackets(|chunk|);
    if AllSent(chunk, ps) {
      assert n > 0 ==> Arrived(s, n) by { assert n > 0 ==> Occurs(ps, n); }
      forall i | 0 <= i < |s| ensures s[i].Got? {
        assert Occurs(ps, i + 1);
        assert Arrived(s, i + 1);
      }
    }
    if Complete(chunk, s) {
      forall k | 1 <= k <= n ensures Occurs(ps, k) {
        assert Arrived(s, k);
      }
    }
  }

  /** Slice, lose, duplicate, reorder, reassemble: from a fresh count the total never exceeds the chunk, equals
      it exactly when every packet has arrived at least once, and then the list is the chunk. */
  lemma RoundTrip(chunk: Bytes, ps: seq<Segment>)
    requires AllGenuine(chunk, ps)
    ensures Numbered(ps)
    ensures var a := AddAll(NOTHING, ps);
            && a.total <= |chunk|
            && (a.total == |chunk| <==> AllSent(chunk, ps))
            && (AllSent(chunk, ps) ==> NoGaps(a.slots) && Joined(a.slots) == chunk)
  {
    hide SlotBytes, Prefix, AddAll, NumPackets;
    AddAllGenuine(chunk, ps, 0);
    Reassembled(ps, 0);
    CompleteIffAll(chunk, ps, 0);
    CountDecides(chunk, AddAll(NOTHING, ps).slots);
  }

  // ---------- the completion test after an earlier failure ----------

  /** The receiver calls a chunk finished when this holds. */
  predicate Finished(a: Assembly) {
    a.total >= CHUNK_SIZE
  }

  const FULL_PACKETS: nat := 353
  const LAST_SLICE: nat := 436  // what is left after the full packets

  lemma {:induction false} GapCostsUpTo(chunk: Bytes, s: seq<Slot>)
    requires |chunk| == CHUNK_SIZE && SlotsGenuine(chunk, s)
    ensures !NoGaps(s) ==> SlotBytes(s) + LAST_SLICE <= Offset(|chunk|, |s|)
    ensures |s| < NumPackets(|chunk|) ==> SlotBytes(s) + LAST_SLICE <= CHUNK_SIZE
  {
    CountBound(chunk, s);
    if s != [] {
      var t := s[..|s| - 1];
      GapCostsUpTo(chunk, t);
      CountBound(chunk, t);
      assert |Slice(chunk, |s|)| >= LAST_SLICE;
      assert NoGaps(s) <==> NoGaps(t) && s[|s| - 1].Got?;
    }
  }

  lemma GapCosts(chunk: Bytes, s: seq<Slot>)
    requires |chunk| == CHUNK_SIZE && SlotsGenuine(chunk, s) && !Complete(chunk, s)
    ensures SlotBytes(s) <= CHUNK_SIZE - LAST_SLICE
  {
    GapCostsUpTo(chunk, s);
  }

  lemma FinishMeansComplete(chunk: Bytes, ps: seq<Segment>, extra: nat)
    requires |chunk| == CHUNK_SIZE && extra < LAST_SLICE && AllGenuine(chunk, ps)
    requires Numbered(ps) && Finished(AddAll(Assembly([], 1, extra), ps))
    ensures AllSent(chunk, ps)
  {
    hide SlotBytes, Prefix, AddAll, NumPackets;
    AddAllGenuine(chunk, ps, extra);
    Reassembled(ps, extra);
    CompleteIffAll(chunk, ps, extra);
    var s := AddAll(Assembly([], 1, extra), ps).slots;
    if !Complete(chunk, s) { GapCosts(chunk, s); }
  }

  function FirstPackets(chunk: Bytes, k: nat): (ps: seq<Segment>)
    requires k <= NumPackets(|chunk|)
    ensures |ps| == k && forall i :: 0 <= i < k ==> ps[i] == Segment(i + 1, Slice(chunk, i + 1))
  {
    if k == 0 then [] else FirstPackets(chunk, k - 1) + [Segment(k, Slice(chunk, k))]
  }

  lemma FirstPacketsMiss(chunk: Bytes, k: nat)
    requires k < NumPackets(|chunk|)
    ensures AllGenuine(chunk, FirstPackets(chunk, k)) && !Occurs(FirstPackets(chunk, k), k + 1)
    ensures !AllSent(chunk, FirstPackets(chunk, k))
  {
    hide NumPackets, Slice, FirstPackets;
    assert !Occurs(FirstPackets(chunk, k), k + 1);
  }

  /** The first k packets leave k slots without a gap. */
  lemma FirstPacketsFill(chunk: Bytes, k: nat, s: seq<Slot>)
    requires k <= NumPackets(|chunk|) && Records(FirstPackets(chunk, k), s) && (s != [] ==> s[|s| - 1].Got?)
    ensures |s| == k && NoGaps(s)
  {
    hide NumPackets, Slice, FirstPackets;
    var ps := FirstPackets(chunk, k);
    forall i | 0 <= i < k ensures i < |s| && s[i].Got? {
      assert ps[i].num == i + 1 && Arrived(s, ps[i].num);
    }
    if k > 0 { assert ps[k - 1].num == k && Arrived(s, k); }
    assert s != [] ==> Arrived(s, |s|);
  }

  lemma FullChunk(len: nat)
    requires len == CHUNK_SIZE
    ensures NumPackets(len) == FULL_PACKETS + 1 && Offset(len, FULL_PACKETS) == CHUNK_SIZE - LAST_SLICE
  {
  }

  /** All packets but the last. */
  lemma AllButLast(chunk: Bytes, extra: nat) returns (ps: seq<Segment>)
    requires |chunk| == CHUNK_SIZE && extra >= LAST_SLICE
    ensures AllGenuine(chunk, ps) && Numbered(ps) && !AllSent(chunk, ps)
    ensures Finished(AddAll(Assembly([], 1, extra), ps))
  {
    hide NumPackets, Offset, FirstPackets, AddAll, SlotBytes, Prefix, AllSent, Records, NoGaps, SlotsGenuine;
    var n := FULL_PACKETS;
    FullChunk(|chunk|);
    ps := FirstPackets(chunk, n);
    FirstPacketsMiss(chunk, n);
    AddAllGenuine(chunk, ps, extra);
    Reassembled(ps, extra);
    var s := AddAll(Assembly([], 1, extra), ps).slots;
    FirstPacketsFill(chunk, n, s);
    CountBound(chunk, s);
  }

  /** A transfer whose byte count does not start from zero may be called finished too early.  For a full chunk
      the test is right for every arrival sequence exactly when the count starts below the size of the last
      packet; send_get does not reset the count, and after a hash mismatch it is at least CHUNK_SIZE. */
  lemma EarlyFinish(chunk: Bytes, extra: nat)
    requires |chunk| == CHUNK_SIZE
    ensures (forall ps :: AllGenuine(chunk, ps) && Numbered(ps) && Finished(AddAll(Assembly([], 1, extra), ps))
                          ==> AllSent(chunk, ps))
            <==> extra < LAST_SLICE
  {
    if extra < LAST_SLICE {
      forall ps | AllGenuine(chunk, ps) && Numbered(ps) && Finished(AddAll(Assembly([], 1, extra), ps))
        ensures AllSent(chunk, ps)
      {
        FinishMeansComplete(chunk, ps, extra);
      }
    } else {
      var ps := AllButLast(chunk, extra);
      assert Finished(AddAll(Assembly([], 1, extra), ps)) && !AllSent(chunk, ps);
    }
  }

  lemma FirstPacketsSent(chunk: Bytes, k: nat)
    requires k <= NumPackets(|chunk|)
    ensures AllGenuine(chunk, FirstPackets(chunk, k))
    ensures AllSent(chunk, FirstPackets(chunk, k)) <==> k == NumPackets(|chunk|)
  {
    hide NumPackets, Slice, FirstPackets;
    var ps := FirstPackets(chunk, k);
    if k < NumPackets(|chunk|) {
      FirstPacketsMiss(chunk, k);
    } else {
      forall n | 1 <= n <= k ensures Occurs(ps, n) {
        assert ps[n - 1].num == n;
      }
    }
  }
}
