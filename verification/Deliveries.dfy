/** Which peer delivers which chunk, as values: what a timeout check, the requests and a packet make of it, and what
    holds over whole runs. */
module Deliveries {
  import opened Chunks
  import opened Octets
  import opened Reassembly

  import Fips180
  import Ihave

  const TIMEOUT_MILLIS: int := 15 * 1000
  const MAX_TIMEOUTS: nat := 5
  const BAD_RESET_MILLIS: int := 30 * 1000
  const WHOHAS_MILLIS: int := 15 * 1000
  const MAX_SEQNUM: nat := CHUNK_SIZE

  /** Packets queued for sending.  A WHOHAS has an 8-bit count and a 16-bit length. */
  datatype Message =
    | Get(to: nat, hash: Bytes)
    | AckOf(to: nat, num: int)
    | Whohas(to: nat, count: nat, length: nat, hashes: seq<Bytes>)

  /** How handling a DATA packet ended. */
  datatype Handled =
    | Ignored          // no transfer from that peer
    | BadNumber
    | Filed            // stored or already there
    | Undefined        // the finished list had gaps or was too long to copy
    | Mismatch         // wrong hash
    | ChunkDone        // stored as downloaded
    | AllDone          // the last chunk; the list of chunks is gone

  // ---------- lists of peers and chunks ----------

  ghost predicate DistinctPeers(ps: seq<Peer>) {
    forall i, j :: 0 <= i < j < |ps| ==> ps[i] != ps[j]
  }

  ghost predicate Distinct(cs: seq<Chunk>) {
    forall i, j :: 0 <= i < j < |cs| ==> cs[i] != cs[j]
  }

  function FirstWithAddr(ps: seq<Peer>, addr: nat): (p: Peer?)
    ensures p != null ==> p in ps && p.addr == addr
  {
    if ps == [] then null else if ps[0].addr == addr then ps[0] else FirstWithAddr(ps[1..], addr)
  }

  lemma {:induction false} AddressIsStable(ps: seq<Peer>, addr: nat)
    requires FirstWithAddr(ps, addr) != null
    ensures FirstWithAddr(ps, addr).addr == addr
    ensures FirstWithAddr(ps, FirstWithAddr(ps, addr).addr) == FirstWithAddr(ps, addr)
  {
    if ps[0].addr != addr { AddressIsStable(ps[1..], addr); }
  }

  /** The peer found has the address and none before it has; without one there is no such peer. */
  lemma {:induction false} FirstHasAddr(ps: seq<Peer>, addr: nat)
    ensures var p := FirstWithAddr(ps, addr);
            if p == null then forall i :: 0 <= i < |ps| ==> ps[i].addr != addr
            else
              p.addr == addr
              && exists k :: 0 <= k < |ps| && ps[k] == p && forall i :: 0 <= i < k ==> ps[i].addr != addr
  {
    if ps != [] {
      FirstHasAddr(ps[1..], addr);
      assert forall i :: 0 < i < |ps| ==> ps[i] == ps[1..][i - 1];
    }
  }

  function FirstWithHash(cs: seq<Chunk>, hash: Bytes): Chunk? {
    if cs == [] then null else if cs[0].hash == hash then cs[0] else FirstWithHash(cs[1..], hash)
  }

  /** The chunk found has the hash and none before it has; without one there is no such chunk. */
  lemma {:induction false} FirstHasHash(cs: seq<Chunk>, hash: Bytes)
    ensures var c := FirstWithHash(cs, hash);
            if c == null then forall i :: 0 <= i < |cs| ==> cs[i].hash != hash
            else
              c.hash == hash
              && exists k :: 0 <= k < |cs| && cs[k] == c && forall i :: 0 <= i < k ==> cs[i].hash != hash
  {
    if cs != [] {
      FirstHasHash(cs[1..], hash);
      assert forall i :: 0 < i < |cs| ==> cs[i] == cs[1..][i - 1];
    }
  }

  function HashesOf(cs: seq<Chunk>): seq<Bytes> {
    if cs == [] then [] else [cs[0].hash] + HashesOf(cs[1..])
  }

  lemma {:induction false} HashesInOrder(cs: seq<Chunk>)
    ensures |HashesOf(cs)| == |cs| && forall i :: 0 <= i < |cs| ==> HashesOf(cs)[i] == cs[i].hash
  {
    if cs != [] { HashesInOrder(cs[1..]); }
  }

  function WhohasTo(to: nat, n: nat, hashes: seq<Bytes>): Message {
    Whohas(to, n % 256, (20 + 20 * n) % 65536, hashes)
  }

  /** One WHOHAS for n chunks to every peer but the sender itself. */
  function Flood(ps: seq<Peer>, self: int, n: nat, hashes: seq<Bytes>): seq<Message> {
    if ps == [] then []
    else (if ps[0].id != self then [WhohasTo(ps[0].addr, n, hashes)] else []) + Flood(ps[1..], self, n, hashes)
  }

  /** Every peer but the sender gets one WHOHAS, in the order of the peers: the count loses all but 8 bits, and the
      length, 16 bytes of header and four of padding and count before 20 per hash, all but 16. */
  lemma {:induction false} FloodReaches(ps: seq<Peer>, self: int, n: nat, hashes: seq<Bytes>)
    ensures var ms := Flood(ps, self, n, hashes);
            && (forall p :: p in ps && p.id != self ==> Whohas(p.addr, n % 256, (20 + 20 * n) % 65536, hashes) in ms)
            && (forall m :: m in ms ==> exists p :: p in ps && p.id != self
                                                  && m == Whohas(p.addr, n % 256, (20 + 20 * n) % 65536, hashes))
            && ((forall p :: p in ps ==> p.id != self) ==>
                  |ms| == |ps| && forall i :: 0 <= i < |ps| ==> ms[i].to == ps[i].addr)
  {
    if ps != [] { FloodReaches(ps[1..], self, n, hashes); }
  }

  lemma FloodStep(ps: seq<Peer>, i: nat, self: int, n: nat, hashes: seq<Bytes>)
    requires i < |ps|
    ensures Flood(ps[i..], self, n, hashes)
         == (if ps[i].id != self then [WhohasTo(ps[i].addr, n, hashes)] else []) + Flood(ps[i + 1..], self, n, hashes)
  {
    hide WhohasTo;
    assert ps[i..][1..] == ps[i + 1..];
  }

  lemma NoFlood(self: int, n: nat, hashes: seq<Bytes>)
    ensures Flood([], self, n, hashes) == []
  {
  }

  // ---------- the hashes of an IHAVE ----------

  /** The peer once for every hash that names c, latest first. */
  ghost function Noted(cs: seq<Chunk>, hashes: seq<Bytes>, p: Peer, c: Chunk): seq<Peer> {
    if hashes == [] then [] else
      var init, last := hashes[..|hashes| - 1], hashes[|hashes| - 1];
      (if c == FirstWithHash(cs, last) then [p] else []) + Noted(cs, init, p, c)
  }

  /** How many of the hashes name c. */
  ghost function Naming(cs: seq<Chunk>, hashes: seq<Bytes>, c: Chunk): (ix: set<int>)
    ensures forall i :: i in ix ==> 0 <= i < |hashes|
  {
    set i | 0 <= i < |hashes| && FirstWithHash(cs, hashes[i]) == c
  }

  lemma {:induction false} NotedOncePerHash(cs: seq<Chunk>, hashes: seq<Bytes>, p: Peer, c: Chunk)
    ensures |Noted(cs, hashes, p, c)| == |Naming(cs, hashes, c)|
    ensures forall q :: q in Noted(cs, hashes, p, c) ==> q == p
  {
    hide FirstWithHash;
    if hashes != [] {
      var init, last := hashes[..|hashes| - 1], |hashes| - 1;
      NotedOncePerHash(cs, init, p, c);
      var more := if c == FirstWithHash(cs, hashes[last]) then {last} else {};
      assert Naming(cs, hashes, c) == Naming(cs, init, c) + more;
      assert last !in Naming(cs, init, c);
    }
  }

  lemma NotedNothing(cs: seq<Chunk>, payload: Bytes, p: Peer)
    ensures Ihave.HashesUpTo(payload, 0) == [] && forall c :: c in cs ==> Noted(cs, [], p, c) == []
  {
  }

  lemma NotedMore(cs: seq<Chunk>, payload: Bytes, i: nat, p: Peer)
    requires i < Ihave.Room(payload)
    ensures Ihave.HashAt(payload, i) == payload[4 + 20 * i..24 + 20 * i]
    ensures forall c :: c in cs ==>
              Noted(cs, Ihave.HashesUpTo(payload, i + 1), p, c)
              == (if c == FirstWithHash(cs, Ihave.HashAt(payload, i)) then [p] else [])
                 + Noted(cs, Ihave.HashesUpTo(payload, i), p, c)
  {
    hide FirstWithHash;
    var hs := Ihave.HashesUpTo(payload, i + 1);
    assert hs[..i] == Ihave.HashesUpTo(payload, i);
  }

  lemma RoomLeft(payload: Bytes, i: nat)
    requires i <= Ihave.Room(payload)
    ensures |payload| - 4 - 20 * i < 20 <==> i == Ihave.Room(payload)
  {
  }

  // ---------- lateness, as a value ----------

  /** When a peer was last heard of (-1 while nothing is expected), how often in a row it was late, and since
      when it is bad. */
  datatype Watch = Watch(last: int, late: nat, bad: int)

  predicate Late(last: int, now: int) {
    now - last > TIMEOUT_MILLIS
  }

  /** What one check at time `now` does to a peer. */
  function CheckOnce(w: Watch, now: int): Watch {
    if w.last == -1 || !Late(w.last, now) then w
    else if w.late + 1 >= MAX_TIMEOUTS then Watch(-1, w.late + 1, now)
    else w.(late := w.late + 1)
  }

  function CheckAll(w: Watch, times: seq<int>): Watch {
    if times == [] then w else CheckOnce(CheckAll(w, times[..|times| - 1]), times[|times| - 1])
  }

  /** How many of the checks find a peer late that was last heard of at `last`. */
  function LateCount(last: int, times: seq<int>): (n: nat)
    ensures n <= |times|
  {
    if times == [] then 0
    else LateCount(last, times[..|times| - 1]) + if Late(last, times[|times| - 1]) then 1 else 0
  }

  /** How many late checks a peer survives, plus one. */
  function Allowance(late: nat): (n: nat)
    ensures n >= 1
  {
    if late + 1 >= MAX_TIMEOUTS then 1 else MAX_TIMEOUTS - late
  }

  /** Without a word from the peer: it is released, and bad from then on, exactly when enough checks have found
      it late, however close together they come. */
  lemma {:induction false} ReleasedExactly(w: Watch, times: seq<int>)
    requires w.last != -1
    ensures var r, n := CheckAll(w, times), LateCount(w.last, times);
            && (r.last == -1 <==> n >= Allowance(w.late))
            && (n < Allowance(w.late) ==> r == w.(late := w.late + n))
            && (n >= Allowance(w.late) ==>
                  exists k :: 0 <= k < |times| && Late(w.last, times[k])
                                && LateCount(w.last, times[..k]) + 1 == Allowance(w.late)
                              && r == Watch(-1, w.late + Allowance(w.late), times[k]))
  {
    if times != [] {
      var init, k := times[..|times| - 1], |times| - 1;
      ReleasedExactly(w, init);
      if LateCount(w.last, init) >= Allowance(w.late) {
        var j :| 0 <= j < |init| && Late(w.last, init[j]) && LateCount(w.last, init[..j]) + 1 == Allowance(w.late)
                 && CheckAll(w, init) == Watch(-1, w.late + Allowance(w.late), init[j]);
        assert init[..j] == times[..j] && init[j] == times[j];
      } else if Late(w.last, times[k]) {
        assert times[..k] == init;
      }
    }
  }

  /** A peer is late from one millisecond after fifteen seconds on. */
  lemma LateAfterFifteenSeconds(last: int, now: int)
    ensures Late(last, now) <==> now >= last + 15001
  {
  }

  /** The first four late checks in a row are survived, but with four or more counted already not even one. */
  lemma FiveAllowed(late: nat)
    ensures Allowance(late) == if late <= 4 then 5 - late else 1
  {
  }

  lemma {:induction false} NeverLate(last: int, times: seq<int>)
    requires forall i :: 0 <= i < |times| ==> !Late(last, times[i])
    ensures LateCount(last, times) == 0
  {
    if times != [] {
      NeverLate(last, times[..|times| - 1]);
    }
  }

  /** Once late, a silent peer is late in every later check: the number of checks decides, not the time. */
  lemma {:induction false} LateFromThenOn(last: int, times: seq<int>, k: nat)
    requires forall i, j :: 0 <= i < j < |times| ==> times[i] <= times[j]
    requires k < |times| && Late(last, times[k]) && forall i :: 0 <= i < k ==> !Late(last, times[i])
    ensures LateCount(last, times) == |times| - k
  {
    var init := times[..|times| - 1];
    if k < |times| - 1 {
      assert Late(last, times[|times| - 1]);
      LateFromThenOn(last, init, k);
    } else {
      NeverLate(last, init);
    }
  }

  /** Five checks within five milliseconds release a peer that was asked once and has been silent for fifteen
      seconds: readme.txt promises it five timeouts. */
  lemma FiveQuickChecks()
    ensures CheckAll(Watch(1000, 0, 0), [16001, 16002, 16003, 16004, 16005]) == Watch(-1, 5, 16005)
  {
    var ts := [16001, 16002, 16003, 16004, 16005];
    LateFromThenOn(1000, ts, 0);
    ReleasedExactly(Watch(1000, 0, 0), ts);
    var k :| 0 <= k < |ts| && LateCount(1000, ts[..k]) + 1 == 5
             && CheckAll(Watch(1000, 0, 0), ts) == Watch(-1, 5, ts[k]);
    assert k == 4;
  }

  // ---------- what a finished transfer means ----------

  /** The outcome for a chunk with this hash whose record is now a. */
  ghost predicate Decides(hash: Bytes, a: Assembly, r: Handled) {
    && r in {Filed, Undefined, Mismatch, ChunkDone, AllDone}
    && (r == Filed <==> !Finished(a))
    && (r == Undefined <==> Finished(a) && !(NoGaps(a.slots) && |Joined(a.slots)| <= CHUNK_SIZE))
    && (Finished(a) && NoGaps(a.slots) && |Joined(a.slots)| == CHUNK_SIZE ==>
          (r == Mismatch <==> hash != Fips180.Sha1(Joined(a.slots))))
  }

  /** The packets of a transfer up to the last one that was filed, and what came of that one. */
  ghost predicate Outcome(hash: Bytes, start: nat, got: seq<Segment>, r: Handled) {
    && got != [] && Numbered(got) && (start == 0 || start >= CHUNK_SIZE)
    && Decides(hash, AddAll(Assembly([], 1, start), got), r)
  }

  /** A DATA packet that was filed: the chunk, the address it came from, the byte count that the transfer started
      from, its packets up to and including this one, and what came of it. */
  datatype Entry = Entry(c: Chunk, from: nat, start: nat, got: seq<Segment>, r: Handled)

  ghost predicate Judged(e: Entry) {
    Outcome(e.c.hash, e.start, e.got, e.r)
  }

  /** From a fresh count and with genuine packets, however lost, repeated or reordered: the transfer is decided
      exactly when the last missing packet arrives, and then the hash matches. */
  lemma HonestTransfer(e: Entry, chunk: Bytes)
    requires Judged(e) && e.start == 0
    requires |chunk| == CHUNK_SIZE && e.c.hash == Fips180.Sha1(chunk) && AllGenuine(chunk, e.got)
    ensures e.r == Filed <==> !AllSent(chunk, e.got)
    ensures e.r == ChunkDone || e.r == AllDone <==> AllSent(chunk, e.got)
  {
    hide AddAll, Joined, NoGaps, AllSent, Fips180.Sha1;
    RoundTrip(chunk, e.got);
  }

  lemma {:induction false} CountOnlyGrows(a: Assembly, ps: seq<Segment>)
    requires Numbered(ps)
    ensures AddAll(a, ps).total >= a.total
  {
    hide Prefix;
    if ps != [] { CountOnlyGrows(a, ps[..|ps| - 1]); }
  }

  /** From a count that was left behind: the transfer is over with its first packet, whatever that is. */
  lemma SpoiledTransfer(e: Entry)
    requires Judged(e) && e.start != 0
    ensures e.r != Filed
  {
    CountOnlyGrows(Assembly([], 1, e.start), e.got);
  }
}
