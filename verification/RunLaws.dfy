/** What the counters, the clocks and the messages of the download side come to over whole runs. */
module RunLaws {
  import opened Chunks
  import opened Deliveries
  import opened Octets
  import opened Pictures
  import opened Reassembly
  import opened Runs

  import Ihave

  // ---------- connections ----------

  /** How many GETs are among the messages. */
  function Gets(ms: seq<Message>): nat {
    if ms == [] then 0 else Gets(ms[..|ms| - 1]) + if ms[|ms| - 1].Get? then 1 else 0
  }

  /** How many packets have ended a transfer. */
  function Ends(log: seq<Entry>): nat {
    if log == [] then 0 else Ends(log[..|log| - 1]) + if log[|log| - 1].r != Filed then 1 else 0
  }

  lemma GetsMore(ms: seq<Message>, m: Message)
    ensures Gets(ms + [m]) == Gets(ms) + if m.Get? then 1 else 0
  {
  }

  lemma {:induction false} GetsNone(ms: seq<Message>, more: seq<Message>)
    requires forall i :: 0 <= i < |more| ==> !more[i].Get?
    ensures Gets(ms + more) == Gets(ms)
  {
    if more == [] {
      assert ms + more == ms;
    } else {
      GetsNone(ms, more[..|more| - 1]);
      assert (ms + more)[..|ms + more| - 1] == ms + more[..|more| - 1];
    }
  }

  /** Every request has raised the limit by one, and every transfer that is over has lowered the number in use. */
  ghost predicate Balance(a: Picture, b: Picture) {
    && a.queue <= b.queue && b.max - a.max == Gets(b.queue) - Gets(a.queue)
    && a.filed <= b.filed && a.cur - b.cur == Ends(b.filed) - Ends(a.filed)
  }

  lemma BalanceJoins(a: Picture, m: Picture, b: Picture)
    requires Balance(a, m) && Balance(m, b)
    ensures Balance(a, b)
  {
  }

  lemma BalanceSame(a: Picture, b: Picture)
    requires b.queue == a.queue && b.filed == a.filed && b.max == a.max && b.cur == a.cur
    ensures Balance(a, b)
  {
  }

  lemma AskBalance(a: Picture, c: Chunk, now: int)
    requires c in a.chunks
    ensures Balance(a, AskOne(a, c, now))
  {
    hide Flood, HashesOf, AllBad, Gets, Ends;
    var ms := Flood(a.order, a.self, |a.list|, HashesOf(a.list));
    FloodOnly(a.order, a.self, |a.list|, HashesOf(a.list));
    GetsNone(a.queue, ms);
    var q := FirstFree(a.peers, a.chunks[c].listed, now);
    if q != null { GetsMore(a.queue, Get(q.addr, c.hash)); }
  }

  lemma {:induction false} AskAllBalance(a: Picture, cs: seq<Chunk>, now: int)
    requires forall i :: 0 <= i < |cs| ==> cs[i] in a.chunks
    ensures Balance(a, AskAll(a, cs, now))
  {
    hide AskOne, Balance;
    if cs == [] {
      BalanceSame(a, a);
    } else {
      var m := AskAll(a, cs[..|cs| - 1], now);
      AskAllBalance(a, cs[..|cs| - 1], now);
      AskBalance(m, cs[|cs| - 1], now);
      BalanceJoins(a, m, AskOne(m, cs[|cs| - 1], now));
    }
  }

  lemma StartedBalance(a: Picture, now: int)
    requires Sound(a) && now >= 0
    ensures Balance(a, Started(a, now))
  {
    hide Sound, AskAll, Balance, CheckedPeer, CheckedChunk;
    CheckSound(a, now);
    var m := AfterCheck(a, now);
    Listing(m);
    BalanceSame(a, m);
    BalanceSame(m, m);
    AskAllBalance(m, m.list, now);
    BalanceJoins(a, m, Started(a, now));
  }

  lemma TakesBalance(a: Picture, turn: Turn, b: Picture)
    requires Sound(a) && Takes(a, turn, b)
    ensures Balance(a, b)
  {
    hide Sound, FirstWithAddr, Judged, AddAll, AllElseDone, FiledInto, Noted, Ihave.Decode;
    match turn.input
    case Nothing =>
    case DataIn(from, num, data) =>
      var r :| Receives(a, from, num, data, turn.now, r, b);
      if b.filed != a.filed {
        assert b.queue[..|b.queue| - 1] == a.queue && b.filed[..|b.filed| - 1] == a.filed;
      }
    case IhaveIn(from, payload) =>
  }

  /** In every run the limit on connections is what it was plus the GETs queued since, and the number in use is what
      it was less the transfers that are over: nothing ever counts a transfer as in use. */
  lemma {:induction false} CountersTell(turns: seq<Turn>, tr: seq<Picture>, k: nat)
    requires IsRun(turns, tr) && k <= |turns|
    ensures Balance(tr[0], tr[k])
  {
    hide Balance, Takes, Sound, Started;
    if k == 0 {
      BalanceSame(tr[0], tr[0]);
    } else {
      CountersTell(turns, tr, k - 1);
      assert Step(tr[k - 1], turns[k - 1], tr[k - 1 + 1]);
      var a, now := tr[k - 1], turns[k - 1].now;
      StartedBalance(a, now);
      TakesBalance(Started(a, now), turns[k - 1], tr[k]);
      BalanceJoins(a, Started(a, now), tr[k]);
      BalanceJoins(tr[0], a, tr[k]);
    }
  }

  lemma {:induction false} GetsGrow(ms: seq<Message>, ns: seq<Message>)
    requires ms <= ns
    ensures Gets(ms) <= Gets(ns)
    decreases |ns|
  {
    if ms == ns {
    } else {
      assert ms <= ns[..|ns| - 1];
      GetsGrow(ms, ns[..|ns| - 1]);
    }
  }

  lemma {:induction false} EndsGrow(ms: seq<Entry>, ns: seq<Entry>)
    requires ms <= ns
    ensures Ends(ms) <= Ends(ns)
    decreases |ns|
  {
    if ms != ns {
      assert ms <= ns[..|ns| - 1];
      EndsGrow(ms, ns[..|ns| - 1]);
    }
  }

  /** The limit on connections limits nothing: whoever may open one connection may open any number. */
  lemma LimitNeverBinds(turns: seq<Turn>, tr: seq<Picture>, k: nat)
    requires IsRun(turns, tr) && k <= |turns| && tr[0].cur < tr[0].max
    ensures tr[k].max - tr[k].cur >= tr[0].max - tr[0].cur + Gets(tr[k].queue) - Gets(tr[0].queue) > 0
  {
    hide Sound, Step, Gets, Ends;
    CountersTell(turns, tr, k);
    GetsGrow(tr[0].queue, tr[k].queue);
    EndsGrow(tr[0].filed, tr[k].filed);
  }

  // ---------- asking everybody ----------

  /** Everybody is asked once fifteen seconds have passed since the last time, and not before. */
  lemma FloodedExactly(a: Picture, now: int)
    ensures var b, n := Flooded(a, now), |a.list|;
            if a.list == [] || now < a.whohas + 15000 then b == a
            else
              && b == a.(whohas := now, queue := b.queue) && a.queue <= b.queue
              && exists hs: seq<Bytes> ::
                   |hs| == n && (forall i :: 0 <= i < n ==> hs[i] == a.list[i].hash)
                   && forall p :: p in a.order && p.id != a.self ==>
                                    Whohas(p.addr, n % 256, (20 + 20 * n) % 65536, hs) in b.queue[|a.queue|..]
  {
    hide Flood, HashesOf;
    HashesInOrder(a.list);
    FloodReaches(a.order, a.self, |a.list|, HashesOf(a.list));
    if a.list != [] && now >= a.whohas + 15000 {
      assert Flooded(a, now).queue[|a.queue|..] == Flood(a.order, a.self, |a.list|, HashesOf(a.list));
    }
  }

  /** From a to b nobody was asked who has what, or it was time to. */
  ghost predicate InTime(a: Picture, b: Picture, now: int) {
    && a.queue <= b.queue
    && ((b.whohas == a.whohas && forall i :: |a.queue| <= i < |b.queue| ==> !b.queue[i].Whohas?)
        || (b.whohas == now && now >= a.whohas + 15000))
  }

  lemma InTimeJoins(a: Picture, m: Picture, b: Picture, now: int)
    requires InTime(a, m, now) && InTime(m, b, now)
    ensures InTime(a, b, now)
  {
  }

  lemma InTimeSame(a: Picture, b: Picture, now: int)
    requires b.queue == a.queue && b.whohas == a.whohas
    ensures InTime(a, b, now)
  {
  }

  lemma AskInTime(a: Picture, c: Chunk, now: int)
    requires c in a.chunks
    ensures InTime(a, AskOne(a, c, now), now)
  {
    hide Flood, HashesOf, AllBad, Flooded;
    FloodedExactly(a, now);
  }

  lemma {:induction false} AskAllInTime(a: Picture, cs: seq<Chunk>, now: int)
    requires forall i :: 0 <= i < |cs| ==> cs[i] in a.chunks
    ensures InTime(a, AskAll(a, cs, now), now)
  {
    hide AskOne;
    if cs != [] {
      var m := AskAll(a, cs[..|cs| - 1], now);
      AskAllInTime(a, cs[..|cs| - 1], now);
      AskInTime(m, cs[|cs| - 1], now);
      hide InTime;
      InTimeJoins(a, m, AskOne(m, cs[|cs| - 1], now), now);
    }
  }

  lemma TakesInTime(a: Picture, turn: Turn, b: Picture)
    requires Sound(a) && Takes(a, turn, b)
    ensures InTime(a, b, turn.now)
  {
    hide Sound, FirstWithAddr, Judged, AddAll, AllElseDone, FiledInto, Noted, Ihave.Decode;
    match turn.input
    case Nothing =>
    case DataIn(from, num, data) =>
      var r :| Receives(a, from, num, data, turn.now, r, b);
    case IhaveIn(from, payload) =>
  }

  lemma StepInTime(a: Picture, turn: Turn, b: Picture)
    requires Step(a, turn, b)
    ensures InTime(a, b, turn.now)
  {
    hide Sound, AskAll, Takes, CheckedPeer, CheckedChunk, InTime;
    var now := turn.now;
    CheckSound(a, now);
    var m := AfterCheck(a, now);
    Listing(m);
    InTimeSame(a, m, now);
    InTimeSame(m, m, now);
    AskAllInTime(m, m.list, now);
    InTimeJoins(a, m, Started(a, now), now);
    TakesInTime(Started(a, now), turn, b);
    InTimeJoins(a, Started(a, now), b, now);
  }

  /** Somebody was asked who has what. */
  ghost predicate AsksAll(a: Picture, b: Picture) {
    exists i :: |a.queue| <= i < |b.queue| && b.queue[i].Whohas?
  }

  lemma {:induction false} AskedSince(turns: seq<Turn>, tr: seq<Picture>, j: nat, k: nat)
    requires IsRun(turns, tr) && j < k <= |turns| && AsksAll(tr[j], tr[j + 1])
    requires forall i :: j <= i < k ==> turns[i].now >= turns[j].now
    ensures tr[k].whohas >= turns[j].now
  {
    hide Step, Sound;
    assert Step(tr[k - 1], turns[k - 1], tr[k - 1 + 1]);
    StepInTime(tr[k - 1], turns[k - 1], tr[k]);
    if j < k - 1 { AskedSince(turns, tr, j, k - 1); }
  }

  /** In every run on a clock that does not go back, two turns in which everybody is asked are at least fifteen
      seconds apart. */
  lemma FloodsApart(turns: seq<Turn>, tr: seq<Picture>, j: nat, k: nat)
    requires IsRun(turns, tr) && j < k < |turns| && AsksAll(tr[j], tr[j + 1]) && AsksAll(tr[k], tr[k + 1])
    requires forall i :: j <= i < k ==> turns[i].now >= turns[j].now
    ensures turns[k].now >= turns[j].now + 15000
  {
    hide Step, Sound;
    AskedSince(turns, tr, j, k);
    assert Step(tr[k], turns[k], tr[k + 1]);
    StepInTime(tr[k], turns[k], tr[k + 1]);
  }

  // ---------- who is asked first ----------

  /** The peer heard from last is asked first: a free one whose IHAVE names a chunk that nobody delivers gets the
      next request for it, late or bad as it may have been, and is given five late checks again. */
  lemma LatestIsAsked(a: Picture, p: Peer, payload: Bytes, c: Chunk, i: nat, now: int)
    requires Sound(a) && p in a.peers && payload != [] && a.peers[p].chunk == null
    requires c in a.chunks && a.chunks[c].peer == null && !a.chunks[c].downloaded
    requires i < |Ihave.Decode(payload).hashes| && FirstWithHash(a.list, Ihave.Decode(payload).hashes[i]) == c
    ensures var b := AfterIhave(a, p, payload);
            var d := AskOne(b, c, now);
            && d.chunks[c].peer == p && d.peers[p] == PeerState(Watch(now, 0, 0), c)
            && d.queue == a.queue + [Get(p.addr, c.hash)] && Allowance(0) == 5
  {
    hide FirstWithHash, Noted, Ihave.Decode, Sound;
    var b, hashes := AfterIhave(a, p, payload), Ihave.Decode(payload).hashes;
    NotedOncePerHash(a.list, hashes, p, c);
    assert i in Naming(a.list, hashes, c) && Naming(a.list, hashes, c) != {};
    var noted := Noted(a.list, hashes, p, c);
    assert noted != [] && noted[0] in noted;
    assert b.chunks[c].listed == noted + a.chunks[c].listed;
    FiveAllowed(0);
  }

  // ---------- what is acknowledged ----------

  /** Packets 1 to n are among these, and packet n + 1 is not. */
  ghost predicate GaplessTo(ps: seq<Segment>, n: nat) {
    !Occurs(ps, n + 1) && forall k :: 1 <= k <= n ==> Occurs(ps, k)
  }

  /** A DATA packet that is filed, even one that contradicts an earlier one, is acknowledged with the number up to
      which the transfer has no gap, and its peer has five late checks again or nothing to do. */
  lemma FilingAcknowledges(a: Picture, from: nat, p: Peer, c: Chunk, seg: Segment, now: int, r: Handled)
    requires c in a.chunks && p in a.peers && seg.num >= 1 && Numbered(a.chunks[c].got)
    ensures var b, got := Filing(a, from, p, c, seg, now, r), a.chunks[c].got + [seg];
            && (exists n: nat :: GaplessTo(got, n) && b.queue == a.queue + [AckOf(from, n)])
            && b.peers[p] == if r == Filed then PeerState(Watch(now, 0, 0), c) else PeerState(Watch(-1, 0, 0), null)
  {
    hide AddAll, Occurs, FiledInto;
    var got := a.chunks[c].got + [seg];
    NextIsLeastMissing(got, a.chunks[c].start);
    var n: nat := AddAll(Assembly([], 1, a.chunks[c].start), got).next - 1;
    assert GaplessTo(got, n);
  }

  /** The numbers that are filed: one up to the size of a chunk in bytes. */
  lemma NumbersFiled(a: Picture, from: nat, p: Peer, c: Chunk, num: int, data: Bytes, now: int, r: Handled, b: Picture)
    requires c in a.chunks && p in a.peers && Delivers(a, from, p, c, num, data, now, r, b)
    ensures r == BadNumber <==> num <= 0 || num >= 524289
    ensures r == BadNumber ==> b == a.(peers := a.peers[p := PeerState(Watch(now, 0, 0), c)])
  {
    hide AddAll, FiledInto, NoGaps, Joined;
  }
}
