/** Whole runs of the download side, as values: turns of the main loop, with whatever packets come in. */
module Runs {
  import opened Chunks
  import opened Deliveries
  import opened Octets
  import opened Pictures
  import opened Reassembly

  import Fips180
  import Ihave

  datatype Input =
    | Nothing
    | DataIn(from: nat, num: int, data: Bytes)
    | IhaveIn(from: nat, payload: Bytes)

  datatype Turn = Turn(now: int, input: Input)

  /** The packet at which the program follows a null pointer or reads past a payload. */
  ghost predicate Fatal(a: Picture, input: Input) {
    input.IhaveIn? && a.list != [] && (FirstWithAddr(a.order, input.from) == null || input.payload == [])
  }

  lemma AskedSound(a: Picture, now: int)
    requires Sound(a) && now >= 0
    ensures Sound(AfterAsk(a, now))
  {
    hide AskAll, Sound;
    Listing(a);
    if a.cur < a.max { AskAllSound(a, a.list, now); }
  }

  /** The timeout check and the requests, which come first in every turn. */
  ghost function Started(a: Picture, now: int): (b: Picture)
    requires Sound(a) && now >= 0
    ensures Sound(b)
  {
    CheckSound(a, now);
    AskedSound(AfterCheck(a, now), now);
    AfterAsk(AfterCheck(a, now), now)
  }

  ghost predicate Takes(a: Picture, turn: Turn, b: Picture)
    requires Sound(a)
  {
    match turn.input
    case Nothing => b == a
    case DataIn(from, num, data) => exists r :: Receives(a, from, num, data, turn.now, r, b)
    case IhaveIn(from, payload) =>
      if a.list == [] then b == a
      else
        var p := FirstWithAddr(a.order, from);
        p in a.peers && payload != [] && b == AfterIhave(a, p, payload)
  }

  ghost predicate Step(a: Picture, turn: Turn, b: Picture) {
    Sound(a) && turn.now >= 0 && Takes(Started(a, turn.now), turn, b)
  }

  lemma TakesSound(a: Picture, turn: Turn, b: Picture)
    requires Sound(a) && turn.now >= 0 && Takes(a, turn, b)
    ensures Sound(b)
  {
    hide Sound, Receives, AfterIhave, FirstWithAddr;
    match turn.input
    case Nothing =>
    case DataIn(from, num, data) =>
      var r :| Receives(a, from, num, data, turn.now, r, b);
      ReceivesSound(a, from, num, data, turn.now, r, b);
    case IhaveIn(from, payload) =>
      if a.list != [] {
        AddressIsStable(a.order, from);
        IhaveSound(a, FirstWithAddr(a.order, from), payload);
      }
  }

  /** A run: tr[k] is the picture before turn k. */
  ghost predicate IsRun(turns: seq<Turn>, tr: seq<Picture>) {
    && |tr| == |turns| + 1 && Sound(tr[0])
    && forall k :: 0 <= k < |turns| ==> Step(tr[k], turns[k], tr[k + 1])
  }

  /** In every state of every run peers and chunks point at each other or not at all. */
  lemma RunsAreSound(turns: seq<Turn>, tr: seq<Picture>, k: nat)
    requires IsRun(turns, tr) && k <= |turns|
    ensures Sound(tr[k])
  {
    hide Sound, Takes, Started;
    if k > 0 {
      assert Step(tr[k - 1], turns[k - 1], tr[k - 1 + 1]);
      TakesSound(Started(tr[k - 1], turns[k - 1].now), turns[k - 1], tr[k]);
    }
  }

  // ---------- what was filed ----------

  /** A finished transfer of the chunk has left its count behind. */
  ghost predicate LeftCount(log: seq<Entry>, c: Chunk) {
    exists e :: e in log && e.c == c && (e.r == Undefined || e.r == Mismatch)
  }

  ghost predicate Stored(log: seq<Entry>, c: Chunk) {
    exists e :: e in log && e.c == c && (e.r == ChunkDone || e.r == AllDone)
  }

  /** An entry in the light of the earlier ones: a transfer is a chain of filed packets from one peer, and only a
      transfer that failed at its end makes a later one start from anything but zero. */
  ghost predicate Follows(log: seq<Entry>, e: Entry) {
    && Judged(e)
    && (|e.got| > 1 ==> Entry(e.c, e.from, e.start, e.got[..|e.got| - 1], Filed) in log)
    && (e.start != 0 ==> LeftCount(log, e.c))
  }

  /** What was filed and queued accounts for the present state of a chunk. */
  ghost predicate Accounts(owned: set<Chunk>, log: seq<Entry>, queue: seq<Message>, c: Chunk, s: ChunkState) {
    && (s.peer != null ==>
          && Numbered(s.got) && Get(s.peer.addr, c.hash) in queue
          && (if s.spoiled then s.start >= CHUNK_SIZE else s.start == 0)
          && (s.got != [] ==> Entry(c, s.peer.addr, s.start, s.got, Filed) in log))
    && (s.peer == null && !s.downloaded ==> if s.spoiled then s.total >= CHUNK_SIZE else s.total == 0)
    && (s.spoiled ==> LeftCount(log, c))
    && (s.downloaded ==> c in owned || Stored(log, c))
  }

  ghost predicate Filings(a: Picture) {
    forall i :: 0 <= i < |a.filed| ==>
      Follows(a.filed[..i], a.filed[i]) && Get(a.filed[i].from, a.filed[i].c.hash) in a.queue
  }

  /** Nothing is filed without a request and a chain of earlier packets, and no chunk is in a state that the
      filed packets do not explain. */
  ghost predicate Accounted(owned: set<Chunk>, a: Picture) {
    Filings(a) && forall c :: c in a.chunks ==> Accounts(owned, a.filed, a.queue, c, a.chunks[c])
  }

  ghost function Owned(a: Picture): set<Chunk> {
    set c | c in a.chunks && a.chunks[c].downloaded
  }

  lemma CheckAccounted(owned: set<Chunk>, a: Picture, now: int)
    requires Accounted(owned, a)
    ensures Accounted(owned, AfterCheck(a, now))
  {
    hide Follows, LeftCount, Stored, CheckedPeer;
  }

  lemma LongerQueue(owned: set<Chunk>, a: Picture, b: Picture)
    requires Accounted(owned, a) && b.chunks == a.chunks && b.filed == a.filed && a.queue <= b.queue
    ensures Accounted(owned, b)
  {
    hide Follows, LeftCount, Stored;
    assert forall m :: m in a.queue ==> m in b.queue;
  }

  lemma AccountOf(owned: set<Chunk>, a: Picture, c: Chunk)
    requires Accounted(owned, a) && c in a.chunks
    ensures Accounts(owned, a.filed, a.queue, c, a.chunks[c])
  {
  }

  lemma RequestAccounted(owned: set<Chunk>, a: Picture, c: Chunk, q: Peer, now: int)
    requires Accounted(owned, a) && c in a.chunks && q in a.peers
    requires a.chunks[c].peer == null && !a.chunks[c].downloaded
    ensures Accounted(owned, Requesting(a, c, q, now))
  {
    hide Follows, LeftCount, Stored;
    var b := Requesting(a, c, q, now);
    LongerQueue(owned, a, b.(chunks := a.chunks));
    AccountOf(owned, a, c);
    assert b.queue[|a.queue|] == Get(q.addr, c.hash);
  }

  lemma AskAccounted(owned: set<Chunk>, a: Picture, c: Chunk, now: int)
    requires Accounted(owned, a) && c in a.chunks
    ensures Accounted(owned, AskOne(a, c, now))
  {
    hide Accounted, Requesting, Flood, HashesOf, AllBad;
    var s := a.chunks[c];
    var q := FirstFree(a.peers, s.listed, now);
    if s.downloaded || s.peer != null {
    } else if q != null {
      RequestAccounted(owned, a, c, q, now);
    } else {
      LongerQueue(owned, a, Flooded(a, now));
    }
  }

  lemma {:induction false} AskAllAccounted(owned: set<Chunk>, a: Picture, cs: seq<Chunk>, now: int)
    requires Accounted(owned, a) && forall i :: 0 <= i < |cs| ==> cs[i] in a.chunks
    ensures Accounted(owned, AskAll(a, cs, now))
  {
    hide Accounted, AskOne;
    if cs != [] {
      AskAllAccounted(owned, a, cs[..|cs| - 1], now);
      AskAccounted(owned, AskAll(a, cs[..|cs| - 1], now), cs[|cs| - 1], now);
    }
  }

  lemma StartedAccounted(owned: set<Chunk>, a: Picture, now: int)
    requires Sound(a) && now >= 0 && Accounted(owned, a)
    ensures Accounted(owned, Started(a, now))
  {
    hide Accounted, AskAll, Sound, AfterCheck;
    CheckSound(a, now);
    CheckAccounted(owned, a, now);
    var b := AfterCheck(a, now);
    Listing(b);
    AskAllAccounted(owned, b, b.list, now);
  }

  /** A filed packet is the next entry. */
  lemma EntryFollows(owned: set<Chunk>, a: Picture, e: Entry, p: Peer)
    requires Accounted(owned, a) && e.c in a.chunks && a.chunks[e.c].peer == p && p.addr == e.from && Judged(e)
    requires e.start == a.chunks[e.c].start && e.got[..|e.got| - 1] == a.chunks[e.c].got
    ensures Follows(a.filed, e) && Get(e.from, e.c.hash) in a.queue
  {
    hide Judged, Stored, LeftCount;
    AccountOf(owned, a, e.c);
  }

  lemma FilingsGrow(a: Picture, b: Picture, e: Entry)
    requires Filings(a) && a.queue <= b.queue && b.filed == a.filed + [e]
    requires Follows(a.filed, e) && Get(e.from, e.c.hash) in a.queue
    ensures Filings(b)
  {
    hide Follows;
    assert forall m :: m in a.queue ==> m in b.queue;
    forall i | 0 <= i < |b.filed|
      ensures Follows(b.filed[..i], b.filed[i]) && Get(b.filed[i].from, b.filed[i].c.hash) in b.queue
    {
      assert b.filed[..i] == a.filed[..i];
      assert a.filed[..|a.filed|] == a.filed;
    }
  }

  lemma LongerLog(log: seq<Entry>, e: Entry, c: Chunk)
    ensures LeftCount(log, c) ==> LeftCount(log + [e], c)
    ensures Stored(log, c) ==> Stored(log + [e], c)
    ensures e.c == c && (e.r == Undefined || e.r == Mismatch) ==> LeftCount(log + [e], c)
    ensures e.c == c && (e.r == ChunkDone || e.r == AllDone) ==> Stored(log + [e], c)
  {
    assert e in log + [e];
  }

  lemma OtherAccounts(owned: set<Chunk>, log: seq<Entry>, e: Entry, queue: seq<Message>, more: seq<Message>,
                      c: Chunk, s: ChunkState)
    requires Accounts(owned, log, queue, c, s)
    ensures Accounts(owned, log + [e], queue + more, c, s)
  {
    hide LeftCount, Stored;
    LongerLog(log, e, c);
  }

  lemma OwnAccounts(owned: set<Chunk>, log: seq<Entry>, e: Entry, queue: seq<Message>, more: seq<Message>,
                    s: ChunkState, seg: Segment)
    requires Accounts(owned, log, queue, e.c, s) && s.peer != null && s.peer.addr == e.from && !s.downloaded
    requires e.start == s.start && e.got == s.got + [seg] && seg.num >= 1 && Judged(e)
    ensures Accounts(owned, log + [e], queue + more, e.c, FiledInto(s, seg, e.r))
  {
    hide LeftCount, Stored, AddAll, NoGaps, Joined, Fips180.Sha1;
    LongerLog(log, e, e.c);
  }

  lemma FilingAccounted(owned: set<Chunk>, a: Picture, from: nat, p: Peer, c: Chunk, seg: Segment, now: int, r: Handled)
    requires Accounted(owned, a) && p in a.peers && c in a.chunks && a.chunks[c].peer == p && p.addr == from
    requires !a.chunks[c].downloaded && seg.num >= 1 && Numbered(a.chunks[c].got)
    requires Judged(Entry(c, from, a.chunks[c].start, a.chunks[c].got + [seg], r))
    ensures Accounted(owned, Filing(a, from, p, c, seg, now, r))
  {
    hide Follows, Accounts, Filings, Judged, FiledInto, AddAll;
    var b := Filing(a, from, p, c, seg, now, r);
    var e := Entry(c, from, a.chunks[c].start, a.chunks[c].got + [seg], r);
    EntryFollows(owned, a, e, p);
    FilingsGrow(a, b, e);
    var more := b.queue[|a.queue|..];
    assert b.queue == a.queue + more;
    forall d | d in b.chunks ensures Accounts(owned, b.filed, b.queue, d, b.chunks[d]) {
      if d == c {
        OwnAccounts(owned, a.filed, e, a.queue, more, a.chunks[c], seg);
      } else {
        OtherAccounts(owned, a.filed, e, a.queue, more, d, a.chunks[d]);
      }
    }
  }

  lemma DelivererOf(a: Picture, p: Peer)
    requires Sound(a) && p in a.peers && a.peers[p].chunk != null
    ensures var c := a.peers[p].chunk; c in a.chunks && a.chunks[c].peer == p && !a.chunks[c].downloaded
  {
  }

  lemma ReceivesAccounted(owned: set<Chunk>, a: Picture, from: nat, num: int, data: Bytes, now: int, r: Handled,
                          b: Picture)
    requires Sound(a) && Accounted(owned, a) && Receives(a, from, num, data, now, r, b)
    ensures Accounted(owned, b)
  {
    hide Follows, Accounts, Filings, Outcome, Filing, FirstWithAddr, Sound, AllElseDone;
    var p := FirstWithAddr(a.order, from);
    if p in a.peers && a.peers[p].chunk != null {
      DelivererOf(a, p);
      AddressIsStable(a.order, from);
      if 1 <= num <= MAX_SEQNUM {
        FilingAccounted(owned, a, from, p, a.peers[p].chunk, Segment(num, data), now, r);
      } else {
        LongerQueue(owned, a, b);
      }
    }
  }

  lemma IhaveAccounted(owned: set<Chunk>, a: Picture, p: Peer, payload: Bytes)
    requires Accounted(owned, a) && p in a.peers && payload != []
    ensures Accounted(owned, AfterIhave(a, p, payload))
  {
    hide Follows, LeftCount, Stored, Noted;
  }

  lemma TakesAccounted(owned: set<Chunk>, a: Picture, turn: Turn, b: Picture)
    requires Sound(a) && Accounted(owned, a) && Takes(a, turn, b)
    ensures Accounted(owned, b)
  {
    hide Sound, Accounted, Receives, AfterIhave, FirstWithAddr;
    match turn.input
    case Nothing =>
    case DataIn(from, num, data) =>
      var r :| Receives(a, from, num, data, turn.now, r, b);
      ReceivesAccounted(owned, a, from, num, data, turn.now, r, b);
    case IhaveIn(from, payload) =>
      if a.list != [] { IhaveAccounted(owned, a, FirstWithAddr(a.order, from), payload); }
  }

  /** In every state of every run: nothing has been filed without a request and a chain of earlier packets, and
      the state of every chunk is the one that the filed packets explain. */
  lemma {:induction false} RunsAreAccounted(owned: set<Chunk>, turns: seq<Turn>, tr: seq<Picture>, k: nat)
    requires IsRun(turns, tr) && k <= |turns| && Accounted(owned, tr[0])
    ensures Accounted(owned, tr[k])
  {
    hide Accounted, Sound, Takes, Started;
    if k > 0 {
      assert Step(tr[k - 1], turns[k - 1], tr[k - 1 + 1]);
      RunsAreAccounted(owned, turns, tr, k - 1);
      StartedAccounted(owned, tr[k - 1], turns[k - 1].now);
      TakesAccounted(owned, Started(tr[k - 1], turns[k - 1].now), turns[k - 1], tr[k]);
    }
  }

  // ---------- which turn files what ----------

  /** The packet of e is the one that came in this turn, from where e says. */
  ghost predicate Brought(turn: Turn, e: Entry) {
    turn.input.DataIn? && turn.input.num >= 1 && turn.input.from == e.from && e.got != []
    && e.got[|e.got| - 1] == Segment(turn.input.num, turn.input.data)
  }

  ghost predicate FilesAtMostOne(a: Picture, turn: Turn, b: Picture) {
    b.filed == a.filed
    || (|b.filed| == |a.filed| + 1 && a.filed <= b.filed && Brought(turn, b.filed[|a.filed|]))
  }

  lemma TakesFiles(a: Picture, turn: Turn, b: Picture)
    requires Sound(a) && Takes(a, turn, b)
    ensures FilesAtMostOne(a, turn, b)
  {
    hide Sound, FirstWithAddr, Judged, AddAll, FiledInto, AllElseDone, Noted, Ihave.Decode;
    match turn.input
    case Nothing =>
    case DataIn(from, num, data) =>
      var r :| Receives(a, from, num, data, turn.now, r, b);
    case IhaveIn(from, payload) =>
  }

  lemma StepFiles(a: Picture, turn: Turn, b: Picture)
    requires Step(a, turn, b)
    ensures FilesAtMostOne(a, turn, b)
  {
    hide Sound, AskAll, Takes;
    TakesFiles(Started(a, turn.now), turn, b);
  }

  lemma {:induction false} LogGrows(turns: seq<Turn>, tr: seq<Picture>, j: nat, k: nat)
    requires IsRun(turns, tr) && j <= k <= |turns|
    ensures tr[j].filed <= tr[k].filed
  {
    hide Step, Sound, Brought;
    if j < k {
      LogGrows(turns, tr, j, k - 1);
      assert Step(tr[k - 1], turns[k - 1], tr[k - 1 + 1]);
      StepFiles(tr[k - 1], turns[k - 1], tr[k]);
    }
  }

  /** Every entry has a turn of its own, in the order of the log: the one that brought its packet from its peer. */
  lemma {:induction false} OwnTurn(turns: seq<Turn>, tr: seq<Picture>, k: nat, i: nat)
    requires IsRun(turns, tr) && k <= |turns| && |tr[0].filed| <= i < |tr[k].filed|
    ensures exists t :: 0 <= t < k && |tr[t].filed| == i && |tr[t + 1].filed| == i + 1
                        && Brought(turns[t], tr[k].filed[i])
  {
    hide Step, Sound, Brought;
    if k > 0 {
      assert Step(tr[k - 1], turns[k - 1], tr[k - 1 + 1]);
      StepFiles(tr[k - 1], turns[k - 1], tr[k]);
      if i < |tr[k - 1].filed| {
        OwnTurn(turns, tr, k - 1, i);
      } else {
        assert |tr[k - 1].filed| == i && |tr[k - 1 + 1].filed| == i + 1;
      }
    }
  }

  lemma FollowsAt(a: Picture, i: nat)
    requires Filings(a) && i < |a.filed|
    ensures Follows(a.filed[..i], a.filed[i])
  {
  }

  lemma HasPackets(e: Entry)
    requires Judged(e)
    ensures e.got != []
  {
  }

  /** After a count left behind the first packet is the last: the chain of a later one would not go on. */
  lemma OneIsEnough(a: Picture, i: nat)
    requires Filings(a) && i < |a.filed| && a.filed[i].start != 0
    ensures |a.filed[i].got| == 1
  {
    hide Judged, LeftCount, Filings;
    var e := a.filed[i];
    FollowsAt(a, i);
    HasPackets(e);
    if |e.got| > 1 {
      var d := Entry(e.c, e.from, e.start, e.got[..|e.got| - 1], Filed);
      var j :| 0 <= j < i && a.filed[..i][j] == d;
      FollowsAt(a, j);
      SpoiledTransfer(d);
    }
  }

  /** In every run, for every chunk: a transfer with genuine packets, however lost, repeated or reordered, is
      decided exactly by its last missing packet and then stores the chunk, unless an earlier transfer of the
      same chunk has failed at its end; then its first packet is its last. */
  lemma HonestRuns(owned: set<Chunk>, turns: seq<Turn>, tr: seq<Picture>, k: nat, i: nat, chunk: Bytes)
    requires IsRun(turns, tr) && k <= |turns| && Accounted(owned, tr[0]) && i < |tr[k].filed|
    requires |chunk| == CHUNK_SIZE && tr[k].filed[i].c.hash == Fips180.Sha1(chunk)
    requires AllGenuine(chunk, tr[k].filed[i].got)
    ensures var e := tr[k].filed[i];
            if e.start != 0 then LeftCount(tr[k].filed[..i], e.c) && |e.got| == 1 && e.r != Filed
            else (e.r == Filed <==> !AllSent(chunk, e.got))
                 && (e.r == ChunkDone || e.r == AllDone <==> AllSent(chunk, e.got))
  {
    hide Fips180.Sha1, AllSent, Judged, Step, Sound, LeftCount, Filings, AllGenuine;
    RunsAreAccounted(owned, turns, tr, k);
    var e := tr[k].filed[i];
    FollowsAt(tr[k], i);
    if e.start == 0 {
      HonestTransfer(e, chunk);
    } else {
      SpoiledTransfer(e);
      OneIsEnough(tr[k], i);
    }
  }

  // ---------- a silent peer ----------

  function Times(turns: seq<Turn>): (ts: seq<int>)
    ensures |ts| == |turns|
  {
    seq(|turns|, i requires 0 <= i < |turns| => turns[i].now)
  }

  predicate SilentIn(turn: Turn, addr: nat) {
    turn.input.Nothing? || turn.input.from != addr
  }

  lemma {:induction false} RequestsLeave(a: Picture, cs: seq<Chunk>, now: int, p: Peer)
    requires p in a.peers && !Free(a.peers[p], now) && forall i :: 0 <= i < |cs| ==> cs[i] in a.chunks
    ensures p in AskAll(a, cs, now).peers && AskAll(a, cs, now).peers[p] == a.peers[p]
  {
    hide Free, Flood, HashesOf, AllBad;
    if cs != [] { RequestsLeave(a, cs[..|cs| - 1], now, p); }
  }

  lemma PacketsLeave(a: Picture, turn: Turn, b: Picture, p: Peer)
    requires Sound(a) && Takes(a, turn, b) && p in a.peers && SilentIn(turn, p.addr)
    ensures p in b.peers && b.peers[p] == a.peers[p]
  {
    hide Sound, FirstWithAddr, AddAll, Judged, AllElseDone, FiledInto, Noted, Ihave.Decode;
    if !turn.input.Nothing? && FirstWithAddr(a.order, turn.input.from) != null {
      AddressIsStable(a.order, turn.input.from);
    }
    match turn.input
    case Nothing =>
    case DataIn(from, num, data) =>
      var r :| Receives(a, from, num, data, turn.now, r, b);
    case IhaveIn(from, payload) =>
  }

  /** A turn without a word from a peer that is busy or bad: the check is all that happens to it. */
  lemma StepLeaves(a: Picture, turn: Turn, b: Picture, p: Peer)
    requires Step(a, turn, b) && p in a.peers && SilentIn(turn, p.addr)
    requires !Free(CheckedPeer(a.peers[p], turn.now), turn.now)
    ensures p in b.peers && b.peers[p] == CheckedPeer(a.peers[p], turn.now)
  {
    hide Free, CheckedPeer, CheckedChunk, Takes, SilentIn, AskAll;
    CheckSound(a, turn.now);
    var c := AfterCheck(a, turn.now);
    Listing(c);
    RequestsLeave(c, c.list, turn.now, p);
    PacketsLeave(Started(a, turn.now), turn, b, p);
  }

  lemma NoChecks(last: int)
    ensures LateCount(last, []) == 0
  {
  }

  lemma OneMoreCheck(last: int, turns: seq<Turn>, k: nat)
    requires k < |turns|
    ensures LateCount(last, Times(turns[..k + 1]))
         == LateCount(last, Times(turns[..k])) + if Late(last, turns[k].now) then 1 else 0
  {
    assert Times(turns[..k + 1])[..k] == Times(turns[..k]);
  }

  /** A silent peer over k turns: while too few checks have found it late it keeps its chunk; in the turn whose
      check is the last that it survives not, it loses the chunk and is bad from then on. */
  lemma {:induction false} SilentUntil(turns: seq<Turn>, tr: seq<Picture>, p: Peer, k: nat)
    requires IsRun(turns, tr) && k <= |turns| && p in tr[0].peers && tr[0].peers[p].chunk != null
    requires forall i :: 0 <= i < k ==> SilentIn(turns[i], p.addr)
    requires LateCount(tr[0].peers[p].watch.last, Times(turns[..k])) < Allowance(tr[0].peers[p].watch.late)
    ensures var s, n := tr[0].peers[p], LateCount(tr[0].peers[p].watch.last, Times(turns[..k]));
            p in tr[k].peers && tr[k].peers[p] == s.(watch := s.watch.(late := s.watch.late + n))
  {
    hide Step, LateCount, SilentIn;
    if k > 0 {
      var s := tr[0].peers[p];
      OneMoreCheck(s.watch.last, turns, k - 1);
      SilentUntil(turns, tr, p, k - 1);
      assert Step(tr[k - 1], turns[k - 1], tr[k - 1 + 1]);
      StepLeaves(tr[k - 1], turns[k - 1], tr[k], p);
    } else {
      assert Times(turns[..0]) == [];
      NoChecks(tr[0].peers[p].watch.last);
    }
  }

  /** The turn whose check finds the peer late for the last time. */
  lemma ReleasedIn(turns: seq<Turn>, tr: seq<Picture>, p: Peer, t: nat)
    requires IsRun(turns, tr) && t < |turns| && p in tr[0].peers && tr[0].peers[p].chunk != null
    requires forall i :: 0 <= i <= t ==> SilentIn(turns[i], p.addr)
    requires var w := tr[0].peers[p].watch;
             LateCount(w.last, Times(turns[..t])) + 1 == Allowance(w.late) && Late(w.last, turns[t].now)
    ensures var w, now := tr[0].peers[p].watch, turns[t].now;
            && p in tr[t].peers && tr[t].peers[p].chunk == tr[0].peers[p].chunk
            && CheckedPeer(tr[t].peers[p], now) == PeerState(Watch(-1, w.late + Allowance(w.late), now), null)
            && (now != 0 ==> p in tr[t + 1].peers && tr[t + 1].peers[p] == CheckedPeer(tr[t].peers[p], now))
  {
    hide Step, LateCount, SilentIn;
    assert Step(tr[t], turns[t], tr[t + 1]);
    SilentUntil(turns, tr, p, t);
    if turns[t].now != 0 {
      StepLeaves(tr[t], turns[t], tr[t + 1], p);
    }
  }

  lemma Awaited(a: Picture, p: Peer)
    requires Sound(a) && p in a.peers && a.peers[p].chunk != null
    ensures a.peers[p].watch.last != -1
  {
  }

  /** In every run, for every peer that has been asked and of which nothing is heard for k turns: it keeps its
      chunk and is given one more late check each time, or there is a turn among them that takes the chunk away
      from it and calls it bad; which of the two, the number of late checks decides. */
  lemma SilentTurns(turns: seq<Turn>, tr: seq<Picture>, p: Peer, k: nat)
    requires IsRun(turns, tr) && k <= |turns| && p in tr[0].peers && tr[0].peers[p].chunk != null
    requires forall i :: 0 <= i < k ==> SilentIn(turns[i], p.addr) && turns[i].now != 0
    ensures var s, n := tr[0].peers[p], LateCount(tr[0].peers[p].watch.last, Times(turns[..k]));
            if n < Allowance(s.watch.late) then
              p in tr[k].peers && tr[k].peers[p] == s.(watch := s.watch.(late := s.watch.late + n))
            else
              exists t :: 0 <= t < k && p in tr[t].peers && tr[t].peers[p].chunk == s.chunk
                          && p in tr[t + 1].peers
                          && tr[t + 1].peers[p] == PeerState(Watch(-1, s.watch.late + Allowance(s.watch.late),
                                                                   turns[t].now), null)
  {
    hide Step, LateCount, Allowance, SilentIn, Free;
    var w, times := tr[0].peers[p].watch, Times(turns[..k]);
    if LateCount(w.last, times) < Allowance(w.late) {
      SilentUntil(turns, tr, p, k);
    } else {
      assert w.last != -1 by { Awaited(tr[0], p); }
      ReleasedExactly(w, times);
      var t :| 0 <= t < |times| && Late(w.last, times[t]) && LateCount(w.last, times[..t]) + 1 == Allowance(w.late);
      assert times[..t] == Times(turns[..t]) && times[t] == turns[t].now;
      ReleasedIn(turns, tr, p, t);
    }
  }

  // ---------- who is asked ----------

  /** A GET goes to the first peer with its address, which delivers nothing and is not bad. */
  ghost predicate GoodRequest(a: Picture, m: Message, now: int) {
    m.Get? ==> var q := FirstWithAddr(a.order, m.to); q in a.peers && Free(a.peers[q], now)
  }

  lemma {:induction false} FloodOnly(ps: seq<Peer>, self: int, n: nat, hashes: seq<Bytes>)
    ensures forall i :: 0 <= i < |Flood(ps, self, n, hashes)| ==> !Flood(ps, self, n, hashes)[i].Get?
  {
    if ps != [] { FloodOnly(ps[1..], self, n, hashes); }
  }

  /** One chunk: what is queued goes to a free peer, and no peer becomes free. */
  lemma AskOneGood(a: Picture, c: Chunk, now: int)
    requires Sound(a) && c in a.chunks
    ensures var b := AskOne(a, c, now);
            && (forall i :: |a.queue| <= i < |b.queue| ==> GoodRequest(a, b.queue[i], now))
            && (forall q :: q in b.peers && Free(b.peers[q], now) ==> q in a.peers && Free(a.peers[q], now))
  {
    hide FirstWithAddr, Flood, HashesOf, AllBad;
    FloodOnly(a.order, a.self, |a.list|, HashesOf(a.list));
  }

  lemma {:induction false} AskAllGood(a: Picture, cs: seq<Chunk>, now: int)
    requires Sound(a) && now >= 0 && forall i :: 0 <= i < |cs| ==> cs[i] in a.chunks
    ensures var b := AskAll(a, cs, now);
            && (forall i :: |a.queue| <= i < |b.queue| ==> GoodRequest(a, b.queue[i], now))
            && (forall q :: q in b.peers && Free(b.peers[q], now) ==> q in a.peers && Free(a.peers[q], now))
  {
    hide Sound, FirstWithAddr, AskOne, Free;
    if cs != [] {
      var init := cs[..|cs| - 1];
      AskAllGood(a, init, now);
      AskAllSound(a, init, now);
      var m := AskAll(a, init, now);
      AskOneGood(m, cs[|cs| - 1], now);
      var b := AskOne(m, cs[|cs| - 1], now);
      assert AskAll(a, cs, now) == b;
      forall i | |a.queue| <= i < |b.queue| ensures GoodRequest(a, b.queue[i], now) {
        if i < |m.queue| {
          assert b.queue[i] == m.queue[i];
        } else {
          assert GoodRequest(m, b.queue[i], now);
        }
      }
    }
  }

  /** A chunk that nobody delivered was asked for: the first free peer noted for it has it, and the GET is queued. */
  ghost predicate Gained(a: Picture, b: Picture, c: Chunk, now: int)
    requires c in a.chunks && c in b.chunks && a.queue <= b.queue
  {
    var s, q := a.chunks[c], b.chunks[c].peer;
    && s.peer == null && !s.downloaded && q != null && b.chunks[c] == s.(peer := q, start := s.total, got := [])
    && q in s.listed && q in a.peers && Free(a.peers[q], now)
    && Get(q.addr, c.hash) in b.queue[|a.queue|..]
  }

  /** The chunk is owned, or being delivered, or nobody can be asked for it. */
  ghost predicate SeenTo(a: Picture, c: Chunk, now: int)
    requires c in a.chunks
  {
    var s := a.chunks[c];
    s.downloaded || s.peer != null || forall q :: q in s.listed && q in a.peers ==> !Free(a.peers[q], now)
  }

  ghost predicate LeftOrGained(a: Picture, b: Picture, now: int) {
    && a.queue <= b.queue
    && forall c :: c in a.chunks ==> c in b.chunks && (b.chunks[c] == a.chunks[c] || Gained(a, b, c, now))
  }

  lemma {:induction false} NoFreeOne(peers: map<Peer, PeerState>, listed: seq<Peer>, now: int)
    requires FirstFree(peers, listed, now) == null
    ensures forall q :: q in listed && q in peers ==> !Free(peers[q], now)
  {
    if listed != [] { NoFreeOne(peers, listed[1..], now); }
  }

  lemma AskOneMeans(a: Picture, c: Chunk, now: int)
    requires Sound(a) && c in a.chunks
    ensures var b := AskOne(a, c, now);
            && LeftOrGained(a, b, now) && SeenTo(b, c, now)
            && forall d :: d in a.chunks && SeenTo(a, d, now) ==> SeenTo(b, d, now)
  {
    hide Sound, FirstWithAddr, Flood, HashesOf, AllBad, Free;
    AskOneGood(a, c, now);
    var s := a.chunks[c];
    if !s.downloaded && s.peer == null {
      var q := FirstFree(a.peers, s.listed, now);
      if q == null {
        NoFreeOne(a.peers, s.listed, now);
      } else {
        assert AskOne(a, c, now).queue[|a.queue|..] == [Get(q.addr, c.hash)];
      }
    }
  }

  lemma GainedLater(a: Picture, m: Picture, b: Picture, now: int)
    requires LeftOrGained(a, m, now) && LeftOrGained(m, b, now)
    requires forall q :: q in m.peers && Free(m.peers[q], now) ==> q in a.peers && Free(a.peers[q], now)
    ensures LeftOrGained(a, b, now)
  {
    hide Free;
    assert b.queue[|a.queue|..] == m.queue[|a.queue|..] + b.queue[|m.queue|..];
  }

  lemma NothingGained(a: Picture, now: int)
    ensures LeftOrGained(a, a, now)
  {
  }

  lemma {:induction false} AskAllMeans(a: Picture, cs: seq<Chunk>, now: int)
    requires Sound(a) && now >= 0 && forall i :: 0 <= i < |cs| ==> cs[i] in a.chunks
    ensures LeftOrGained(a, AskAll(a, cs, now), now)
    ensures forall i :: 0 <= i < |cs| ==> SeenTo(AskAll(a, cs, now), cs[i], now)
  {
    hide Sound, AskOne, SeenTo, LeftOrGained, Free;
    if cs == [] {
      NothingGained(a, now);
    } else {
      var init, c := cs[..|cs| - 1], cs[|cs| - 1];
      AskAllMeans(a, init, now);
      AskAllSound(a, init, now);
      AskAllGood(a, init, now);
      var m := AskAll(a, init, now);
      AskOneMeans(m, c, now);
      GainedLater(a, m, AskOne(m, c, now), now);
      assert forall i :: 0 <= i < |init| ==> cs[i] == init[i] && SeenTo(m, init[i], now);
    }
  }

  /** What the requests of a turn come to: every chunk keeps its state or had no peer and has been asked for; busy
      peers are left alone; and unless there are too many connections, no wanted chunk is left with a free peer. */
  lemma RequestsMean(a: Picture, now: int)
    requires Sound(a) && now >= 0
    ensures var b := AfterAsk(a, now);
            && LeftOrGained(a, b, now)
            && (forall p :: p in a.peers && a.peers[p].chunk != null ==> p in b.peers && b.peers[p] == a.peers[p])
            && (a.cur < a.max ==> b.cur < b.max && forall c :: c in b.chunks ==> SeenTo(b, c, now))
  {
    hide AskOne, SeenTo, LeftOrGained, FirstWithAddr, Matching;
    Listing(a);
    if a.cur < a.max {
      AskAllMeans(a, a.list, now);
      assert AfterAsk(a, now) == AskAll(a, a.list, now);
      forall p | p in a.peers && a.peers[p].chunk != null
        ensures p in AfterAsk(a, now).peers && AfterAsk(a, now).peers[p] == a.peers[p]
      {
        RequestsLeave(a, a.list, now, p);
      }
    } else {
      NothingGained(a, now);
    }
  }

  lemma NoRequest(a: Picture, turn: Turn, b: Picture)
    requires Sound(a) && Takes(a, turn, b)
    ensures a.queue <= b.queue && forall i :: |a.queue| <= i < |b.queue| ==> !b.queue[i].Get?
  {
    hide Sound, FirstWithAddr, Judged, AddAll, FiledInto, AllElseDone, Noted, Ihave.Decode;
    match turn.input
    case Nothing =>
    case DataIn(from, num, data) =>
      var r :| Receives(a, from, num, data, turn.now, r, b);
    case IhaveIn(from, payload) =>
  }

  lemma NotAsking(a: Picture, m: Message, now: int)
    requires !m.Get?
    ensures GoodRequest(a, m, now)
  {
  }

  lemma RequestsGood(a: Picture, now: int)
    requires Sound(a) && now >= 0
    ensures forall i :: |a.queue| <= i < |AfterAsk(a, now).queue| ==> GoodRequest(a, AfterAsk(a, now).queue[i], now)
  {
    hide Sound, GoodRequest, AskOne;
    Listing(a);
    if a.cur < a.max {
      AskAllGood(a, a.list, now);
      assert AfterAsk(a, now) == AskAll(a, a.list, now);
    }
  }

  /** In every turn of every run: a peer is asked only when it delivers nothing and is not bad. */
  lemma NeverFromBadPeers(turns: seq<Turn>, tr: seq<Picture>, k: nat, i: nat)
    requires IsRun(turns, tr) && k < |turns| && |tr[k].queue| <= i < |tr[k + 1].queue|
    ensures GoodRequest(AfterCheck(tr[k], turns[k].now), tr[k + 1].queue[i], turns[k].now)
  {
    hide Sound, GoodRequest, Takes, AfterAsk, CheckedPeer, CheckedChunk;
    var a, b, now := tr[k], tr[k + 1], turns[k].now;
    assert Step(a, turns[k], b);
    CheckSound(a, now);
    RequestsGood(AfterCheck(a, now), now);
    NoRequest(Started(a, now), turns[k], b);
    if i < |Started(a, now).queue| {
      assert b.queue[i] == Started(a, now).queue[i];
    } else {
      NotAsking(AfterCheck(a, now), b.queue[i], now);
    }
  }
}
