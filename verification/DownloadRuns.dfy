/** The main loop on the objects: every run is a run of the pictures; and a run that ends in a mismatch. */
module DownloadRuns {
  import opened Chunks
  import opened Deliveries
  import opened Download
  import opened Octets
  import opened Pictures
  import opened Reassembly
  import opened Runs

  import Fips180
  import Ihave
  import Sha1

  // ---------- runs of the main loop ----------

  /** The timeout check and the requests. */
  method CheckAndAsk(cfg: Config, now: int)
    requires cfg.Valid() && now >= 0
    modifies cfg`maxConn, cfg`lastWhohas, cfg`queue
    modifies cfg.peers`consecTimeouts, cfg.peers`badTime, cfg.peers`chunk, cfg.peers`downloading,
             cfg.peers`lastResponse
    modifies cfg.download
    ensures cfg.Valid() && Sound(old(cfg.Now())) && cfg.Now() == Started(old(cfg.Now()), now)
  {
    hide Config.Shape, Config.Histories, Config.Now, StatusOf, Sound, AfterCheck, AfterAsk;
    cfg.NowSound();
    cfg.TimeoutCheck(now);
    cfg.GetAllTheThingz(now);
    cfg.NowSound();
  }

  /** The packet of a turn, if it has one. */
  method TakeInput(cfg: Config, turn: Turn, little: bool) returns (fatal: bool)
    requires cfg.Valid() && turn.now >= 0
    modifies cfg`download, cfg`numDownloaded, cfg`curDownload, cfg`queue, cfg`repr, cfg`filed
    modifies cfg.peers`consecTimeouts, cfg.peers`badTime, cfg.peers`chunk, cfg.peers`downloading,
             cfg.peers`lastResponse
    modifies cfg.download, cfg.repr`next, cfg.repr`recv, cfg.repr`data
    ensures cfg.Valid() && Sound(old(cfg.Now()))
    ensures fatal == Fatal(old(cfg.Now()), turn.input)
    ensures !fatal ==> Takes(old(cfg.Now()), turn, cfg.Now())
    ensures cfg.download == [] || cfg.download == old(cfg.download)
    ensures fresh(cfg.repr - old(cfg.repr))
  {
    hide Config.Shape, Config.Histories, Config.Now, StatusOf, Sound, Took, FirstWithAddr, Receives, AfterIhave;
    cfg.NowSound();
    cfg.NowCounts();
    fatal := false;
    match turn.input
    case Nothing =>
    case DataIn(from, num, data) =>
      var r;
      ghost var c;
      r, c := cfg.ProcessData(from, num, data, turn.now, little);
    case IhaveIn(from, payload) =>
      cfg.Sender(from);
      var r := cfg.ProcessIhave(from, payload);
      fatal := r == NoPeer || r == NoCount;
  }

  lemma LongerRun(turns: seq<Turn>, tr: seq<Picture>, i: nat, b: Picture)
    requires i < |turns| && IsRun(turns[..i], tr) && Step(tr[i], turns[i], b)
    ensures IsRun(turns[..i + 1], tr + [b])
  {
    hide Step, Sound;
    forall k | 0 <= k < i + 1 ensures Step((tr + [b])[k], turns[..i + 1][k], (tr + [b])[k + 1]) {
      if k < i { assert Step(tr[k], turns[..i][k], tr[k + 1]); }
    }
  }

  lemma NoTurnYet(turns: seq<Turn>, a: Picture)
    requires Sound(a)
    ensures IsRun(turns[..0], [a])
  {
  }

  lemma OneStep(a: Picture, turn: Turn, b: Picture)
    requires Sound(a) && turn.now >= 0 && Takes(Started(a, turn.now), turn, b)
    ensures Step(a, turn, b)
  {
    hide Sound, Takes, Started;
  }

  /** Turns of the main loop, up to the first packet at which the program goes wrong.  What happens to the objects
      is a run of the pictures, from the present state to the final one; all that `Runs` proves holds of it. */
  method Turns(cfg: Config, turns: seq<Turn>, little: bool) returns (ran: nat, ghost tr: seq<Picture>)
    requires cfg.Valid() && forall i :: 0 <= i < |turns| ==> turns[i].now >= 0
    modifies cfg`download, cfg`numDownloaded, cfg`curDownload, cfg`maxConn, cfg`lastWhohas, cfg`queue, cfg`repr,
             cfg`filed
    modifies cfg.peers`consecTimeouts, cfg.peers`badTime, cfg.peers`chunk, cfg.peers`downloading,
             cfg.peers`lastResponse
    modifies cfg.download, cfg.repr`next, cfg.repr`recv, cfg.repr`data
    ensures cfg.Valid() && ran <= |turns| && IsRun(turns[..ran], tr) && tr[0] == old(cfg.Now())
    ensures Sound(tr[ran]) && (ran == |turns| ==> tr[ran] == cfg.Now())
    ensures ran < |turns| ==> Fatal(Started(tr[ran], turns[ran].now), turns[ran].input)
  {
    hide Config.Shape, Config.Histories, Config.Now, Sound, Step, Takes, Fatal, Started;
    ran := 0;
    cfg.NowSound();
    tr := [cfg.Now()];
    NoTurnYet(turns, cfg.Now());
    while ran < |turns|
      invariant ran <= |turns| && cfg.Valid() && IsRun(turns[..ran], tr)
      invariant tr[0] == old(cfg.Now()) && tr[ran] == cfg.Now() && Sound(tr[ran])
      invariant cfg.download == [] || cfg.download == old(cfg.download)
      invariant fresh(cfg.repr - old(cfg.repr))
    {
      CheckAndAsk(cfg, turns[ran].now);
      var fatal := TakeInput(cfg, turns[ran], little);
      if fatal { return; }
      OneStep(tr[ran], turns[ran], cfg.Now());
      TakesSound(Started(tr[ran], turns[ran].now), turns[ran], cfg.Now());
      LongerRun(turns, tr, ran, cfg.Now());
      tr := tr + [cfg.Now()];
      ran := ran + 1;
    }
  }

  /** A download starts accounted for. */
  lemma FreshDownload(cfg: Config, wants: seq<Want>)
    requires cfg.Valid() && cfg.Shows(wants) && cfg.filed == []
    ensures Accounted(Owned(cfg.Now()), cfg.Now())
  {
    hide Config.Shape, LeftCount, Stored;
    forall c | c in cfg.download ensures c.CountKnown() && c.peer == null && !c.spoiled {
      assert c.History();
    }
  }

  /** Between transfers, in every reachable state: the completion rule is right for whatever the next transfer
      brings if and only if no transfer has left its count behind. */
  lemma NextTransferIsSafe(cfg: Config, c: Chunk, chunk: Bytes)
    requires cfg.Valid() && c in cfg.download && c.peer == null && !c.downloaded && |chunk| == CHUNK_SIZE
    ensures (forall ps :: AllGenuine(chunk, ps) && Numbered(ps) && Finished(AddAll(Assembly([], 1, c.totalData), ps))
                          ==> AllSent(chunk, ps))
            <==> !c.spoiled
  {
    hide AddAll, AllSent, AllGenuine, Finished, Config.Shape;
    assert c.CountKnown() by { assert c.History(); }
    EarlyFinish(chunk, c.totalData);
  }

  // ---------- a transfer that fails at its end ----------

  lemma OnePeer(p: Peer)
    ensures FirstWithAddr([p], p.addr) == p && DistinctPeers([p])
  {
  }

  lemma OneNoted(p: Peer, c: Chunk)
    ensures Noted([c], [c.hash], p, c) == [p]
  {
    assert [c.hash][..0] == [];
    assert Noted([c], [], p, c) == [];
  }

  /** A download of one chunk with one peer about. */
  method OneWanted(hash: Bytes) returns (cfg: Config, p: Peer, c: Chunk)
    ensures cfg.Valid() && fresh(cfg) && cfg.repr == {} && cfg.curDownload < cfg.maxConn && cfg.filed == []
    ensures fresh(p) && p.addr == 7 && cfg.peers == [p] && p.badTime == 0 && p.chunk == null
    ensures fresh(c) && cfg.download == [c] && c.hash == hash && c.peers == []
    ensures c.peer == null && !c.spoiled && !c.downloaded
  {
    hide Config.Shape, Config.Histories, Config.Counted, FirstWithAddr, Config.PeersNow, Config.ChunksNow, Flooded;
    p := new Peer(1, 7);
    OnePeer(p);
    cfg := new Config(0, [p], 1);
    var wants := [Want(hash, 0, false)];
    assert wants[0] in wants;
    var _ := cfg.UserGet(wants, 0);
    c := cfg.download[0];
  }

  /** What is noted of the chunk. */
  lemma NowNoted(cfg: Config, a: Picture, p: Peer, c: Chunk, payload: Bytes)
    requires cfg.peers == [p] && cfg.download == [c] && a.list == [c] && p in a.peers && c in a.chunks && |payload| > 0
    requires cfg.Now() == AfterIhave(a, p, payload)
    requires a.chunks[c].listed == [] && a.chunks[c].peer == null && !a.chunks[c].spoiled && !a.chunks[c].downloaded
    requires Ihave.Decode(payload).hashes == [c.hash]
    ensures c.peers == [p] && c.peer == null && !c.spoiled && !c.downloaded && p.badTime == 0
    ensures cfg.filed == a.filed
  {
    hide Noted, Ihave.Decode;
    OneNoted(p, c);
    assert cfg.Now().chunks[c].listed == c.peers && cfg.Now().peers[p].watch.bad == p.badTime;
  }

  /** The peer has the chunk. */
  method OneSource(hash: Bytes) returns (cfg: Config, p: Peer, c: Chunk)
    requires |hash| == Ihave.HASH_LEN
    ensures cfg.Valid() && fresh(cfg) && cfg.repr == {} && cfg.curDownload < cfg.maxConn && cfg.filed == []
    ensures fresh(p) && p.addr == 7 && cfg.peers == [p] && p.badTime == 0 && p.chunk == null
    ensures fresh(c) && cfg.download == [c] && c.hash == hash && c.peers == [p]
    ensures c.peer == null && !c.spoiled && !c.downloaded
  {
    hide Config.Shape, Config.Histories, FirstWithAddr, FirstWithHash, Noted, Ihave.Decode, Ihave.Page;
    hide Sound, AfterIhave;
    cfg, p, c := OneWanted(hash);
    OnePeer(p);
    Ihave.PageDecodes([hash]);
    cfg.NowSound();
    cfg.PeersSeen();
    cfg.ChunksSeen();
    ghost var a := cfg.Now();
    var _ := cfg.ProcessIhave(7, Ihave.Page([hash]));
    NowNoted(cfg, a, p, c, Ihave.Page([hash]));
  }

  /** The only peer is free, so it is asked. */
  lemma OneAsked(a: Picture, c: Chunk, p: Peer, now: int)
    requires Sound(a) && a.list == [c] && p in a.peers && Free(a.peers[p], now) && a.cur < a.max
    requires c in a.chunks && a.chunks[c].listed == [p] && a.chunks[c].peer == null && !a.chunks[c].downloaded
    ensures AfterAsk(a, now) == Requesting(a, c, p, now)
  {
    hide Sound, Requesting;
    AskedFirst(a, c, p, 0, now);
    AskAllNone(a, [c], now);
    AskAllNext(a, [c], 0, now);
    assert [c][..1] == [c];
  }

  /** What a chunk without a peer starts from the next time. */
  lemma CountOf(cfg: Config, c: Chunk)
    requires cfg.Valid() && c in cfg.download && c.peer == null && !c.downloaded
    ensures if c.spoiled then c.totalData >= CHUNK_SIZE else c.totalData == 0
  {
    assert c.CountKnown() by { assert c.History(); }
  }

  lemma NowAsked(cfg: Config, a: Picture, p: Peer, c: Chunk, now: int)
    requires cfg.peers == [p] && cfg.download == [c] && p in a.peers && c in a.chunks
    requires cfg.Now() == Requesting(a, c, p, now)
    ensures c.peer == p && p.chunk == c && c.got == [] && c.start == a.chunks[c].total
    ensures c.spoiled == a.chunks[c].spoiled && c.downloaded == a.chunks[c].downloaded
    ensures cfg.curDownload == a.cur && cfg.maxConn == a.max + 1 && cfg.filed == a.filed
  {
    assert cfg.Now().chunks[c] == ChunkNow(c) && cfg.Now().peers[p] == PeerNow(p);
  }

  /** The chunk is asked for. */
  method AskForIt(cfg: Config, p: Peer, c: Chunk, now: int)
    requires cfg.Valid() && cfg.curDownload < cfg.maxConn && now >= 0
    requires cfg.peers == [p] && p.badTime == 0 && p.chunk == null && cfg.download == [c] && c.peers == [p]
    requires c.peer == null && !c.downloaded
    modifies cfg`maxConn, cfg`queue, cfg`lastWhohas, p`chunk, p`downloading, p`lastResponse
    modifies c`peer, c`nextExpected, c`packets, c`nodes, c`freed, c`start, c`got
    ensures cfg.Valid() && cfg.curDownload < cfg.maxConn && cfg.filed == old(cfg.filed)
    ensures c.peer == p && p.chunk == c && c.got == []
    ensures if c.spoiled then c.start >= CHUNK_SIZE else c.start == 0
  {
    hide Config.Shape, Config.Histories, StatusOf, Sound, AfterAsk, Requesting;
    CountOf(cfg, c);
    cfg.NowSound();
    ghost var a := cfg.Now();
    cfg.PeersSeen();
    cfg.ChunksSeen();
    OneAsked(a, c, p, now);
    cfg.GetAllTheThingz(now);
    NowAsked(cfg, a, p, c, now);
  }

  lemma FewPackets(k: nat)
    requires k < NumPackets(CHUNK_SIZE)
    ensures k + 1 <= MAX_SEQNUM
  {
  }

  lemma WrongSoFar(c: Chunk, was: Status, data: Bytes, k: nat, r: Handled)
    requires |data| == CHUNK_SIZE && c.hash != Fips180.Sha1(data) && k < NumPackets(CHUNK_SIZE)
    requires was.got == FirstPackets(data, k) && was.start == 0 && !was.spoiled
    requires Took(c, was, Segment(k + 1, Slice(data, k + 1)), r)
    ensures c.got == was.got + [Segment(k + 1, Slice(data, k + 1))] == FirstPackets(data, k + 1)
    ensures c.start == 0 && !c.downloaded && c.peers == was.listed
    ensures if k + 1 < NumPackets(CHUNK_SIZE) then r == Filed && c.peer == was.peer && !c.spoiled
            else r == Mismatch && c.peer == null && c.spoiled
  {
    hide StatusOf, Add, AddAll, Fips180.Sha1, Slice, NumPackets, Joined, NoGaps, AllSent;
    var ps := FirstPackets(data, k + 1);
    assert ps == FirstPackets(data, k) + [Segment(k + 1, Slice(data, k + 1))];
    FirstPacketsSent(data, k + 1);
    RoundTrip(data, ps);
  }

  /** What is filed when packet k + 1 of a wrong chunk comes in from the peer at address 7. */
  function WrongEntry(c: Chunk, data: Bytes, k: nat): Entry
    requires k < NumPackets(|data|)
  {
    Entry(c, 7, 0, FirstPackets(data, k + 1), if k + 1 < NumPackets(|data|) then Filed else Mismatch)
  }

  lemma NowFiled(cfg: Config, a: Picture, p: Peer, c: Chunk, num: nat, data: Bytes, now: int, r: Handled)
    requires Sound(a) && cfg.peers == [p] && p.addr == 7 && c in cfg.download && r in {Filed, Mismatch}
    requires a.order == [p] && p in a.peers && a.peers[p].chunk == c && 1 <= num <= MAX_SEQNUM
    requires Receives(a, 7, num, data, now, r, cfg.Now())
    ensures p.badTime == 0 && p.chunk == (if r == Filed then c else null) && cfg.curDownload <= a.cur
    ensures cfg.filed == a.filed + [Entry(c, 7, a.chunks[c].start, a.chunks[c].got + [Segment(num, data)], r)]
  {
    hide Sound, Outcome, AllElseDone, FiledInto, AddAll;
    OnePeer(p);
    assert cfg.Now().peers[p] == PeerNow(p);
  }

  lemma OnlyOne(cfg: Config, p: Peer, c: Chunk)
    requires cfg.peers == [p] && cfg.download == [c]
    ensures var a := cfg.Now();
            && a.order == [p] && p in a.peers && a.peers[p] == PeerNow(p) && a.peers[p].chunk == p.chunk
            && a.list == [c] && c in a.chunks && a.chunks[c].start == c.start && a.chunks[c].got == c.got
            && a.cur == cfg.curDownload && a.max == cfg.maxConn && a.filed == cfg.filed
  {
  }

  /** One packet of a chunk that is not the one asked for: nothing shows until the last. */
  method OneWrong(cfg: Config, p: Peer, c: Chunk, data: Bytes, k: nat, little: bool)
    requires cfg.Valid() && cfg.peers == [p] && p.addr == 7 && cfg.download == [c]
    requires c.peer == p && p.chunk == c && c.start == 0 && !c.spoiled
    requires |data| == CHUNK_SIZE && c.hash != Fips180.Sha1(data)
    requires k < NumPackets(CHUNK_SIZE) && c.got == FirstPackets(data, k)
    modifies cfg`curDownload, cfg`numDownloaded, cfg`download, cfg`queue, cfg`repr, cfg`filed
    modifies p`consecTimeouts, p`badTime, p`chunk, p`downloading, p`lastResponse
    modifies c`peer, c`downloaded, c`spoiled, c`packets, c`nodes, c`nextExpected, c`totalData, c`got, c`freed
    modifies cfg.repr`next, cfg.repr`recv, cfg.repr`data
    ensures cfg.Valid() && cfg.download == [c] && !c.downloaded && fresh(cfg.repr - old(cfg.repr))
    ensures cfg.curDownload <= old(cfg.curDownload) && p.badTime == 0 && c.peers == old(c.peers)
    ensures cfg.filed == old(cfg.filed) + [WrongEntry(c, data, k)]
    ensures if k + 1 < NumPackets(CHUNK_SIZE) then
              c.peer == p && p.chunk == c && !c.spoiled && c.got == FirstPackets(data, k + 1)
            else c.peer == null && c.spoiled && p.chunk == null
  {
    hide Config.Shape, Config.Histories, StatusOf, Took, FirstWithAddr, FirstPackets, Slice, NumPackets,
         Fips180.Sha1, Sound, Receives, Config.Now;
    OnePeer(p);
    FewPackets(k);
    ghost var a := cfg.Now();
    ghost var was := StatusOf(c);
    cfg.NowSound();
    OnlyOne(cfg, p, c);
    var r;
    ghost var d;
    r, d := cfg.ProcessData(7, k + 1, Slice(data, k + 1), 2000, little);
    WrongSoFar(c, was, data, k, r);
    NowFiled(cfg, a, p, c, k + 1, Slice(data, k + 1), 2000, r);
  }

  lemma NoPackets(data: Bytes)
    ensures FirstPackets(data, 0) == []
  {
  }

  method AllWrong(cfg: Config, p: Peer, c: Chunk, data: Bytes, little: bool)
    requires cfg.Valid() && cfg.peers == [p] && p.addr == 7 && cfg.download == [c]
    requires c.peer == p && p.chunk == c && c.start == 0 && !c.spoiled && c.got == [] && cfg.filed == []
    requires |data| == CHUNK_SIZE && c.hash != Fips180.Sha1(data)
    modifies cfg`curDownload, cfg`numDownloaded, cfg`download, cfg`queue, cfg`repr, cfg`filed
    modifies p`consecTimeouts, p`badTime, p`chunk, p`downloading, p`lastResponse
    modifies c`peer, c`downloaded, c`spoiled, c`packets, c`nodes, c`nextExpected, c`totalData, c`got, c`freed
    modifies cfg.repr`next, cfg.repr`recv, cfg.repr`data
    ensures cfg.Valid() && cfg.download == [c] && !c.downloaded && c.peer == null && c.spoiled && p.chunk == null
    ensures cfg.curDownload <= old(cfg.curDownload) && p.badTime == 0 && c.peers == old(c.peers)
    ensures |cfg.filed| == NumPackets(|data|)
    ensures forall k :: 0 <= k < |cfg.filed| ==> cfg.filed[k] == WrongEntry(c, data, k)
  {
    hide Config.Shape, Config.Histories, FirstPackets, Fips180.Sha1, StatusOf, NumPackets, WrongEntry;
    var n := NumPackets(CHUNK_SIZE);
    FullChunk(CHUNK_SIZE);
    NoPackets(data);
    for k := 0 to n
      invariant cfg.Valid() && cfg.download == [c] && fresh(cfg.repr - old(cfg.repr))
      invariant cfg.curDownload <= old(cfg.curDownload) && (k > 0 ==> p.badTime == 0 && !c.downloaded)
      invariant c.peers == old(c.peers)
      invariant k < n ==> c.peer == p && p.chunk == c && !c.spoiled && c.got == FirstPackets(data, k)
      invariant k == n ==> c.peer == null && c.spoiled && p.chunk == null
      invariant |cfg.filed| == k && forall i :: 0 <= i < k ==> cfg.filed[i] == WrongEntry(c, data, i)
    {
      OneWrong(cfg, p, c, data, k, little);
    }
  }

  /** A hash that is not this one. */
  function OtherHash(digest: Bytes): (h: Bytes)
    ensures |h| == Ihave.HASH_LEN && h != digest
  {
    var zeros := seq(Ihave.HASH_LEN, _ => 0 as bv8);
    if digest == zeros then
      assert zeros[0 := 1][0] != zeros[0];
      zeros[0 := 1]
    else zeros
  }

  /** A run that reaches the case of a count left behind: one peer delivers, packet by packet, a chunk whose hash
      is not the one asked for.  The transfer fails at its end, the next GET starts from its count, and for that
      count the completion rule goes wrong (`Reassembly.EarlyFinish`). */
  method FailedTransfer(little: bool) returns (cfg: Config, c: Chunk, data: Bytes)
    ensures cfg.Valid() && c in cfg.download && |data| == CHUNK_SIZE && c.hash != Fips180.Sha1(data)
    ensures |cfg.filed| == NumPackets(CHUNK_SIZE) == FULL_PACKETS + 1
    ensures forall k :: 0 <= k <= FULL_PACKETS ==>
              cfg.filed[k] == Entry(c, 7, 0, FirstPackets(data, k + 1), if k < FULL_PACKETS then Filed else Mismatch)
    ensures c.peer != null && c.got == [] && c.start >= LAST_SLICE
  {
    hide Config.Shape, Config.Histories, FirstPackets, Fips180.Sha1, StatusOf, NumPackets;
    FullChunk(CHUNK_SIZE);
    data := seq(CHUNK_SIZE, _ => 0 as bv8);
    var digest := Sha1.ShaHash(data, little);
    var hash := OtherHash(digest);
    var p;
    cfg, p, c := OneSource(hash);
    AskForIt(cfg, p, c, 1000);
    AllWrong(cfg, p, c, data, little);
    AskForIt(cfg, p, c, 3000);
  }
}
