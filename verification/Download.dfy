/** The download side of a peer: GET, DATA, IHAVE, timeouts and finishing. */
module Download {
  import opened Chunks
  import opened Deliveries
  import opened Octets
  import opened Pictures
  import opened Reassembly

  import Fips180
  import Ihave
  import Sha1

  /** How handling an IHAVE packet ended. */
  datatype Noting =
    | NotAsked         // no download is under way
    | NoPeer           // the address is unknown: a null pointer is followed
    | NoCount          // the payload is empty: its first byte is read all the same
    | TooShort
    | Complete

  /** A line of the chunk file, and whether that chunk is already owned. */
  datatype Want = Want(hash: Bytes, id: int, has: bool)

  // ---------- how many chunks are downloaded ----------

  ghost function Flags(cs: seq<Chunk>): (fs: seq<bool>)
    reads cs`downloaded
    ensures |fs| == |cs| && forall i :: 0 <= i < |fs| ==> fs[i] == cs[i].downloaded
  {
    if cs == [] then [] else [cs[0].downloaded] + Flags(cs[1..])
  }

  lemma FlagsAppend(cs: seq<Chunk>, c: Chunk)
    ensures Flags(cs + [c]) == Flags(cs) + [c.downloaded]
  {
  }

  ghost function Count(fs: seq<bool>): (n: nat)
    ensures n <= |fs|
  {
    if fs == [] then 0 else (if fs[0] then 1 else 0) + Count(fs[1..])
  }

  lemma {:induction false} CountSet(fs: seq<bool>, k: nat)
    requires k < |fs| && !fs[k]
    ensures Count(fs[k := true]) == Count(fs) + 1
  {
    if k == 0 {
      assert fs[0 := true][1..] == fs[1..];
    } else {
      assert fs[k := true][1..] == fs[1..][k - 1 := true];
      CountSet(fs[1..], k - 1);
    }
  }

  lemma {:induction false} CountAppend(fs: seq<bool>, b: bool)
    ensures Count(fs + [b]) == Count(fs) + if b then 1 else 0
  {
    if fs != [] {
      assert (fs + [b])[1..] == fs[1..] + [b];
      CountAppend(fs[1..], b);
    }
  }

  lemma {:induction false} CountAll(fs: seq<bool>)
    requires forall i :: 0 <= i < |fs| ==> fs[i]
    ensures Count(fs) == |fs|
  {
    if fs != [] {
      CountAll(fs[1..]);
    }
  }

  lemma {:induction false} CountFull(fs: seq<bool>)
    requires Count(fs) == |fs|
    ensures forall i :: 0 <= i < |fs| ==> fs[i]
  {
    if fs != [] {
      CountFull(fs[1..]);
      assert forall i :: 0 < i < |fs| ==> fs[i] == fs[1..][i - 1];
    }
  }

  // ---------- peers and chunks as values ----------

  ghost function WatchOf(p: Peer): Watch
    reads p`lastResponse, p`consecTimeouts, p`badTime
  {
    Watch(p.lastResponse, p.consecTimeouts, p.badTime)
  }

  ghost function PeerNow(p: Peer): PeerState
    reads p`lastResponse, p`consecTimeouts, p`badTime, p`chunk
  {
    PeerState(WatchOf(p), p.chunk)
  }

  ghost function ChunkNow(c: Chunk): ChunkState
    reads c`peer, c`downloaded, c`spoiled, c`totalData, c`start, c`got, c`peers
  {
    ChunkState(c.peer, c.downloaded, c.spoiled, c.totalData, c.start, c.got, c.peers)
  }

  predicate IsBad(p: Peer, now: int)
    reads p`badTime
  {
    Bad(p.badTime, now)
  }

  /** A peer that can be asked. */
  predicate Idle(p: Peer, now: int)
    reads p`downloading, p`badTime
  {
    !p.downloading && !IsBad(p, now)
  }

  // ---------- what a step leaves alone ----------

  twostate predicate Untouched(p: Peer)
    reads p
  {
    PeerNow(p) == old(PeerNow(p)) && p.downloading == old(p.downloading)
  }

  /** All there is to know of a chunk. */
  datatype Status = Status(record: Assembly, nodes: seq<PacketNode>, freed: bool, peer: Peer?, downloaded: bool,
                           start: nat, got: seq<Segment>, spoiled: bool, listed: seq<Peer>)

  /** The same without the packet list. */
  function Seen(s: Status): ChunkState {
    ChunkState(s.peer, s.downloaded, s.spoiled, s.record.total, s.start, s.got, s.listed)
  }

  ghost function StatusOf(c: Chunk): (s: Status)
    reads c`nodes, c`nextExpected, c`totalData, c`freed, c`peer, c`downloaded, c`start, c`got, c`spoiled, c`peers,
          c.nodes`recv, c.nodes`data
    ensures s.peer == c.peer && s.downloaded == c.downloaded && s.freed == c.freed && s.listed == c.peers
    ensures s.start == c.start && s.got == c.got && s.spoiled == c.spoiled && s.record.total == c.totalData
  {
    Status(c.View(), c.nodes, c.freed, c.peer, c.downloaded, c.start, c.got, c.spoiled, c.peers)
  }

  /** The chunk has its peer, its record and its history as before. */
  twostate predicate Same(c: Chunk)
    reads c, c.nodes
  {
    StatusOf(c) == old(StatusOf(c))
  }

  /** Nobody delivers the chunk any more, and it starts from nothing the next time. */
  ghost predicate GivenUp(was: Status, s: Status) {
    && was.peer != null && s.peer == null && !s.downloaded && s.freed && !s.spoiled
    && s.record == was.record.(next := 1, total := 0) && s.nodes == was.nodes
    && s.start == was.start && s.got == was.got && s.listed == was.listed
  }

  ghost predicate LeftOrGivenUp(was: Status, s: Status) {
    s == was || GivenUp(was, s)
  }

  lemma SeenGivenUp(was: Status, s: Status)
    requires LeftOrGivenUp(was, s)
    ensures Seen(s) == Seen(was) || (Seen(was).peer != null && Seen(s) == Dropped(Seen(was)))
  {
  }

  /** The chunk had no peer and has been asked for: its list starts afresh, its byte count does not. */
  ghost predicate AskedFor(was: Status, s: Status) {
    && was.peer == null && s.peer != null && !was.downloaded && !s.downloaded
    && s.start == was.record.total && s.got == [] && s.spoiled == was.spoiled
    && s.record == Assembly([], 1, s.start) && s.listed == was.listed
  }

  ghost predicate LeftOrAskedFor(was: Status, s: Status) {
    s == was || AskedFor(was, s)
  }

  twostate predicate Requested(c: Chunk)
    reads c, c.nodes
  {
    AskedFor(old(StatusOf(c)), StatusOf(c))
  }

  /** The download ends with the last chunk and not before. */
  ghost predicate Ended(cs: seq<Chunk>, r: Handled)
    reads cs`downloaded
  {
    && (r == AllDone ==> forall c :: c in cs ==> c.downloaded)
    && (r == ChunkDone ==> exists c :: c in cs && !c.downloaded)
  }

  /** What filing a packet makes of a chunk that was in the state `was`. */
  ghost predicate Took(c: Chunk, was: Status, seg: Segment, r: Handled)
    requires seg.num >= 1
    reads c, c.nodes
  {
    var s := StatusOf(c);
    && s.record == Add(was.record, seg) && s.got == was.got + [seg] && s.start == was.start
    && (s.start != 0 <==> was.spoiled) && Outcome(c.hash, s.start, s.got, r)
    && s.record == AddAll(Assembly([], 1, s.start), s.got) && s.listed == was.listed
    && (s.downloaded <==> r == ChunkDone || r == AllDone)
    && (if r == Filed then s.peer == was.peer && s.spoiled == was.spoiled
        else s.peer == null && (s.spoiled <==> r == Undefined || r == Mismatch))
  }

  class Config {
    const id: int
    const peers: seq<Peer>
    var download: seq<Chunk>
    var numChunks: nat
    var numDownloaded: nat
    var curDownload: int
    var maxConn: int
    var lastWhohas: int
    var queue: seq<Message>
    ghost var repr: set<PacketNode>  // all list nodes in use
    ghost var filed: seq<Entry>      // the DATA packets filed since the user's request

    /** Peers and chunks point at each other or not at all; a peer is downloading exactly when it has a chunk
        and a response is awaited; a finished chunk and a freed list have no peer. */
    ghost predicate Matched()
      reads this`download, peers`chunk, peers`downloading, peers`lastResponse,
            download`peer, download`downloaded, download`freed
    {
      && (forall p :: p in peers ==>
            (p.downloading <==> p.chunk != null) && (p.lastResponse != -1 <==> p.chunk != null))
      && (forall p :: p in peers && p.chunk != null ==> p.chunk in download && p.chunk.peer == p)
      && (forall c :: c in download && c.peer != null ==> c.peer in peers && c.peer.chunk == c)
      && (forall c :: c in download ==>
            (c.downloaded ==> c.peer == null) && (c.freed ==> c.peer == null && !c.downloaded))
    }

    /** The peers noted for a chunk are found again under their address. */
    ghost predicate Listed()
      reads this`download, download`peers
    {
      forall c, q :: c in download && q in c.peers ==> q in peers && FirstWithAddr(peers, q.addr) == q
    }

    ghost predicate InUse(c: Chunk)
      reads this`repr, c`nodes
    {
      forall n :: n in c.nodes ==> n in repr && n.owner == c
    }

    /** Lists that have not been freed are well linked. */
    ghost predicate Lists()
      reads this`download, download`packets, download`nodes, download`freed, this`repr, repr`next
    {
      && (forall c :: c in download ==> InUse(c))
      && (forall c :: c in download && !c.freed ==> c.ListOk())
    }

    /** The shape of the data. */
    ghost predicate Shape()
      reads this`download, this`numChunks, this`numDownloaded, this`repr, repr`next,
            peers`chunk, peers`downloading, peers`lastResponse,
            download`peer, download`downloaded, download`freed, download`peers, download`packets, download`nodes
    {
      && Matched() && Lists() && Listed() && Distinct(download) && DistinctPeers(peers)
      && (download != [] ==> numChunks == |download| && numDownloaded == Count(Flags(download)))
    }

    /** The record of each chunk is what the packets of its transfer have made of it. */
    ghost predicate Histories()
      reads this`download, this`repr, repr`recv, repr`data, download`peer, download`downloaded, download`totalData,
            download`start, download`spoiled, download`nodes, download`nextExpected, download`got
    {
      forall c :: c in download ==> InUse(c) && c.History()
    }

    ghost predicate Valid()
      reads this, peers, download, repr
    {
      Shape() && Histories()
    }

    ghost function PeersNow(): map<Peer, PeerState>
      reads peers`lastResponse, peers`consecTimeouts, peers`badTime, peers`chunk
    {
      map p | p in peers :: PeerNow(p)
    }

    ghost function ChunksNow(): map<Chunk, ChunkState>
      reads this`download, download`peer, download`downloaded, download`spoiled, download`totalData, download`start,
            download`got, download`peers
    {
      map c | c in download :: ChunkNow(c)
    }

    /** All of this as a value. */
    ghost function Now(): Picture
      reads this, peers`lastResponse, peers`consecTimeouts, peers`badTime, peers`chunk
      reads download`peer, download`downloaded, download`spoiled, download`totalData, download`start, download`got,
            download`peers
    {
      Picture(id, peers, download, PeersNow(), ChunksNow(), curDownload, maxConn, lastWhohas, queue, filed)
    }

    lemma NowCounts()
      ensures Now().list == download && Now().cur == curDownload && Now().max == maxConn
    {
    }

    lemma PeersSeen()
      ensures PeersNow().Keys == (set p | p in peers) && forall p :: p in peers ==> PeersNow()[p] == PeerNow(p)
    {
    }

    lemma ChunksSeen()
      ensures ChunksNow().Keys == (set c | c in download)
      ensures forall c :: c in download ==> ChunksNow()[c] == ChunkNow(c)
    {
    }

    lemma PeersAre(m: map<Peer, PeerState>, p: Peer, s: PeerState)
      requires p in peers && PeerNow(p) == s && m.Keys == (set q | q in peers)
      requires forall q :: q in peers && q != p ==> PeerNow(q) == m[q]
      ensures PeersNow() == m[p := s]
    {
      hide PeerNow;
    }

    lemma ChunksAre(m: map<Chunk, ChunkState>, c: Chunk, s: ChunkState)
      requires c in download && ChunkNow(c) == s && m.Keys == (set d | d in download)
      requires forall d :: d in download && d != c ==> ChunkNow(d) == m[d]
      ensures ChunksNow() == m[c := s]
    {
      hide ChunkNow;
    }

    lemma NowSound()
      requires Shape()
      ensures Sound(Now())
    {
      hide FirstWithAddr, Lists, Count, Flags;
    }

    constructor (id: int, peers: seq<Peer>, maxConn: int)
      requires DistinctPeers(peers)
      requires forall p :: p in peers ==> p.chunk == null && !p.downloading && p.lastResponse == -1
      ensures Valid() && download == [] && this.peers == peers && queue == []
      ensures this.id == id && this.maxConn == maxConn && curDownload == 0 && lastWhohas == 0
      ensures repr == {} && filed == []
    {
      this.id, this.peers, this.maxConn := id, peers, maxConn;
      download, numChunks, numDownloaded, curDownload, lastWhohas, queue := [], 0, 0, 0, 0, [];
      repr, filed := {}, [];
    }

    /** The first peer with this address. */
    method PeerWithAddr(addr: nat) returns (p: Peer?)
      ensures p == null ==> forall i :: 0 <= i < |peers| ==> peers[i].addr != addr
      ensures p != null ==> p in peers && p.addr == addr
      ensures p == FirstWithAddr(peers, addr)
    {
      var i := 0;
      while i < |peers|
        invariant 0 <= i <= |peers| && forall j :: 0 <= j < i ==> peers[j].addr != addr
        invariant FirstWithAddr(peers, addr) == FirstWithAddr(peers[i..], addr)
      {
        if peers[i].addr == addr { return peers[i]; }
        i := i + 1;
      }
      p := null;
    }

    /** The histories of all chunks but one. */
    ghost predicate HistoriesBut(c: Chunk)
      reads this`download, this`repr, repr`recv, repr`data, download`peer, download`downloaded, download`totalData,
            download`start, download`spoiled, download`nodes, download`nextExpected, download`got
    {
      forall d :: d in download && d != c ==> InUse(d) && d.History()
    }

    lemma HistoriesFrom(c: Chunk)
      requires HistoriesBut(c) && Lists() && (c in download ==> c.History())
      ensures Histories()
    {
      hide Chunk.History;
    }

    /** Nodes belong to one chunk. */
    lemma Apart(c: Chunk)
      requires Lists() && c in download
      ensures forall n :: n in c.nodes ==> n in repr
      ensures forall d, i :: d in download && d != c && 0 <= i < |d.nodes| ==> d.nodes[i] !in c.nodes
    {
      assert InUse(c);
      forall d, i | d in download && d != c && 0 <= i < |d.nodes| ensures d.nodes[i] !in c.nodes {
        assert InUse(d) && d.nodes[i] in d.nodes;
      }
    }

    lemma ListsOf()
      requires Shape()
      ensures Lists()
    {
    }

    lemma HasList(p: Peer, c: Chunk)
      requires Shape() && p in peers && p.chunk == c
      ensures c in download && c.peer == p && c.ListOk() && !c.freed && !c.downloaded
    {
    }

    // ---------- the two changes to the matching ----------

    method Attach(p: Peer, c: Chunk, now: int)
      requires Shape() && p in peers && c in download && p.chunk == null && c.peer == null
      requires !c.downloaded && !c.freed && now >= 0
      modifies p`chunk, p`downloading, p`lastResponse, c`peer
      ensures Shape() && p.chunk == c && c.peer == p && p.lastResponse == now
    {
      hide Distinct, Count, Flags, Lists, Listed, DistinctPeers;
      p.chunk := c;
      p.downloading := true;
      p.lastResponse := now;
      c.peer := p;
    }

    method Detach(p: Peer, c: Chunk)
      requires Shape() && p in peers && p.chunk == c
      modifies p`chunk, p`downloading, p`lastResponse, c`peer
      ensures Shape() && p.chunk == null && c.peer == null && !p.downloading && p.lastResponse == -1 && c in download
    {
      hide Distinct, Count, Flags, Lists, Listed, DistinctPeers;
      p.downloading := false;
      p.lastResponse := -1;
      p.chunk := null;
      c.peer := null;
    }

    // ---------- requests ----------

    lemma AllBut(c: Chunk)
      requires Histories() && c in download
      ensures HistoriesBut(c) && c.CountKnown()
    {
    }

    lemma Afresh(c: Chunk)
      requires Shape() && HistoriesBut(c) && c in download && c.peer != null && !c.downloaded
      requires c.View() == Assembly([], 1, c.start) && c.got == []
      requires if c.spoiled then c.start >= CHUNK_SIZE else c.start == 0
      ensures Histories()
    {
      hide Lists, Matched, Listed, Distinct, DistinctPeers, HistoriesBut, Histories;
      HistoriesFrom(c);
    }

    lemma NothingInUse(c: Chunk)
      requires c.nodes == []
      ensures InUse(c)
    {
    }

    method ClearList(c: Chunk)
      requires Shape() && c in download && c.peer == null && !c.downloaded
      modifies c`packets, c`nodes, c`freed
      ensures Shape() && c.ListOk() && c.nodes == [] && !c.freed
    {
      hide Listed, Distinct, Count, Flags, DistinctPeers, InUse;
      c.packets := null;
      c.nodes := [];
      c.freed := false;
      assert InUse(c) by { NothingInUse(c); }
    }

    method Restart(c: Chunk)
      requires Shape() && c in download && c.peer == null && !c.downloaded && c.CountKnown()
      modifies c`nextExpected, c`packets, c`nodes, c`freed, c`start, c`got
      ensures Shape() && c.View() == Assembly([], 1, c.start) && c.ListOk() && c.peer == null && c.got == []
      ensures !c.freed
      ensures c.start == c.totalData && (if c.spoiled then c.start >= CHUNK_SIZE else c.start == 0)
    {
      hide Shape;
      c.nextExpected := 1;
      ClearList(c);
      c.start, c.got := c.totalData, [];
    }

    method Join(p: Peer, c: Chunk, now: int)
      requires Valid() && p in peers && c in download && p.chunk == null && c.peer == null && !c.downloaded && now >= 0
      modifies p`chunk, p`downloading, p`lastResponse,
               c`peer, c`nextExpected, c`packets, c`nodes, c`freed, c`start, c`got
      ensures Valid() && c.peer == p && p.chunk == c && p.lastResponse == now
      ensures Requested(c) && c.ListOk()
    {
      hide Shape, Histories, InUse, Chunk.History, Chunk.ListOk;
      AllBut(c);
      Restart(c);
      Attach(p, c, now);
      Afresh(c);
    }

    method Request(p: Peer, c: Chunk, now: int)
      requires Valid() && p in peers && c in download && p.chunk == null && c.peer == null && !c.downloaded && now >= 0
      modifies p`chunk, p`downloading, p`lastResponse,
               c`peer, c`nextExpected, c`packets, c`nodes, c`freed, c`start, c`got
      ensures Valid() && Requested(c) && c.ListOk()
      ensures p in old(Now()).peers && c in old(Now()).chunks
      ensures Now() == Asking(old(Now()), c, p, now)
    {
      hide Shape, Histories, Chunk.ListOk, PeersNow, ChunksNow, StatusOf;
      ghost var ps, cs := PeersNow(), ChunksNow();
      PeersSeen();
      ChunksSeen();
      Join(p, c, now);
      PeersAre(ps, p, PeerState(ps[p].watch.(last := now), c));
      ChunksAre(cs, c, cs[c].(peer := p, start := cs[c].total, got := []));
    }

    method CountRequest()
      requires Valid()
      modifies this`maxConn
      ensures Valid() && Now() == old(Now()).(max := old(Now()).max + 1)
    {
      hide Shape, Histories, PeersNow, ChunksNow;
      maxConn := maxConn + 1;
    }

    /** Queues a packet. */
    method PacketNew(m: Message)
      requires Valid()
      modifies this`queue
      ensures Valid() && Now() == old(Now()).(queue := old(Now()).queue + [m])
    {
      hide Shape, Histories, PeersNow, ChunksNow;
      queue := queue + [m];
    }

    /** Asks a free peer for a chunk that nobody delivers.  The list starts afresh; the byte count does not. */
    method SendGet(to: nat, c: Chunk, now: int) returns (sent: bool)
      requires Valid() && c in download && c.peer == null && !c.downloaded && now >= 0
      requires FirstWithAddr(peers, to) != null && FirstWithAddr(peers, to).chunk == null
      modifies this`maxConn, this`queue, FirstWithAddr(peers, to)`chunk, FirstWithAddr(peers, to)`downloading,
               FirstWithAddr(peers, to)`lastResponse,
               c`peer, c`nextExpected, c`packets, c`nodes, c`freed, c`start, c`got
      ensures Valid() && (sent <==> old(curDownload) < old(maxConn))
      ensures if sent then Requested(c) && c.ListOk() else Same(c)
      ensures Now() == if sent then Requesting(old(Now()), c, FirstWithAddr(peers, to), now) else old(Now())
    {
      hide Valid, Now, FirstWithAddr, StatusOf, AskedFor, Chunk.ListOk;
      sent := false;
      if curDownload >= maxConn { return; }
      CountRequest();
      var p := PeerWithAddr(to);
      Request(p, c, now);
      PacketNew(Get(to, c.hash));
      sent := true;
    }

    // ---------- timeouts ----------

    /** A peer after a check: as the check of its value says, and released exactly when that says so. */
    twostate predicate Checked(p: Peer, now: int)
      reads p
    {
      PeerNow(p) == CheckedPeer(old(PeerNow(p)), now)
    }

    lemma FromNothing(c: Chunk)
      requires Shape() && HistoriesBut(c) && c.peer == null && c.totalData == 0 && !c.spoiled
      ensures Histories()
    {
      hide Lists, Matched, Listed, Distinct, DistinctPeers, HistoriesBut, Histories;
      HistoriesFrom(c);
    }

    method FreeList(c: Chunk)
      requires Shape() && c in download && c.peer == null && !c.downloaded && c.ListOk()
      modifies c`freed
      ensures Shape() && c.freed
    {
      hide Distinct, Count, Flags, DistinctPeers, Listed, Chunk.ListOk, InUse;
      c.DelPacketList();
    }

    /** Already false for a chunk that has a peer. */
    method ClearDownloaded(c: Chunk)
      requires Shape() && c in download && !c.downloaded
      modifies c`downloaded
      ensures Shape() && !c.downloaded
    {
      hide Distinct, Count, DistinctPeers, Lists, Listed, Chunk.ListOk;
      ghost var fs := Flags(download);
      c.downloaded := false;
      assert Flags(download) == fs;
    }

    method Abandon(c: Chunk)
      requires Shape() && c in download && c.peer == null && !c.downloaded && c.ListOk()
      modifies c`nextExpected, c`totalData, c`downloaded, c`freed, c`spoiled
      ensures Shape() && c.peer == null && c.freed && !c.downloaded && !c.spoiled
      ensures c.View() == old(c.View()).(next := 1, total := 0)
    {
      hide Shape, Chunk.ListOk;
      c.nextExpected := 1;
      c.totalData := 0;
      c.spoiled := false;
      ClearDownloaded(c);
      FreeList(c);
    }

    method GiveUp(p: Peer, c: Chunk)
      requires Valid() && p in peers && p.chunk == c
      modifies p`chunk, p`downloading, p`lastResponse
      modifies c`peer, c`nextExpected, c`totalData, c`downloaded, c`freed, c`spoiled
      ensures Valid() && p.chunk == null && p.lastResponse == -1 && GivenUp(old(StatusOf(c)), StatusOf(c))
    {
      hide Shape, Histories, InUse, Chunk.History, Chunk.ListOk;
      HasList(p, c);
      AllBut(c);
      Detach(p, c);
      Abandon(c);
      FromNothing(c);
    }

    /** A response that is late is counted; the fifth time the peer is bad and its chunk is given up. */
    method TimeoutOne(p: Peer, now: int)
      requires Valid() && p in peers
      modifies p`consecTimeouts, p`badTime, p`chunk, p`downloading, p`lastResponse
      modifies download`peer, download`nextExpected, download`totalData, download`downloaded, download`freed,
               download`spoiled
      ensures Valid() && Checked(p, now)
      ensures forall c :: c in download ==> Same(c) || (old(c.peer) == p && GivenUp(old(StatusOf(c)), StatusOf(c)))
    {
      hide Lists, Listed, Distinct, Count, Flags, DistinctPeers, Histories, StatusOf, GivenUp;
      if p.lastResponse != -1 && now - p.lastResponse > TIMEOUT_MILLIS {
        p.consecTimeouts := p.consecTimeouts + 1;
        if p.consecTimeouts >= MAX_TIMEOUTS {
          p.badTime := now;
          GiveUp(p, p.chunk);
        }
      }
    }

    lemma PeersDiffer()
      requires Shape()
      ensures DistinctPeers(peers)
    {
    }

    lemma NobodyWatched(now: int)
      requires Shape() && download == []
      ensures forall p :: p in peers ==> CheckedPeer(PeerNow(p), now) == PeerNow(p)
    {
    }

    lemma StatusSeen()
      ensures forall c :: c in download ==> ChunkNow(c) == Seen(StatusOf(c))
    {
    }

    lemma CheckShows(a: Picture, now: int)
      requires Shape() && Sound(a) && a.peers.Keys == (set p | p in peers) && a.chunks.Keys == (set c | c in download)
      requires forall p :: p in peers ==> PeerNow(p) == CheckedPeer(a.peers[p], now)
      requires forall c :: c in download ==>
                 ChunkNow(c) == a.chunks[c] || (a.chunks[c].peer != null && ChunkNow(c) == Dropped(a.chunks[c]))
      ensures PeersNow() == AfterCheck(a, now).peers && ChunksNow() == AfterCheck(a, now).chunks
    {
      hide Lists, Listed, Distinct, Count, Flags, DistinctPeers, FirstWithAddr, CheckOnce;
      assert PeersNow() == AfterCheck(a, now).peers;
      assert ChunksNow() == AfterCheck(a, now).chunks;
    }

    method CheckPeers(now: int)
      requires Valid() && download != []
      modifies peers`consecTimeouts, peers`badTime, peers`chunk, peers`downloading, peers`lastResponse
      modifies download`peer, download`nextExpected, download`totalData, download`downloaded, download`freed,
               download`spoiled
      ensures Valid()
      ensures forall p :: p in peers ==> Checked(p, now)
      ensures forall c :: c in download ==> LeftOrGivenUp(old(StatusOf(c)), StatusOf(c))
    {
      hide Shape, Histories, FirstWithAddr, StatusOf, PeerNow, CheckedPeer, Chunk.History;
      assert DistinctPeers(peers) by { PeersDiffer(); }
      var i := 0;
      while i < |peers|
        invariant 0 <= i <= |peers| && Valid()
        invariant forall j :: i <= j < |peers| ==> Untouched(peers[j])
        invariant forall j :: 0 <= j < i ==> Checked(peers[j], now)
        invariant forall c :: c in download ==> LeftOrGivenUp(old(StatusOf(c)), StatusOf(c))
      {
        TimeoutOne(peers[i], now);
        i := i + 1;
      }
    }

    /** Every late peer is counted, and released with its chunk the fifth time; nothing else changes. */
    method TimeoutCheck(now: int)
      requires Valid()
      modifies peers`consecTimeouts, peers`badTime, peers`chunk, peers`downloading, peers`lastResponse
      modifies download`peer, download`nextExpected, download`totalData, download`downloaded, download`freed,
               download`spoiled
      ensures Valid()
      ensures forall c :: c in download ==> LeftOrGivenUp(old(StatusOf(c)), StatusOf(c))
      ensures Now() == AfterCheck(old(Now()), now)
    {
      hide Shape, Histories, FirstWithAddr, StatusOf, PeerNow, ChunkNow, CheckedPeer, Sound, LeftOrGivenUp, Seen;
      hide PeersNow, ChunksNow;
      ghost var a := Now();
      NowSound();
      PeersSeen();
      ChunksSeen();
      StatusSeen();
      if download == [] {
        NobodyWatched(now);
      } else {
        CheckPeers(now);
      }
      StatusSeen();
      forall c | c in download
        ensures ChunkNow(c) == a.chunks[c] || (a.chunks[c].peer != null && ChunkNow(c) == Dropped(a.chunks[c]))
      {
        SeenGivenUp(old(StatusOf(c)), StatusOf(c));
      }
      CheckShows(a, now);
    }

    // ---------- data ----------

    lemma BeingDelivered(c: Chunk)
      requires Valid() && c in download && c.peer != null
      ensures c.ListOk() && !c.downloaded && c.Recorded() && c.CountKnown()
    {
      assert c.History();
    }

    lemma OneMore(c: Chunk)
      requires Shape() && HistoriesBut(c) && c.peer != null && c.Recorded() && c.CountKnown()
      ensures Histories()
    {
      hide Matched, Listed, Lists, Distinct, DistinctPeers, HistoriesBut, Histories, Chunk.Recorded, Chunk.CountKnown;
      HistoriesFrom(c);
    }

    /** What filing a packet leaves alone. */
    method AddTo(c: Chunk, num: nat, data: Bytes)
      requires c.ListOk() && num >= 1
      requires forall d, i :: d in download && d != c && 0 <= i < |d.nodes| ==> d.nodes[i] !in c.nodes
      modifies c`packets, c`nodes, c`nextExpected, c`totalData
      modifies c.nodes`next, c.nodes`recv, c.nodes`data
      ensures c.ListOk() && c.View() == Add(old(c.View()), Segment(num, data))
      ensures old(c.nodes) <= c.nodes && forall n :: n in c.nodes ==> n in old(c.nodes) || fresh(n)
      ensures forall d :: d in download && d != c ==>
                Same(d) && (d.ListOk() <==> old(d.ListOk())) && (d.History() <==> old(d.History()))
    {
      hide Add, Chunk.View, Chunk.History, Chunk.ListOk, StatusOf;
      c.AddPacketList(num, data);
    }

    /** The nodes of c are in use from now on. */
    ghost method UseNodes(c: Chunk)
      requires c.ListOk()
      modifies this`repr
      ensures InUse(c) && old(repr) <= repr && forall d :: d in download && old(InUse(d)) ==> InUse(d)
      ensures forall n :: n in repr ==> n in old(repr) || n in c.nodes
    {
      repr := repr + set n | n in c.nodes;
    }

    method StoreInList(c: Chunk, num: nat, data: Bytes)
      requires Shape() && HistoriesBut(c) && c in download && c.ListOk() && num >= 1
      modifies c`packets, c`nodes, c`nextExpected, c`totalData, this`repr
      modifies c.nodes`next, c.nodes`recv, c.nodes`data
      ensures Shape() && HistoriesBut(c) && c.ListOk() && c.View() == Add(old(c.View()), Segment(num, data))
      ensures forall d :: d in download && d != c ==> Same(d)
      ensures old(repr) <= repr && fresh(repr - old(repr))
    {
      hide Matched, Listed, Distinct, Count, Flags, DistinctPeers, Add, Chunk.View, Chunk.History, StatusOf, InUse;
      hide Linked, Chunk.ListOk;
      Apart(c);
      AddTo(c, num, data);
      UseNodes(c);
    }

    /** Files a packet with the chunk that its peer delivers; no other chunk's record is touched. */
    method FilePacket(c: Chunk, num: nat, data: Bytes)
      requires Valid() && c in download && c.peer != null && num >= 1
      modifies c`packets, c`nodes, c`nextExpected, c`totalData, c`got, this`repr
      modifies c.nodes`next, c.nodes`recv, c.nodes`data
      ensures Valid() && c.ListOk() && c.View() == Add(old(c.View()), Segment(num, data))
      ensures c.got == old(c.got) + [Segment(num, data)]
      ensures forall d :: d in download && d != c ==> Same(d)
      ensures old(repr) <= repr && fresh(repr - old(repr))
    {
      hide Shape, Histories, InUse, Chunk.History, Chunk.ListOk, Chunk.View, Add, AddAll;
      BeingDelivered(c);
      AllBut(c);
      StoreInList(c, num, data);
      AddAllOne(Assembly([], 1, c.start), c.got, Segment(num, data));
      c.got := c.got + [Segment(num, data)];
      OneMore(c);
    }

    lemma DoneAnyway(c: Chunk)
      requires Decides(c.hash, c.View(), ChunkDone)
      ensures Decides(c.hash, c.View(), AllDone)
    {
      hide Joined, NoGaps, Fips180.Sha1;
    }

    /** Every other chunk is downloaded. */
    ghost predicate LastWanted(c: Chunk?)
      reads this`download, download`downloaded
    {
      forall d :: d in download && d != c ==> d.downloaded
    }

    lemma AllDownloaded()
      requires Valid() && download != []
      ensures numDownloaded == numChunks <==> forall c :: c in download ==> c.downloaded
      ensures numDownloaded == numChunks ==> forall c :: c in download ==> c.ListOk()
      ensures numDownloaded == numChunks ==> forall q :: q in peers ==> q.chunk == null
    {
      hide Count, Distinct, DistinctPeers, Chunk.ListOk, Chunk.History;
      if numDownloaded == numChunks { CountFull(Flags(download)); }
      if forall c :: c in download ==> c.downloaded { CountAll(Flags(download)); }
      assert (forall c :: c in download ==> c.downloaded)
        ==> forall c :: c in download ==> !c.freed && c.peer == null;
    }

    lemma NothingLeft()
      requires download == [] && DistinctPeers(peers)
      requires forall q :: q in peers ==> q.chunk == null && !q.downloading && q.lastResponse == -1
      ensures Valid()
    {
    }

    method FreeLists()
      requires Distinct(download) && forall c :: c in download ==> c.ListOk()
      modifies download`freed
      ensures forall c :: c in download && c.packets != null ==> c.freed
    {
      hide Chunk.ListOk;
      for i := 0 to |download|
        invariant forall j :: i <= j < |download| ==> download[j].ListOk()
        invariant forall j :: 0 <= j < i && download[j].packets != null ==> download[j].freed
      {
        if download[i].packets != null { download[i].DelPacketList(); }
      }
    }

    /** Everything is downloaded: no peer points at a chunk, and the lists can be freed. */
    method DelReceiverList()
      requires Valid() && download != [] && numDownloaded == numChunks
      modifies this`download, download`freed
      ensures Valid() && download == [] && forall q :: q in peers ==> q.chunk == null
      ensures forall c :: c in old(download) ==> c.downloaded && (c.packets != null ==> c.freed)
    {
      hide Count, DistinctPeers, Chunk.ListOk, Chunk.History;
      AllDownloaded();
      FreeLists();
      download := [];
      NothingLeft();
    }

    /** After the last chunk the download is over. */
    method Conclude(c: Chunk, r0: Handled) returns (r: Handled)
      requires Valid() && c in download && r0 in {Undefined, Mismatch, ChunkDone} && Decides(c.hash, c.View(), r0)
      modifies this`download, download`freed
      ensures Valid() && Decides(c.hash, c.View(), r) && Ended(old(download), r)
      ensures r == r0 || (r0 == ChunkDone && r == AllDone)
      ensures r == AllDone ==> download == [] && forall q :: q in peers ==> q.chunk == null
      ensures r != AllDone ==> download == old(download) && forall d :: d in download ==> Same(d)
    {
      hide Shape, Histories, Decides, Chunk.View, StatusOf;
      r := r0;
      AllDownloaded();
      if r0 == ChunkDone && numDownloaded == numChunks {
        DelReceiverList();
        DoneAnyway(c);
        r := AllDone;
      }
    }

    method Release(p: Peer, c: Chunk)
      requires Shape() && HistoriesBut(c) && p in peers && p.chunk == c
      modifies p`chunk, p`downloading, p`lastResponse, c`peer, this`curDownload
      ensures Shape() && HistoriesBut(c) && p.chunk == null && p.lastResponse == -1 && c.peer == null && c in download
      ensures curDownload == old(curDownload) - 1
      ensures c.View() == old(c.View()) && forall d :: d in download && d != c ==> Same(d)
    {
      hide Shape, InUse, Chunk.History;
      Detach(p, c);
      curDownload := curDownload - 1;
    }

    lemma Settled(c: Chunk)
      requires Shape() && HistoriesBut(c) && c.peer == null && Finished(c.View()) && (c.spoiled || c.downloaded)
      ensures Histories()
    {
      hide Matched, Listed, Lists, Distinct, DistinctPeers, HistoriesBut, Histories;
      HistoriesFrom(c);
    }

    /** Copies the list out and compares its hash. */
    method CheckChunk(c: Chunk, little: bool) returns (r: Handled)
      requires c.ListOk() && Finished(c.View())
      ensures r in {Undefined, Mismatch, ChunkDone} && Decides(c.hash, c.View(), r)
    {
      hide Joined, NoGaps, Fips180.Sha1, Chunk.ListOk;
      var buffer := new bv8[CHUNK_SIZE];
      var ok := c.WriteToBuffer(buffer);
      if !ok { return Undefined; }
      var computed := Sha1.ShaHash(buffer[..], little);
      assert buffer[..] == buffer[..CHUNK_SIZE];
      r := if c.hash != computed then Mismatch else ChunkDone;
    }

    method SetDownloaded(c: Chunk, ghost k: nat)
      requires Matched() && Distinct(download) && k < |download| && download[k] == c && c.peer == null && !c.freed
      modifies c`downloaded
      ensures Matched() && c.downloaded && Flags(download) == old(Flags(download))[k := true]
    {
      ghost var fs := Flags(download);
      c.downloaded := true;
      assert Flags(download) == fs[k := true];
    }

    method StoreChunk(c: Chunk)
      requires Shape() && c in download && c.peer == null && !c.downloaded && !c.freed
      modifies c`downloaded, this`numDownloaded
      ensures Shape() && c.downloaded
    {
      hide Count, Flags, DistinctPeers, Distinct, Lists, Listed, Matched, Chunk.ListOk;
      ghost var k :| 0 <= k < |download| && download[k] == c;
      CountSet(Flags(download), k);
      SetDownloaded(c, k);
      numDownloaded := numDownloaded + 1;
    }

    method Settle(c: Chunk, little: bool) returns (r: Handled)
      requires Shape() && HistoriesBut(c) && c in download && c.peer == null && !c.downloaded && !c.freed
      requires c.ListOk() && Finished(c.View())
      modifies c`downloaded, c`spoiled, this`numDownloaded
      ensures Valid() && r in {Undefined, Mismatch, ChunkDone} && Decides(c.hash, c.View(), r)
      ensures (c.downloaded <==> r == ChunkDone) && (c.spoiled <==> r != ChunkDone)
      ensures c.View() == old(c.View()) && forall d :: d in download && d != c ==> Same(d)
    {
      hide Shape, Decides, InUse, Histories, Finished, Chunk.History, Chunk.ListOk, Chunk.View;
      r := CheckChunk(c, little);
      if r == ChunkDone { StoreChunk(c); }
      c.spoiled := r != ChunkDone;
      Settled(c);
    }

    /** The byte count is full: the peer is released, the list is copied out and its hash decides. */
    method FinishChunk(p: Peer, c: Chunk, little: bool) returns (r: Handled)
      requires Valid() && p in peers && p.chunk == c && Finished(c.View())
      modifies p`chunk, p`downloading, p`lastResponse, c`peer, c`downloaded, c`spoiled
      modifies this`curDownload, this`numDownloaded, this`download, download`freed
      ensures Valid() && p.chunk == null && p.lastResponse == -1 && c.peer == null && c.View() == old(c.View())
      ensures curDownload == old(curDownload) - 1
      ensures r != Filed && Decides(c.hash, c.View(), r)
      ensures (c.downloaded <==> r == ChunkDone || r == AllDone) && (c.spoiled <==> r == Undefined || r == Mismatch)
      ensures r == AllDone ==> old(LastWanted(c)) && download == [] && forall q :: q in peers ==> q.chunk == null
      ensures r != AllDone ==> download == old(download) && forall d :: d in download && d != c ==> Same(d)
      ensures r == ChunkDone ==> !old(LastWanted(c))
    {
      hide Shape, Histories, HistoriesBut, Decides, Finished, Chunk.ListOk, Chunk.View, StatusOf;
      HasList(p, c);
      AllBut(c);
      Release(p, c);
      r := Settle(c, little);
      r := Conclude(c, r);
    }

    lemma StatusIs(c: Chunk)
      ensures StatusOf(c)
           == Status(c.View(), c.nodes, c.freed, c.peer, c.downloaded, c.start, c.got, c.spoiled, c.peers)
    {
    }

    lemma Taken(c: Chunk, was: Status, seg: Segment, r: Handled)
      requires seg.num >= 1 && c.View() == Add(was.record, seg) && c.got == was.got + [seg] && c.start == was.start
      requires c.Recorded() && Decides(c.hash, c.View(), r)
      requires if was.spoiled then c.start >= CHUNK_SIZE else c.start == 0
      requires c.peers == was.listed && (c.downloaded <==> r == ChunkDone || r == AllDone)
      requires if r == Filed then c.peer == was.peer && c.spoiled == was.spoiled
               else c.peer == null && (c.spoiled <==> r == Undefined || r == Mismatch)
      ensures Took(c, was, seg, r)
    {
      hide AddAll, Add, Decides;
    }

    lemma NotYet(c: Chunk)
      requires c.totalData < CHUNK_SIZE
      ensures Decides(c.hash, c.View(), Filed)
    {
      hide SlotsOf;
    }

    lemma NextOf(c: Chunk)
      ensures c.View().next == c.nextExpected && c.View().total == c.totalData
    {
    }

    /** The chunk has the record of this packet; what was before is in `was`. */
    method FinishIfFull(p: Peer, c: Chunk, little: bool, ghost was: Status, ghost seg: Segment) returns (r: Handled)
      requires Valid() && p in peers && p.chunk == c && seg.num >= 1 && was.peer == p
      requires c.View() == Add(was.record, seg) && c.got == was.got + [seg] && c.start == was.start
      requires c.spoiled == was.spoiled && !c.downloaded && c.peers == was.listed
      modifies p`chunk, p`downloading, p`lastResponse, c`peer, c`downloaded, c`spoiled
      modifies this`curDownload, this`numDownloaded, this`download, download`freed
      ensures Valid() && Took(c, was, seg, r)
      ensures p.chunk == if r == Filed then c else null
      ensures curDownload == old(curDownload) - if r == Filed then 0 else 1
      ensures p.lastResponse == if r == Filed then old(p.lastResponse) else -1
      ensures r == AllDone ==> old(LastWanted(c)) && download == [] && forall q :: q in peers ==> q.chunk == null
      ensures r != AllDone ==> download == old(download) && forall d :: d in download && d != c ==> Same(d)
      ensures r == ChunkDone ==> !old(LastWanted(c))
    {
      hide Shape, Histories, Add, Decides, Took, Chunk.ListOk, Chunk.Recorded, Chunk.View, StatusOf;
      HasList(p, c);
      BeingDelivered(c);
      r := Filed;
      NextOf(c);
      if c.totalData >= CHUNK_SIZE {
        r := FinishChunk(p, c, little);
      } else {
        NotYet(c);
      }
      Taken(c, was, seg, r);
    }

    method AddPacket(p: Peer, c: Chunk, num: nat, data: Bytes, little: bool, ghost from: nat)
      returns (r: Handled, next: int)
      requires Valid() && p in peers && p.chunk == c && num >= 1
      modifies p`chunk, p`downloading, p`lastResponse
      modifies c`peer, c`downloaded, c`spoiled, c`packets, c`nodes, c`nextExpected, c`totalData, c`got
      modifies c.nodes`next, c.nodes`recv, c.nodes`data
      modifies this`repr, this`filed, this`curDownload, this`numDownloaded, this`download, download`freed
      ensures Valid() && Took(c, old(StatusOf(c)), Segment(num, data), r) && next == c.nextExpected
      ensures filed == old(filed) + [Entry(c, from, c.start, c.got, r)]
      ensures p.chunk == if r == Filed then c else null
      ensures curDownload == old(curDownload) - if r == Filed then 0 else 1
      ensures p.lastResponse == if r == Filed then old(p.lastResponse) else -1
      ensures r == AllDone ==> old(LastWanted(c)) && download == [] && forall q :: q in peers ==> q.chunk == null
      ensures r != AllDone ==> download == old(download) && forall d :: d in download && d != c ==> Same(d)
      ensures r == ChunkDone ==> !old(LastWanted(c))
      ensures old(repr) <= repr && fresh(repr - old(repr))
    {
      hide Shape, Histories, Add, Took, Chunk.ListOk, Chunk.View, StatusOf;
      HasList(p, c);
      ghost var was := StatusOf(c);
      StatusIs(c);
      FilePacket(c, num, data);
      next := c.nextExpected;
      r := FinishIfFull(p, c, little, was, Segment(num, data));
      filed := filed + [Entry(c, from, c.start, c.got, r)];
    }

    /** Any response clears the peer's record of lateness. */
    method Heard(p: Peer, now: int)
      requires Valid() && p in peers && p.chunk != null && now >= 0
      modifies p`consecTimeouts, p`badTime, p`lastResponse
      ensures Valid() && WatchOf(p) == Watch(now, 0, 0) && forall d :: d in download ==> Same(d)
    {
      hide Lists, Listed, Distinct, Count, Flags, DistinctPeers, Histories, StatusOf;
      p.consecTimeouts := 0;
      p.badTime := 0;
      p.lastResponse := now;
    }

    lemma TookIsNew(c: Chunk, was: Status, seg: Segment, r: Handled)
      requires seg.num >= 1 && Took(c, was, seg, r)
      ensures r != Ignored && r != BadNumber
    {
      hide Add, AddAll, NoGaps, Joined, Fips180.Sha1;
    }

    /** A DATA packet from a peer that delivers chunk c. */
    method TakeData(from: nat, p: Peer, c: Chunk, num: int, data: Bytes, now: int, little: bool) returns (r: Handled)
      requires Valid() && now >= 0 && p in peers && p.chunk == c
      modifies this`curDownload, this`numDownloaded, this`download, this`queue, this`repr, this`filed, download`freed
      modifies p`consecTimeouts, p`badTime, p`chunk, p`downloading, p`lastResponse
      modifies c`peer, c`downloaded, c`spoiled, c`packets, c`nodes, c`nextExpected, c`totalData, c`got
      modifies c.nodes`next, c.nodes`recv, c.nodes`data
      ensures Valid() && r != Ignored && (r == BadNumber <==> !(1 <= num <= MAX_SEQNUM))
      ensures r == BadNumber ==> Same(c) && queue == old(queue) && filed == old(filed)
      ensures r != BadNumber ==>
                && Took(c, old(StatusOf(c)), Segment(num, data), r)
                && queue == old(queue) + [AckOf(from, c.nextExpected - 1)]
                && filed == old(filed) + [Entry(c, from, c.start, c.got, r)]
      ensures curDownload == old(curDownload) - if r == Filed || r == BadNumber then 0 else 1
      ensures PeerNow(p) == if r == Filed || r == BadNumber then PeerState(Watch(now, 0, 0), c)
                            else PeerState(Watch(-1, 0, 0), null)
      ensures r == AllDone ==> old(LastWanted(c)) && download == []
      ensures r != AllDone ==> download == old(download) && forall d :: d in download && d != c ==> Same(d)
      ensures r == ChunkDone ==> !old(LastWanted(c))
      ensures old(repr) <= repr && fresh(repr - old(repr))
    {
      hide Shape, Histories, StatusOf, Took, LastWanted, AddAll, Add, Outcome, Chunk.ListOk;
      HasList(p, c);
      Heard(p, now);
      if num > MAX_SEQNUM || num < 1 { return BadNumber; }
      var next;
      r, next := AddPacket(p, c, num, data, little, from);
      TookIsNew(c, old(StatusOf(c)), Segment(num, data), r);
      queue := queue + [AckOf(from, next - 1)];
    }

    lemma SeenTook(c: Chunk, was: Status, seg: Segment, r: Handled)
      requires seg.num >= 1 && Took(c, was, seg, r) && Numbered(was.got) && !was.downloaded
      ensures ChunkNow(c) == FiledInto(Seen(was), seg, r)
      ensures c.start == was.start && c.got == was.got + [seg] && Outcome(c.hash, c.start, c.got, r)
      ensures c.nextExpected == AddAll(Assembly([], 1, was.start), was.got + [seg]).next
    {
      hide Add, AddAll, Outcome, SlotsOf;
    }

    lemma LastSeen(c: Chunk)
      ensures LastWanted(c) <==> AllElseDone(Now(), c)
    {
      var cs := Now().chunks;
      assert forall d :: d in download ==> d in cs && cs[d].downloaded == d.downloaded;
    }

    lemma OneSeen(c: Chunk)
      requires Valid() && c in download && c.peer != null
      ensures c in Now().chunks && Now().chunks[c] == Seen(StatusOf(c)) && Numbered(c.got)
      ensures Now().chunks[c].start == c.start && Now().chunks[c].got == c.got
    {
      BeingDelivered(c);
    }

    /** The picture but for one peer and one chunk. */
    ghost predicate Beside(a: Picture, p: Peer, c: Chunk)
      reads this, peers`lastResponse, peers`consecTimeouts, peers`badTime, peers`chunk
      reads download`peer, download`downloaded, download`spoiled, download`totalData, download`start, download`got,
            download`peers
    {
      && a.self == id && a.order == peers && a.max == maxConn && a.whohas == lastWhohas
      && a.peers.Keys == (set q | q in peers) && (forall q :: q in peers && q != p ==> PeerNow(q) == a.peers[q])
      && (download != [] ==> a.list == download && a.chunks.Keys == (set d | d in download))
      && (forall d :: d in download && d != c ==> d in a.chunks && ChunkNow(d) == a.chunks[d])
    }

    lemma BothNow(a: Picture, p: Peer, c: Chunk)
      requires Beside(a, p, c) && p in peers
      ensures PeersNow() == a.peers[p := PeerNow(p)]
      ensures download == [] ==> ChunksNow() == map[]
      ensures c in download ==> ChunksNow() == a.chunks[c := ChunkNow(c)]
    {
      hide PeerNow, ChunkNow;
    }

    lemma Refused(a: Picture, p: Peer, c: Chunk, now: int)
      requires Beside(a, p, c) && p in peers && c in download && ChunkNow(c) == a.chunks[c]
      requires PeerNow(p) == PeerState(Watch(now, 0, 0), c)
      requires curDownload == a.cur && queue == a.queue && filed == a.filed
      ensures Now() == a.(peers := a.peers[p := PeerState(Watch(now, 0, 0), c)])
    {
      hide PeerNow, ChunkNow, PeersNow, ChunksNow;
      BothNow(a, p, c);
      assert a.chunks[c := a.chunks[c]] == a.chunks;
    }

    lemma Delivered(a: Picture, was: Status, from: nat, p: Peer, c: Chunk, seg: Segment, now: int, r: Handled)
      requires Beside(a, p, c) && p in peers && c in a.chunks && a.chunks[c] == Seen(was) && Numbered(was.got)
      requires !was.downloaded && seg.num >= 1 && Took(c, was, seg, r)
      requires if r == AllDone then download == [] else c in download
      requires PeerNow(p) == if r == Filed then PeerState(Watch(now, 0, 0), c) else PeerState(Watch(-1, 0, 0), null)
      requires curDownload == if r == Filed then a.cur else a.cur - 1
      requires queue == a.queue + [AckOf(from, c.nextExpected - 1)]
      requires filed == a.filed + [Entry(c, from, c.start, c.got, r)]
      ensures Outcome(c.hash, a.chunks[c].start, a.chunks[c].got + [seg], r)
      ensures Now() == Filing(a, from, p, c, seg, now, r)
    {
      hide Took, Outcome, AddAll, FiledInto, Filing, ChunksNow, PeersNow, PeerNow, ChunkNow;
      BothNow(a, p, c);
      SeenTook(c, was, seg, r);
      FilingIs(a, from, p, c, seg, now, r, Now());
    }

    /** What a DATA packet makes of the picture. */
    method Deliver(from: nat, p: Peer, c: Chunk, num: int, data: Bytes, now: int, little: bool) returns (r: Handled)
      requires Valid() && now >= 0 && p in peers && p.chunk == c && c in download
      modifies this`curDownload, this`numDownloaded, this`download, this`queue, this`repr, this`filed, download`freed
      modifies p`consecTimeouts, p`badTime, p`chunk, p`downloading, p`lastResponse
      modifies c`peer, c`downloaded, c`spoiled, c`packets, c`nodes, c`nextExpected, c`totalData, c`got
      modifies c.nodes`next, c.nodes`recv, c.nodes`data
      ensures Valid() && (r == BadNumber <==> !(1 <= num <= MAX_SEQNUM))
      ensures if r == BadNumber then Same(c) else Took(c, old(StatusOf(c)), Segment(num, data), r)
      ensures r == AllDone ==> download == []
      ensures r != AllDone ==> download == old(download) && forall d :: d in download && d != c ==> Same(d)
      ensures old(repr) <= repr && fresh(repr - old(repr))
      ensures Delivers(old(Now()), from, p, c, num, data, now, r, Now())
    {
      hide Shape, Histories, StatusOf, PeerNow, ChunkNow, Took, PeersNow, ChunksNow, Seen, LastWanted, AllElseDone;
      hide Outcome, Filing, Add, AddAll, Chunk.ListOk, Chunk.History, Chunk.View, FirstWithAddr, Sound;
      ghost var a := Now();
      HasList(p, c);
      PeersSeen();
      ChunksSeen();
      OneSeen(c);
      LastSeen(c);
      r := TakeData(from, p, c, num, data, now, little);
      if r == BadNumber {
        Refused(a, p, c, now);
      } else {
        Delivered(a, old(StatusOf(c)), from, p, c, Segment(num, data), now, r);
      }
    }

    lemma Sender(from: nat)
      ensures Now().order == peers
      ensures var p := FirstWithAddr(peers, from);
              if p == null then p !in Now().peers else p in Now().peers && Now().peers[p].chunk == p.chunk
    {
      hide FirstWithAddr;
    }

    /** A DATA packet: filed with the chunk that its peer delivers, acknowledged up to the first gap. */
    method ProcessData(from: nat, num: int, data: Bytes, now: int, little: bool) returns (r: Handled, ghost c: Chunk?)
      requires Valid() && now >= 0
      modifies this`curDownload, this`numDownloaded, this`download, this`queue, this`repr, this`filed, download`freed
      modifies peers`consecTimeouts, peers`badTime, peers`chunk, peers`downloading, peers`lastResponse
      modifies download`peer, download`downloaded, download`spoiled, download`packets, download`nodes,
               download`nextExpected, download`totalData, download`got, repr`next, repr`recv, repr`data
      ensures Valid() && Sound(old(Now())) && Receives(old(Now()), from, num, data, now, r, Now())
      ensures c == (var p := FirstWithAddr(peers, from); if p == null then null else old(p.chunk))
      ensures c != null ==> c in old(download) && old(c.peer) == FirstWithAddr(peers, from)
      ensures c != null ==> if 1 <= num <= MAX_SEQNUM then Took(c, old(StatusOf(c)), Segment(num, data), r) else Same(c)
      ensures r == AllDone ==> download == []
      ensures r != AllDone ==> download == old(download) && forall d :: d in download && d != c ==> Same(d)
      ensures old(repr) <= repr && fresh(repr - old(repr))
    {
      hide Shape, Lists, Histories, FirstWithAddr, StatusOf, Took, Now, Sound, Delivers, Chunk.ListOk, Chunk.History;
      NowSound();
      Sender(from);
      var p := PeerWithAddr(from);
      c := if p == null then null else p.chunk;
      if p == null || p.chunk == null { return Ignored, c; }
      HasList(p, p.chunk);
      assert forall n :: n in c.nodes ==> n in repr by { ListsOf(); Apart(c); }
      r := Deliver(from, p, p.chunk, num, data, now, little);
    }

    // ---------- asking for chunks ----------

    method Hashes() returns (hashes: seq<Bytes>)
      ensures hashes == HashesOf(download)
    {
      hashes := [];
      for i := 0 to |download|
        invariant HashesOf(download) == hashes + HashesOf(download[i..])
      {
        hashes := hashes + [download[i].hash];
      }
    }

    method FloodPeers(hashes: seq<Bytes>)
      modifies this`queue
      ensures queue == old(queue) + Flood(peers, id, numChunks, hashes)
    {
      hide WhohasTo, Flood;
      NoFlood(id, numChunks, hashes);
      for i := 0 to |peers|
        invariant queue + Flood(peers[i..], id, numChunks, hashes) == old(queue) + Flood(peers, id, numChunks, hashes)
      {
        FloodStep(peers, i, id, numChunks, hashes);
        if peers[i].id != id {
          queue := queue + [WhohasTo(peers[i].addr, numChunks, hashes)];
        }
      }
      assert peers[|peers|..] == [] && peers[0..] == peers;
      assert queue + [] == queue;
    }

    lemma NumberOfChunks()
      requires Shape() && download != []
      ensures numChunks == |download|
    {
    }

    /** Asks every other peer who has what, at most once in fifteen seconds. */
    method SendWhohas(now: int)
      requires Valid()
      modifies this`lastWhohas, this`queue
      ensures Valid() && Now() == Flooded(old(Now()), now)
    {
      hide Shape, Histories, PeersNow, ChunksNow, Flood, HashesOf;
      if download == [] { return; }
      if now - lastWhohas < WHOHAS_MILLIS { return; }
      NumberOfChunks();
      lastWhohas := now;
      var hashes := Hashes();
      FloodPeers(hashes);
    }

    /** Those noted for a chunk, here and in the picture. */
    lemma Candidates(c: Chunk, now: int)
      requires Shape() && c in download
      ensures c in ChunksNow() && ChunksNow()[c] == ChunkNow(c)
      ensures forall i :: 0 <= i < |c.peers| ==>
                var q := c.peers[i];
                && q in peers && FirstWithAddr(peers, q.addr) == q && (q.downloading <==> q.chunk != null)
                && q in PeersNow()
                && (Idle(q, now) <==> Free(PeersNow()[q], now))
                && (IsBad(q, now) <==> Bad(PeersNow()[q].watch.bad, now))
    {
      hide FirstWithAddr, Lists, Distinct, DistinctPeers, Count, Flags;
    }

    /** A chunk that nobody delivers is requested from the first listed peer that is idle and not bad.  When all
        listed peers are bad, everyone is asked who has what. */
    method AskFor(c: Chunk, now: int)
      requires Valid() && c in download && !c.downloaded && c.peer == null && now >= 0 && curDownload < maxConn
      modifies this`maxConn, this`queue, this`lastWhohas, peers`chunk, peers`downloading, peers`lastResponse
      modifies c`peer, c`nextExpected, c`packets, c`nodes, c`freed, c`start, c`got
      ensures Valid() && LeftOrAskedFor(old(StatusOf(c)), StatusOf(c))
      ensures c in old(Now()).chunks && Now() == AskOne(old(Now()), c, now)
    {
      hide Shape, Histories, FirstWithAddr, StatusOf, IsBad, Bad, Chunk.ListOk, PeersNow, AskedFor;
      hide AskOne, Flooded, Requesting;
      ghost var a := Now();
      Candidates(c, now);
      var allBad := true;
      var i := 0;
      while i < |c.peers|
        invariant 0 <= i <= |c.peers| && forall j :: 0 <= j < i ==> c.peers[j] in peers && !Idle(c.peers[j], now)
        invariant allBad <==> forall j :: 0 <= j < i ==> IsBad(c.peers[j], now)
      {
        var q := c.peers[i];
        if !IsBad(q, now) { allBad := false; }
        if !q.downloading && !IsBad(q, now) {
          AskedFirst(a, c, q, i, now);
          var sent := SendGet(q.addr, c, now);
          break;
        }
        i := i + 1;
      }
      if i == |c.peers| { AskedNobody(a, c, now); }
      if allBad { SendWhohas(now); }
    }

    lemma Unasked(c: Chunk, now: int)
      requires c in download && (c.downloaded || c.peer != null)
      ensures c in Now().chunks && AskOne(Now(), c, now) == Now()
    {
    }

    lemma ChunksDiffer()
      requires Shape()
      ensures Distinct(download)
    {
    }

    /** One chunk: asked for if it is wanted and nobody delivers it. */
    method LookFor(c: Chunk, ghost i: nat, now: int)
      requires Valid() && i < |download| && c == download[i] && now >= 0 && curDownload < maxConn
      modifies this`maxConn, this`queue, this`lastWhohas, peers`chunk, peers`downloading, peers`lastResponse
      modifies c`peer, c`nextExpected, c`packets, c`nodes, c`freed, c`start, c`got
      ensures Valid() && LeftOrAskedFor(old(StatusOf(c)), StatusOf(c))
      ensures forall j :: 0 <= j < |download| && j != i ==> Same(download[j])
      ensures c in old(Now()).chunks && Now() == AskOne(old(Now()), c, now)
    {
      hide Shape, Histories, StatusOf, Chunk.ListOk, Now, AskOne, AskedFor;
      ChunksDiffer();
      if !c.downloaded && c.peer == null {
        AskFor(c, now);
      } else {
        Unasked(c, now);
      }
    }

    /** Looks for something to request for every chunk, in the order of the list. */
    method GetAllTheThingz(now: int)
      requires Valid() && now >= 0
      modifies this`maxConn, this`queue, this`lastWhohas, peers`chunk, peers`downloading, peers`lastResponse
      modifies download`peer, download`nextExpected, download`packets, download`nodes, download`freed,
               download`start, download`got
      ensures Valid() && forall c :: c in download ==> LeftOrAskedFor(old(StatusOf(c)), StatusOf(c))
      ensures Sound(old(Now())) && Now() == AfterAsk(old(Now()), now)
    {
      hide Shape, Histories, StatusOf, WatchOf, AskedFor, AskOne, AskAll, Sound, Now;
      ghost var a := Now();
      NowSound();
      NowCounts();
      Listing(a);
      AskAllNone(a, download, now);
      var i := 0;
      while i < |download| && curDownload < maxConn
        invariant 0 <= i <= |download| && Valid() && (i > 0 ==> a.cur < a.max)
        invariant forall j :: i <= j < |download| ==> Same(download[j])
        invariant forall j :: 0 <= j < i ==> LeftOrAskedFor(old(StatusOf(download[j])), StatusOf(download[j]))
        invariant Now() == AskAll(a, download[..i], now)
      {
        LookFor(download[i], i, now);
        AskAllNext(a, download, i, now);
        i := i + 1;
      }
      NowCounts();
      assert download[..|download|] == download;
    }

    // ---------- who has what ----------

    /** Notes the peer for the first wanted chunk with this hash. */
    method NoteHash(hash: Bytes, peer: Peer)
      requires Valid() && peer in peers && FirstWithAddr(peers, peer.addr) == peer
      modifies download`peers
      ensures Valid()
      ensures forall c :: c in download ==>
                c.peers == (if c == FirstWithHash(download, hash) then [peer] else []) + old(c.peers)
    {
      hide Matched, Lists, Distinct, Count, Flags, DistinctPeers, FirstWithAddr, Histories;
      var i := 0;
      while i < |download|
        invariant 0 <= i <= |download| && forall c :: c in download ==> c.peers == old(c.peers)
        invariant FirstWithHash(download, hash) == FirstWithHash(download[i..], hash)
        invariant Valid()
      {
        if download[i].hash == hash {
          download[i].peers := [peer] + download[i].peers;
          return;
        }
        i := i + 1;
      }
    }

    method NoteHashes(peer: Peer, payload: Bytes) returns (complete: bool)
      requires Valid() && |payload| > 0 && peer in peers && FirstWithAddr(peers, peer.addr) == peer
      modifies download`peers
      ensures Valid() && complete == Ihave.Decode(payload).complete
      ensures forall c :: c in download ==>
                c.peers == Noted(download, Ihave.Decode(payload).hashes, peer, c) + old(c.peers)
    {
      hide Shape, Histories, FirstWithAddr, FirstWithHash, Noted, Ihave.HashesUpTo, Ihave.HashAt, Ihave.CountByte;
      var left := |payload| - 4;
      var count := Ihave.CountByte(payload);
      var i := 0;
      NotedNothing(download, payload, peer);
      while i < count
        invariant 0 <= i && (i <= count || i == 0) && i <= Ihave.Room(payload) && left == |payload| - 4 - 20 * i
        invariant Valid()
        invariant forall c :: c in download ==>
                    c.peers == Noted(download, Ihave.HashesUpTo(payload, i), peer, c) + old(c.peers)
      {
        RoomLeft(payload, i);
        if left < 20 { return false; }
        var hash := payload[4 + 20 * i..24 + 20 * i];
        NoteHash(hash, peer);
        NotedMore(download, payload, i, peer);
        i := i + 1;
        left := left - 20;
      }
      complete := true;
    }

    lemma NotedNow(a: Picture, peer: Peer, payload: Bytes)
      requires a.list == download && a.chunks.Keys == (set c | c in download) && |payload| > 0 && peer in a.peers
      requires forall c :: c in download ==>
                 ChunkNow(c) == a.chunks[c].(listed := Noted(download, Ihave.Decode(payload).hashes, peer, c)
                                                       + a.chunks[c].listed)
      ensures ChunksNow() == AfterIhave(a, peer, payload).chunks
    {
      hide Noted, Ihave.Decode, ChunkNow;
    }

    method NoteAll(peer: Peer, payload: Bytes) returns (complete: bool)
      requires Valid() && |payload| > 0 && peer in peers && FirstWithAddr(peers, peer.addr) == peer
      modifies download`peers
      ensures Valid() && complete == Ihave.Decode(payload).complete
      ensures peer in old(Now()).peers
      ensures ChunksNow() == AfterIhave(old(Now()), peer, payload).chunks
    {
      hide Shape, Histories, FirstWithAddr, Noted, Ihave.Decode;
      ghost var a := Now();
      complete := NoteHashes(peer, payload);
      NotedNow(a, peer, payload);
    }

    method Forgive(p: Peer)
      requires Valid() && p in peers
      modifies p`consecTimeouts, p`badTime
      ensures Valid() && Now() == Cleared(old(Now()), p)
    {
      hide Lists, Listed, Distinct, Count, Flags, DistinctPeers, Histories, PeersNow, ChunksNow;
      PeersSeen();
      ghost var ps := PeersNow();
      p.consecTimeouts, p.badTime := 0, 0;
      PeersAre(ps, p, PeerNow(p));
    }

    /** An IHAVE packet: its sender is good again and is noted once per hash for the chunk that the hash names;
        a short packet still counts up to where it ends. */
    method ProcessIhave(from: nat, payload: Bytes) returns (r: Noting)
      requires Valid()
      modifies download`peers, peers`consecTimeouts, peers`badTime
      ensures Valid() && Sound(old(Now()))
      ensures r == NotAsked <==> download == []
      ensures r == NoPeer <==> download != [] && FirstWithAddr(peers, from) == null
      ensures r == NoCount <==> download != [] && FirstWithAddr(peers, from) != null && payload == []
      ensures r in {TooShort, Complete} ==> (r == Complete <==> Ihave.Decode(payload).complete)
      ensures Now() == (var a, p := old(Now()), FirstWithAddr(peers, from);
                        if r == NotAsked || r == NoPeer then a
                        else if r == NoCount then Cleared(a, p)
                        else AfterIhave(a, p, payload))
    {
      hide Shape, Histories, FirstWithAddr, Noted, Ihave.Decode, Sound, PeersNow, ChunksNow;
      ghost var a := Now();
      NowSound();
      if download == [] { return NotAsked; }
      var peer := PeerWithAddr(from);
      if peer == null { return NoPeer; }
      AddressIsStable(peers, from);
      Forgive(peer);
      if payload == [] { return NoCount; }
      var complete := NoteAll(peer, payload);
      r := if complete then Complete else TooShort;
    }

    // ---------- a request by the user ----------

    ghost predicate Counted()
      reads this`download, this`numChunks, this`numDownloaded, download`downloaded
    {
      numChunks == |download| && numDownloaded == Count(Flags(download))
    }

    /** Whatever was under way is forgotten on the peers' side. */
    method ResetPeers()
      modifies peers`consecTimeouts, peers`badTime, peers`chunk, peers`downloading, peers`lastResponse
      ensures forall p :: p in peers ==>
                p.chunk == null && !p.downloading && p.lastResponse == -1 && p.consecTimeouts == 0 && p.badTime == 0
      ensures old(Valid()) && download == [] ==> Valid()
    {
      hide Listed, Distinct, Count, Flags, DistinctPeers, Lists, Histories;
      for i := 0 to |peers|
        invariant forall j :: 0 <= j < i ==>
                    peers[j].chunk == null && !peers[j].downloading && peers[j].lastResponse == -1
                    && peers[j].consecTimeouts == 0 && peers[j].badTime == 0
      {
        var p := peers[i];
        p.consecTimeouts, p.badTime := 0, 0;
        p.chunk := null;
        p.downloading := false;
        p.lastResponse := -1;
      }
    }

    method ResetCounts()
      requires Valid() && download == []
      modifies this`numChunks, this`curDownload, this`numDownloaded
      ensures Valid() && Counted() && curDownload == 0
    {
      hide Matched, Lists, Listed, Distinct, DistinctPeers, Histories;
      numChunks, curDownload, numDownloaded := 0, 0, 0;
    }

    method PushChunk(c: Chunk)
      requires Matched() && Lists() && Listed() && Distinct(download) && Histories() && c !in download
      requires c.peer == null && c.peers == [] && c.ListOk() && c.nodes == [] && !c.freed && c.CountKnown()
      modifies this`download
      ensures Matched() && Lists() && Listed() && Distinct(download) && Histories() && download == old(download) + [c]
    {
      hide Chunk.ListOk, Chunk.CountKnown, Chunk.Recorded;
      download := download + [c];
    }

    /** A chunk without peer or packets joins the list. */
    method AppendChunk(c: Chunk)
      requires Valid() && Counted() && c !in download
      requires c.peer == null && c.peers == [] && c.ListOk() && c.nodes == [] && !c.freed && c.CountKnown()
      modifies this`download, this`numChunks, this`numDownloaded
      ensures Valid() && Counted() && download == old(download) + [c]
    {
      hide Matched, Lists, Listed, Distinct, Count, Flags, DistinctPeers, Histories, Chunk.ListOk, Chunk.CountKnown;
      ghost var fs := Flags(download);
      FlagsAppend(download, c);
      CountAppend(fs, c.downloaded);
      if c.downloaded { numDownloaded := numDownloaded + 1; }
      PushChunk(c);
      numChunks := numChunks + 1;
    }

    /** Adds a wanted chunk at the end of the list; one that is already owned counts as downloaded. */
    method AddReceiverList(hash: Bytes, cid: int, has: bool)
      requires Valid() && Counted()
      modifies this`download, this`numChunks, this`numDownloaded
      ensures Valid() && Counted() && |download| == |old(download)| + 1 && old(download) <= download
      ensures var c := download[|download| - 1];
              fresh(c) && c.hash == hash && c.id == cid && c.downloaded == has && c.peer == null && c.peers == []
              && !c.spoiled && c.View() == Assembly([], 1, if has then CHUNK_SIZE else 0)
    {
      hide Shape, Histories, Counted, Chunk.ListOk;
      var c := new Chunk(cid, hash);
      if has {
        c.totalData := CHUNK_SIZE;
        c.downloaded := true;
      }
      AppendChunk(c);
    }

    /** The list of chunks is the chunk file, line by line, and nothing is being delivered yet. */
    ghost predicate Shows(wants: seq<Want>)
      reads this`download, download`downloaded, download`peer, download`peers, download`spoiled
    {
      |download| == |wants|
      && forall i :: 0 <= i < |wants| ==>
           download[i].hash == wants[i].hash && download[i].id == wants[i].id && download[i].downloaded == wants[i].has
           && download[i].peer == null && download[i].peers == [] && !download[i].spoiled
    }

    method AddWants(wants: seq<Want>)
      requires Valid() && Counted() && download == []
      modifies this`download, this`numChunks, this`numDownloaded
      ensures Valid() && Counted() && Shows(wants) && forall j :: 0 <= j < |download| ==> fresh(download[j])
    {
      hide Shape, Histories, Counted, Chunk.View;
      for i := 0 to |wants|
        invariant Valid() && Counted() && Shows(wants[..i])
        invariant forall j :: 0 <= j < |download| ==> fresh(download[j])
      {
        AddReceiverList(wants[i].hash, wants[i].id, wants[i].has);
      }
      assert wants[..|wants|] == wants;
    }

    lemma DoneMeans(wants: seq<Want>)
      requires Counted() && Shows(wants)
      ensures numDownloaded == numChunks <==> forall w :: w in wants ==> w.has
    {
      hide Count;
      if numDownloaded == numChunks { CountFull(Flags(download)); }
      if forall w :: w in wants ==> w.has { CountAll(Flags(download)); }
    }

    /** Starts a download of all wanted chunks and asks everybody for them, or is done at once when they are all
        owned. */
    method UserGet(wants: seq<Want>, now: int) returns (done: bool)
      requires Valid() && download == []
      modifies this`download, this`numChunks, this`numDownloaded, this`curDownload, this`lastWhohas, this`queue,
               this`filed
      modifies peers`consecTimeouts, peers`badTime, peers`chunk, peers`downloading, peers`lastResponse
      ensures Valid() && curDownload == 0 && filed == []
      ensures forall p :: p in peers ==> p.chunk == null && p.consecTimeouts == 0 && p.badTime == 0
      ensures done <==> forall w :: w in wants ==> w.has
      ensures done ==> download == []
      ensures !done ==> Counted() && Shows(wants) && forall j :: 0 <= j < |download| ==> fresh(download[j])
      ensures !done ==> Now() == Flooded(Now().(whohas := old(lastWhohas), queue := old(queue)), now)
    {
      hide Shape, Histories, Counted, Flood, HashesOf, Shows, PeersNow, ChunksNow;
      filed := [];
      ResetPeers();
      ResetCounts();
      AddWants(wants);
      SendWhohas(now);
      done := numDownloaded == numChunks;
      DoneMeans(wants);
      if done && download != [] {
        DelReceiverList();
      }
    }
  }
}
