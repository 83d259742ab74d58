/** The download side at one moment, as a value, and what each step of the main loop makes of it. */
module Pictures {
  import opened Chunks
  import opened Deliveries
  import opened Octets
  import opened Reassembly

  import Ihave

  datatype PeerState = PeerState(watch: Watch, chunk: Chunk?)

  datatype ChunkState = ChunkState(peer: Peer?, downloaded: bool, spoiled: bool, total: nat, start: nat,
                                   got: seq<Segment>, listed: seq<Peer>)

  /** Everything but the packet lists, which the histories of the transfers determine. */
  datatype Picture = Picture(self: int, order: seq<Peer>, list: seq<Chunk>,
                             peers: map<Peer, PeerState>, chunks: map<Chunk, ChunkState>,
                             cur: int, max: int, whohas: int, queue: seq<Message>, filed: seq<Entry>)

  /** Bad since then, and still so. */
  predicate Bad(since: int, now: int) {
    since != 0 && now - since < BAD_RESET_MILLIS
  }

  lemma BadForThirtySeconds(since: int, now: int)
    ensures Bad(since, now) <==> since != 0 && now < since + 30000
  {
  }

  predicate Free(s: PeerState, now: int) {
    s.chunk == null && !Bad(s.watch.bad, now)
  }

  /** Peers and chunks point at each other or not at all; a response is awaited exactly from a peer with a chunk. */
  ghost predicate Matching(peers: map<Peer, PeerState>, chunks: map<Chunk, ChunkState>) {
    && (forall p :: p in peers ==> (peers[p].watch.last != -1 <==> peers[p].chunk != null))
    && (forall p :: p in peers && peers[p].chunk != null ==>
          peers[p].chunk in chunks && chunks[peers[p].chunk].peer == p)
    && (forall c :: c in chunks && chunks[c].peer != null ==>
          chunks[c].peer in peers && peers[chunks[c].peer].chunk == c && !chunks[c].downloaded)
  }

  /** The peers noted for a chunk are found again under their address. */
  ghost predicate Notes(a: Picture) {
    forall c, q :: c in a.chunks && q in a.chunks[c].listed ==> q in a.peers && FirstWithAddr(a.order, q.addr) == q
  }

  ghost predicate Sound(a: Picture) {
    && Distinct(a.list) && a.chunks.Keys == (set c | c in a.list) && a.peers.Keys == (set p | p in a.order)
    && Matching(a.peers, a.chunks) && Notes(a)
  }

  /** A peer and a chunk that had each other or nobody have each other or nobody afterwards. */
  lemma MatchingKept(peers: map<Peer, PeerState>, chunks: map<Chunk, ChunkState>, p: Peer, c: Chunk, ps: PeerState,
                     cs: ChunkState)
    requires Matching(peers, chunks) && p in peers && c in chunks
    requires if peers[p].chunk == null then chunks[c].peer == null else peers[p].chunk == c
    requires if ps.chunk == null then ps.watch.last == -1 && cs.peer == null
             else ps.chunk == c && ps.watch.last != -1 && cs.peer == p && !cs.downloaded
    ensures Matching(peers[p := ps], chunks[c := cs])
  {
  }

  lemma Listing(a: Picture)
    requires Sound(a)
    ensures forall i :: 0 <= i < |a.list| ==> a.list[i] in a.chunks
  {
  }

  // ---------- timeouts ----------

  function CheckedPeer(s: PeerState, now: int): PeerState {
    var w := CheckOnce(s.watch, now);
    PeerState(w, if w.last == -1 then null else s.chunk)
  }

  /** Given up: nobody delivers the chunk, and the next transfer starts from zero. */
  function Dropped(s: ChunkState): ChunkState {
    s.(peer := null, total := 0, downloaded := false, spoiled := false)
  }

  function CheckedChunk(peers: map<Peer, PeerState>, s: ChunkState, now: int): ChunkState {
    if s.peer in peers && CheckedPeer(peers[s.peer], now).chunk == null then Dropped(s) else s
  }

  /** Every peer is checked, and the chunks of those that are released are given up. */
  ghost function AfterCheck(a: Picture, now: int): Picture {
    a.(peers := map p | p in a.peers :: CheckedPeer(a.peers[p], now),
       chunks := map c | c in a.chunks :: CheckedChunk(a.peers, a.chunks[c], now))
  }

  lemma CheckSound(a: Picture, now: int)
    requires Sound(a)
    ensures Sound(AfterCheck(a, now))
  {
    hide FirstWithAddr;
  }

  // ---------- requests ----------

  function FirstFree(peers: map<Peer, PeerState>, listed: seq<Peer>, now: int): (q: Peer?)
    ensures q != null ==> q in listed && q in peers && Free(peers[q], now)
  {
    if listed == [] then null
    else if listed[0] in peers && Free(peers[listed[0]], now) then listed[0]
    else FirstFree(peers, listed[1..], now)
  }

  lemma {:induction false} FirstFreeAt(peers: map<Peer, PeerState>, listed: seq<Peer>, now: int, k: nat)
    requires k <= |listed| && forall i :: 0 <= i < k ==> !(listed[i] in peers && Free(peers[listed[i]], now))
    requires k < |listed| ==> listed[k] in peers && Free(peers[listed[k]], now)
    ensures FirstFree(peers, listed, now) == if k < |listed| then listed[k] else null
  {
    if k > 0 { FirstFreeAt(peers, listed[1..], now, k - 1); }
  }

  ghost predicate AllBad(peers: map<Peer, PeerState>, listed: seq<Peer>, now: int) {
    forall q :: q in listed && q in peers ==> Bad(peers[q].watch.bad, now)
  }

  /** Everybody is asked who has what, at most once in fifteen seconds. */
  function Flooded(a: Picture, now: int): Picture {
    if a.list == [] || now - a.whohas < WHOHAS_MILLIS then a
    else a.(whohas := now, queue := a.queue + Flood(a.order, a.self, |a.list|, HashesOf(a.list)))
  }

  /** Chunk and peer have each other; the list starts afresh, the byte count does not. */
  function Asking(a: Picture, c: Chunk, q: Peer, now: int): Picture
    requires c in a.chunks && q in a.peers
  {
    a.(peers := a.peers[q := PeerState(a.peers[q].watch.(last := now), c)],
       chunks := a.chunks[c := a.chunks[c].(peer := q, start := a.chunks[c].total, got := [])])
  }

  /** The chunk is requested from peer q. */
  function Requesting(a: Picture, c: Chunk, q: Peer, now: int): Picture
    requires c in a.chunks && q in a.peers
  {
    Asking(a, c, q, now).(max := a.max + 1, queue := a.queue + [Get(q.addr, c.hash)])
  }

  /** A wanted chunk that nobody delivers goes to the first free peer noted for it; when all of them are bad,
      everybody is asked. */
  ghost function AskOne(a: Picture, c: Chunk, now: int): (b: Picture)
    requires c in a.chunks
    ensures b.self == a.self && b.order == a.order && b.list == a.list && b.filed == a.filed && b.cur == a.cur
    ensures b.chunks.Keys == a.chunks.Keys && b.max >= a.max && a.queue <= b.queue
  {
    var s := a.chunks[c];
    if s.downloaded || s.peer != null then a
    else
      var q := FirstFree(a.peers, s.listed, now);
      if q != null then Requesting(a, c, q, now)
      else if AllBad(a.peers, s.listed, now) then Flooded(a, now)
      else a
  }

  lemma AskedFirst(a: Picture, c: Chunk, q: Peer, k: nat, now: int)
    requires c in a.chunks && a.chunks[c].peer == null && !a.chunks[c].downloaded && k < |a.chunks[c].listed|
    requires q == a.chunks[c].listed[k] && q in a.peers && Free(a.peers[q], now)
    requires forall i :: 0 <= i < k ==>
               !(a.chunks[c].listed[i] in a.peers && Free(a.peers[a.chunks[c].listed[i]], now))
    ensures AskOne(a, c, now) == Requesting(a, c, q, now)
  {
    FirstFreeAt(a.peers, a.chunks[c].listed, now, k);
  }

  lemma AskedNobody(a: Picture, c: Chunk, now: int)
    requires c in a.chunks && a.chunks[c].peer == null && !a.chunks[c].downloaded
    requires forall q :: q in a.chunks[c].listed ==> !(q in a.peers && Free(a.peers[q], now))
    ensures AskOne(a, c, now) == if AllBad(a.peers, a.chunks[c].listed, now) then Flooded(a, now) else a
  {
    FirstFreeAt(a.peers, a.chunks[c].listed, now, |a.chunks[c].listed|);
  }

  lemma AskSound(a: Picture, c: Chunk, now: int)
    requires Sound(a) && c in a.chunks && now >= 0
    ensures Sound(AskOne(a, c, now))
  {
    hide FirstWithAddr, Flood, HashesOf, AllBad, Matching;
    var b := AskOne(a, c, now);
    var q := FirstFree(a.peers, a.chunks[c].listed, now);
    if b.chunks != a.chunks { MatchingKept(a.peers, a.chunks, q, c, b.peers[q], b.chunks[c]); }
  }

  ghost function AskAll(a: Picture, cs: seq<Chunk>, now: int): (b: Picture)
    requires forall i :: 0 <= i < |cs| ==> cs[i] in a.chunks
    ensures b.self == a.self && b.order == a.order && b.list == a.list && b.filed == a.filed && b.cur == a.cur
    ensures b.chunks.Keys == a.chunks.Keys && b.max >= a.max && a.queue <= b.queue
  {
    if cs == [] then a else AskOne(AskAll(a, cs[..|cs| - 1], now), cs[|cs| - 1], now)
  }

  lemma AskAllNone(a: Picture, cs: seq<Chunk>, now: int)
    ensures AskAll(a, cs[..0], now) == a
  {
  }

  lemma AskAllNext(a: Picture, cs: seq<Chunk>, i: nat, now: int)
    requires i < |cs| && forall j :: 0 <= j < |cs| ==> cs[j] in a.chunks
    ensures AskAll(a, cs[..i + 1], now) == AskOne(AskAll(a, cs[..i], now), cs[i], now)
  {
    assert cs[..i + 1][..i] == cs[..i];
  }

  lemma {:induction false} AskAllSound(a: Picture, cs: seq<Chunk>, now: int)
    requires Sound(a) && now >= 0 && forall i :: 0 <= i < |cs| ==> cs[i] in a.chunks
    ensures Sound(AskAll(a, cs, now))
  {
    hide Sound, AskOne;
    if cs != [] {
      AskAllSound(a, cs[..|cs| - 1], now);
      AskSound(AskAll(a, cs[..|cs| - 1], now), cs[|cs| - 1], now);
    }
  }

  /** Requests for everything that is wanted, in the order of the list. */
  ghost function AfterAsk(a: Picture, now: int): (b: Picture)
    requires Sound(a)
    ensures b.self == a.self && b.order == a.order && b.list == a.list && b.filed == a.filed && b.cur == a.cur
    ensures b.chunks.Keys == a.chunks.Keys && b.max >= a.max && a.queue <= b.queue
  {
    if a.cur < a.max then AskAll(a, a.list, now) else a
  }

  // ---------- packets ----------

  ghost predicate AllElseDone(a: Picture, c: Chunk) {
    forall d :: d in a.chunks && d != c ==> a.chunks[d].downloaded
  }

  /** A chunk after one more packet of its transfer, with outcome r. */
  function FiledInto(s: ChunkState, seg: Segment, r: Handled): ChunkState
    requires seg.num >= 1 && Numbered(s.got)
  {
    var got := s.got + [seg];
    var t := s.(got := got, total := AddAll(Assembly([], 1, s.start), got).total);
    if r == Filed then t
    else t.(peer := null, downloaded := r == ChunkDone || r == AllDone, spoiled := r == Undefined || r == Mismatch)
  }

  /** A packet from peer p is filed with the chunk c that p delivers, and acknowledged up to the first gap. */
  ghost function Filing(a: Picture, from: nat, p: Peer, c: Chunk, seg: Segment, now: int, r: Handled): Picture
    requires c in a.chunks && p in a.peers && seg.num >= 1 && Numbered(a.chunks[c].got)
  {
    var s := a.chunks[c];
    var got := s.got + [seg];
    a.(peers := a.peers[p := if r == Filed then PeerState(Watch(now, 0, 0), c) else PeerState(Watch(-1, 0, 0), null)],
       list := if r == AllDone then [] else a.list,
       chunks := if r == AllDone then map[] else a.chunks[c := FiledInto(s, seg, r)],
       cur := if r == Filed then a.cur else a.cur - 1,
       queue := a.queue + [AckOf(from, AddAll(Assembly([], 1, s.start), got).next - 1)],
       filed := a.filed + [Entry(c, from, s.start, got, r)])
  }

  /** A DATA packet from a peer that delivers c turns a into b, with outcome r: out of range it only shows that the
      peer is alive, otherwise it is filed and the history of the transfer decides. */
  ghost predicate Delivers(a: Picture, from: nat, p: Peer, c: Chunk, num: int, data: Bytes, now: int, r: Handled,
                           b: Picture)
    requires c in a.chunks && p in a.peers
  {
    if !(1 <= num <= MAX_SEQNUM) then
      r == BadNumber && b == a.(peers := a.peers[p := PeerState(Watch(now, 0, 0), c)])
    else
      && Numbered(a.chunks[c].got)
      && Outcome(c.hash, a.chunks[c].start, a.chunks[c].got + [Segment(num, data)], r)
      && (r == AllDone ==> AllElseDone(a, c)) && (r == ChunkDone ==> !AllElseDone(a, c))
      && b == Filing(a, from, p, c, Segment(num, data), now, r)
  }

  /** The same for any address: without a transfer from there the packet is ignored. */
  ghost predicate Receives(a: Picture, from: nat, num: int, data: Bytes, now: int, r: Handled, b: Picture)
    requires Sound(a)
  {
    var p := FirstWithAddr(a.order, from);
    if p !in a.peers || a.peers[p].chunk == null then r == Ignored && b == a
    else Delivers(a, from, p, a.peers[p].chunk, num, data, now, r, b)
  }

  /** All that the filing of a packet changes. */
  lemma FilingIs(a: Picture, from: nat, p: Peer, c: Chunk, seg: Segment, now: int, r: Handled, b: Picture)
    requires c in a.chunks && p in a.peers && seg.num >= 1 && Numbered(a.chunks[c].got)
    requires b.self == a.self && b.order == a.order && b.max == a.max && b.whohas == a.whohas
    requires b.peers == a.peers[p := if r == Filed then PeerState(Watch(now, 0, 0), c)
                                     else PeerState(Watch(-1, 0, 0), null)]
    requires if r == AllDone then b.list == [] && b.chunks == map[]
             else b.list == a.list && b.chunks == a.chunks[c := FiledInto(a.chunks[c], seg, r)]
    requires b.cur == if r == Filed then a.cur else a.cur - 1
    requires var got := a.chunks[c].got + [seg];
             && b.queue == a.queue + [AckOf(from, AddAll(Assembly([], 1, a.chunks[c].start), got).next - 1)]
             && b.filed == a.filed + [Entry(c, from, a.chunks[c].start, got, r)]
    ensures b == Filing(a, from, p, c, seg, now, r)
  {
    hide FiledInto, AddAll;
  }

  lemma DeliveredBy(a: Picture, p: Peer, c: Chunk)
    requires Sound(a) && p in a.peers && a.peers[p].chunk == c && c in a.chunks
    ensures a.chunks[c].peer == p && !a.chunks[c].downloaded && a.peers[p].watch.last != -1
  {
    hide FirstWithAddr;
  }

  /** With everything else downloaded only p has had a chunk. */
  lemma NobodyLeft(a: Picture, b: Picture, p: Peer)
    requires Matching(a.peers, a.chunks) && p in a.peers && a.peers[p].chunk != null
    requires AllElseDone(a, a.peers[p].chunk)
    requires b.chunks == map[] && p in b.peers && b.peers == a.peers[p := b.peers[p]]
    requires b.peers[p].chunk == null && b.peers[p].watch.last == -1
    ensures Matching(b.peers, b.chunks)
  {
    assert forall q :: q in a.peers && q != p ==> a.peers[q].chunk == null;
  }

  lemma FilingSound(a: Picture, from: nat, p: Peer, c: Chunk, seg: Segment, now: int, r: Handled)
    requires Sound(a) && p in a.peers && a.peers[p].chunk == c && c in a.chunks && now >= 0
    requires seg.num >= 1 && Numbered(a.chunks[c].got) && (r == AllDone ==> AllElseDone(a, c))
    ensures Sound(Filing(a, from, p, c, seg, now, r))
  {
    hide FirstWithAddr, AddAll, Matching;
    var b := Filing(a, from, p, c, seg, now, r);
    DeliveredBy(a, p, c);
    MatchingKept(a.peers, a.chunks, p, c, b.peers[p], FiledInto(a.chunks[c], seg, r));
    if r == AllDone { NobodyLeft(a, b, p); }
  }

  lemma ReceivesSound(a: Picture, from: nat, num: int, data: Bytes, now: int, r: Handled, b: Picture)
    requires Sound(a) && Receives(a, from, num, data, now, r, b) && now >= 0
    ensures Sound(b)
  {
    hide FirstWithAddr, AddAll, Outcome, Filing, AllElseDone;
    var p := FirstWithAddr(a.order, from);
    if p in a.peers && a.peers[p].chunk != null && 1 <= num <= MAX_SEQNUM {
      FilingSound(a, from, p, a.peers[p].chunk, Segment(num, data), now, r);
    }
  }

  /** The peer is neither late nor bad any more. */
  function Cleared(a: Picture, p: Peer): Picture
    requires p in a.peers
  {
    a.(peers := a.peers[p := a.peers[p].(watch := Watch(a.peers[p].watch.last, 0, 0))])
  }

  /** An IHAVE packet from peer p: once per hash p is noted for the chunk that the hash names. */
  ghost function AfterIhave(a: Picture, p: Peer, payload: Bytes): Picture
    requires p in a.peers && |payload| > 0
  {
    Cleared(a, p).(chunks := map c | c in a.chunks ::
                     a.chunks[c].(listed := Noted(a.list, Ihave.Decode(payload).hashes, p, c) + a.chunks[c].listed))
  }

  lemma MatchingSame(ps: map<Peer, PeerState>, cs: map<Chunk, ChunkState>,
                     ps': map<Peer, PeerState>, cs': map<Chunk, ChunkState>)
    requires Matching(ps, cs) && ps'.Keys == ps.Keys && cs'.Keys == cs.Keys
    requires forall p :: p in ps ==> ps'[p].chunk == ps[p].chunk && ps'[p].watch.last == ps[p].watch.last
    requires forall c :: c in cs ==> cs'[c].peer == cs[c].peer && cs'[c].downloaded == cs[c].downloaded
    ensures Matching(ps', cs')
  {
  }

  lemma IhaveSound(a: Picture, p: Peer, payload: Bytes)
    requires Sound(a) && p in a.peers && |payload| > 0 && FirstWithAddr(a.order, p.addr) == p
    ensures Sound(AfterIhave(a, p, payload))
  {
    hide FirstWithAddr, Noted, Ihave.Decode, Matching;
    var b := AfterIhave(a, p, payload);
    MatchingSame(a.peers, a.chunks, b.peers, b.chunks);
    forall c | c in a.chunks ensures forall q :: q in Noted(a.list, Ihave.Decode(payload).hashes, p, c) ==> q == p {
      NotedOncePerHash(a.list, Ihave.Decode(payload).hashes, p, c);
    }
  }
}
