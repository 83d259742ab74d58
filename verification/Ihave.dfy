/** IHAVE packets: a list of hashes cut into pages, and read back with the receiver's length checks. */
module Ihave {
  import opened Octets

  const HASH_LEN: nat := 20
  const HEADER: nat := 16
  const MAX_PACKET_SIZE: nat := 1500
  const MAX_CHUNKS: int := (MAX_PACKET_SIZE - HEADER) / HASH_LEN

  predicate Hashes(hs: seq<Bytes>) {
    forall i :: 0 <= i < |hs| ==> |hs[i]| == HASH_LEN
  }

  /** An int stored into a signed 8-bit variable. */
  function ToChar(n: int): (c: int)
    ensures -128 <= c <= 127 && (c - n) % 256 == 0
  {
    (n + 128) % 256 - 128
  }

  lemma SmallChar(n: nat)
    requires n <= 127
    ensures ToChar(n) == n
  {
  }

  lemma CharOfByte(c: nat)
    requires c < 256
    ensures ToChar(c) == if c < 128 then c else c - 256
  {
  }

  function Flat(hs: seq<Bytes>): Bytes {
    if hs == [] then [] else hs[0] + Flat(hs[1..])
  }

  lemma {:induction false} FlatLength(hs: seq<Bytes>)
    requires Hashes(hs)
    ensures |Flat(hs)| == HASH_LEN * |hs|
  {
    if hs != [] { FlatLength(hs[1..]); }
  }

  // ---------- sending ----------

  /** The byte with this value. */
  function ByteOf(n: nat): (b: bv8)
    requires n < 256
    ensures b as int == n
  {
    if n == 0 then 0 else ByteOf(n - 1) + 1
  }

  /** A page: the count, three zero bytes, the hashes. */
  function Page(hs: seq<Bytes>): Bytes
    requires |hs| <= 127
  {
    [ByteOf(|hs|), 0, 0, 0] + Flat(hs)
  }

  /** The payloads queued, and whether the call returns normally, fails to allocate a page of negative size, or
      repeats an empty page for ever. */
  datatype Sending = Sent(pages: seq<Bytes>) | AllocFailed(pages: seq<Bytes>) | NeverEnds(pages: seq<Bytes>)

  function PageSize(total: nat): (n: int)
    ensures n <= MAX_CHUNKS && n <= total
  {
    var c := ToChar(total);
    if c > MAX_CHUNKS then MAX_CHUNKS else c
  }

  function Before(pages: seq<Bytes>, s: Sending): Sending {
    match s
    case Sent(ps) => Sent(pages + ps)
    case AllocFailed(ps) => AllocFailed(pages + ps)
    case NeverEnds(ps) => NeverEnds(pages + ps)
  }

  function Pages(hs: seq<Bytes>): Sending
    decreases |hs|
  {
    if hs == [] then Sent([]) else
      var n := PageSize(|hs|);
      if n < 0 then AllocFailed([])
      else if n == 0 then NeverEnds([])
      else Before([Page(hs[..n])], Pages(hs[n..]))
  }

  lemma PagesStep(hs: seq<Bytes>)
    ensures hs == [] ==> Pages(hs) == Sent([])
    ensures 0 < |hs| <= 127 ==> PageSize(|hs|) > 0
    ensures var n := PageSize(|hs|);
            && (hs != [] && n < 0 ==> Pages(hs) == AllocFailed([]))
            && (hs != [] && n == 0 ==> Pages(hs) == NeverEnds([]))
            && (hs != [] && n > 0 ==> Pages(hs) == Before([Page(hs[..n])], Pages(hs[n..])))
  {
    hide Page;
  }

  lemma BeforeNothing(s: Sending)
    ensures Before([], s) == s
  {
  }

  lemma BeforeBefore(a: seq<Bytes>, b: seq<Bytes>, s: Sending)
    ensures Before(a, Before(b, s)) == Before(a + b, s)
  {
    assert forall c: seq<Bytes> :: a + (b + c) == (a + b) + c;
  }

  method SendIhave(chunks: seq<Bytes>) returns (r: Sending)
    ensures r == Pages(chunks)
  {
    hide Page, Pages, ToChar;
    var total, next, queued := |chunks|, 0, [];
    assert chunks[0..] == chunks;
    BeforeNothing(Pages(chunks));
    while total > 0
      invariant 0 <= next <= |chunks| && total == |chunks| - next
      invariant Pages(chunks) == Before(queued, Pages(chunks[next..]))
    {
      var numChunks := ToChar(total);
      if numChunks > MAX_CHUNKS { numChunks := MAX_CHUNKS; }
      PagesStep(chunks[next..]);
      if numChunks < 0 { return AllocFailed(queued); }
      // A page without hashes makes no progress: the loop would queue it again and again.
      if numChunks == 0 { return NeverEnds(queued); }
      ghost var rest := chunks[next..];
      assert rest[numChunks..] == chunks[next + numChunks..] && rest[..numChunks] == chunks[next..next + numChunks];
      BeforeBefore(queued, [Page(rest[..numChunks])], Pages(rest[numChunks..]));
      queued := queued + [Page(chunks[next..next + numChunks])];
      next := next + numChunks;
      total := total - numChunks;
    }
    assert chunks[next..] == [];
    PagesStep([]);
    r := Sent(queued);
  }

  // ---------- receiving ----------

  /** The hashes read before the end or before the packet proves too short, and which of the two it was. */
  datatype Decoded = Decoded(hashes: seq<Bytes>, complete: bool)

  /** The count byte read as a signed char. */
  function CountByte(payload: Bytes): int
    requires |payload| > 0
  {
    ToChar(payload[0] as int)
  }

  /** How many whole hashes follow the count. */
  function Room(payload: Bytes): nat {
    if |payload| < 4 then 0 else (|payload| - 4) / HASH_LEN
  }

  function HashAt(payload: Bytes, i: nat): Bytes
    requires i < Room(payload)
  {
    payload[4 + HASH_LEN * i..24 + HASH_LEN * i]
  }

  function HashesUpTo(payload: Bytes, n: nat): (hs: seq<Bytes>)
    requires n <= Room(payload)
    ensures |hs| == n && forall i :: 0 <= i < n ==> hs[i] == HashAt(payload, i)
  {
    if n == 0 then [] else HashesUpTo(payload, n - 1) + [HashAt(payload, n - 1)]
  }

  function Decode(payload: Bytes): Decoded
    requires |payload| > 0
  {
    var n := CountByte(payload);
    if n <= 0 then Decoded([], true)
    else if n <= Room(payload) then Decoded(HashesUpTo(payload, n), true)
    else Decoded(HashesUpTo(payload, Room(payload)), false)
  }

  // ---------- the round trip ----------

  lemma {:induction false} FlatAt(hs: seq<Bytes>, i: nat)
    requires Hashes(hs) && i < |hs|
    ensures |Flat(hs)| == HASH_LEN * |hs| && Flat(hs)[HASH_LEN * i..HASH_LEN * i + HASH_LEN] == hs[i]
  {
    FlatLength(hs);
    FlatLength(hs[1..]);
    if i > 0 {
      FlatAt(hs[1..], i - 1);
      assert Flat(hs)[HASH_LEN * i..HASH_LEN * i + HASH_LEN]
          == Flat(hs[1..])[HASH_LEN * (i - 1)..HASH_LEN * (i - 1) + HASH_LEN];
    }
  }

  lemma CountSurvives(hs: seq<Bytes>)
    requires |hs| <= 127
    ensures CountByte(Page(hs)) == |hs|
  {
    hide Flat, ByteOf, ToChar;
    assert Page(hs)[0] == ByteOf(|hs|);
    SmallChar(|hs|);
  }

  lemma PageDecodes(hs: seq<Bytes>)
    requires Hashes(hs) && |hs| <= 127
    ensures |Page(hs)| == 4 + HASH_LEN * |hs| && Decode(Page(hs)) == Decoded(hs, true)
  {
    var p := Page(hs);
    FlatLength(hs);
    CountSurvives(hs);
    forall i | 0 <= i < |hs| ensures HashAt(p, i) == hs[i] {
      FlatAt(hs, i);
      assert p[4 + HASH_LEN * i..24 + HASH_LEN * i] == Flat(hs)[HASH_LEN * i..HASH_LEN * i + HASH_LEN];
    }
    assert HashesUpTo(p, |hs|) == hs;
  }

  /** A page byte by byte. */
  lemma PageLayout(hs: seq<Bytes>)
    requires Hashes(hs) && |hs| <= 127
    ensures |Page(hs)| == 4 + 20 * |hs| && Page(hs)[0] as int == |hs| && Page(hs)[1..4] == [0, 0, 0]
    ensures forall i :: 0 <= i < |hs| ==> Page(hs)[4 + 20 * i..24 + 20 * i] == hs[i]
  {
    var p := Page(hs);
    FlatLength(hs);
    forall i | 0 <= i < |hs| ensures p[4 + 20 * i..24 + 20 * i] == hs[i] {
      FlatAt(hs, i);
      assert p[4 + 20 * i..24 + 20 * i] == Flat(hs)[20 * i..20 * i + 20];
    }
  }

  /** What is read of any payload: nothing when the count byte is negative as a signed char, otherwise as many
      hashes as it says, and when there is not room for them those that are there. */
  lemma DecodedExactly(payload: Bytes)
    requires |payload| > 0
    ensures var d, c := Decode(payload), payload[0] as int;
            && (d.complete <==> c == 0 || c >= 128 || |payload| >= 4 + 20 * c)
            && (d.complete ==> |d.hashes| == if c >= 128 then 0 else c)
            && (!d.complete ==> 20 * |d.hashes| <= |payload| - 4 < 20 * |d.hashes| + 20 || |payload| < 4)
            && forall i :: 0 <= i < |d.hashes| ==>
                 24 + 20 * i <= |payload| && d.hashes[i] == payload[4 + 20 * i..24 + 20 * i]
  {
    hide ToChar;
    CharOfByte(payload[0] as int);
  }

  /** All hashes of a list of pages, in order. */
  function DecodeAll(pages: seq<Bytes>): seq<Bytes>
    requires forall i :: 0 <= i < |pages| ==> |pages[i]| > 0
  {
    if pages == [] then [] else Decode(pages[0]).hashes + DecodeAll(pages[1..])
  }

  /** Every page fits a packet and is read to its end. */
  predicate GoodPages(pages: seq<Bytes>) {
    forall i :: 0 <= i < |pages| ==>
      0 < |pages[i]| && HEADER + |pages[i]| <= MAX_PACKET_SIZE && Decode(pages[i]).complete
  }

  lemma NoPages()
    ensures GoodPages([]) && DecodeAll([]) == []
  {
  }

  lemma PageInFront(hs: seq<Bytes>, pages: seq<Bytes>)
    requires Hashes(hs) && |hs| <= MAX_CHUNKS && GoodPages(pages)
    requires |Page(hs)| == 4 + HASH_LEN * |hs| && Decode(Page(hs)) == Decoded(hs, true)
    ensures GoodPages([Page(hs)] + pages) && DecodeAll([Page(hs)] + pages) == hs + DecodeAll(pages)
  {
    hide Page, Decode;
    var all := [Page(hs)] + pages;
    assert all[1..] == pages;
    assert forall i :: 0 < i < |all| ==> all[i] == pages[i - 1];
  }

  /** Taking a page off a list that is too long for the counter leaves it too long, down to a multiple of 256. */
  lemma LongStaysLong(total: nat)
    requires total > 127 && PageSize(total) > 0
    ensures total - PageSize(total) > 127
  {
  }

  /** The call returns normally exactly for at most 127 hashes, whatever they are; then no packet exceeds 1500
      bytes and the receiver reads back the same hashes in order. */
  lemma {:induction false} PagingRoundTrip(hs: seq<Bytes>)
    requires Hashes(hs)
    ensures Pages(hs).Sent? <==> |hs| <= 127
    ensures |hs| <= 127 ==> GoodPages(Pages(hs).pages) && DecodeAll(Pages(hs).pages) == hs
    decreases |hs|
  {
    hide Page, Decode, Pages, GoodPages, DecodeAll, PageSize;
    PagesStep(hs);
    if hs == [] {
      NoPages();
    } else if PageSize(|hs|) > 0 {
      var n := PageSize(|hs|);
      PagingRoundTrip(hs[n..]);
      if |hs| <= 127 {
        PageDecodes(hs[..n]);
        PageInFront(hs[..n], Pages(hs[n..]).pages);
      } else {
        LongStaysLong(|hs|);
      }
    }
  }
}
