/** The streaming hasher: a context that is fed pieces of a message, in the simple and in the fast form, and
    its agreement with the one-shot definition. */
module Sha1 {
  import opened Fips180
  import opened Octets

  // ---------- rotation and host byte order ----------

  function RotL1(x: word): word { (x << 1) | (x >> 31) }
  function RotL5(x: word): word { (x << 5) | (x >> 27) }
  function RotL8(x: word): word { (x << 8) | (x >> 24) }
  function RotL30(x: word): word { (x << 30) | (x >> 2) }
  function RotR8(x: word): word { (x >> 8) | (x << 24) }

  /** The shifts of the code rotate. */
  lemma RotationsAgree(x: word)
    ensures RotL1(x) == Rot1(x) == x.RotateLeft(1) && RotL5(x) == Rot5(x) == x.RotateLeft(5)
    ensures RotL30(x) == Rot30(x) == x.RotateLeft(30)
    ensures RotL8(x) == x.RotateLeft(8) && RotR8(x) == x.RotateRight(8)
  {
  }

  function Reversed(x: word): word {
    (RotR8(x) & 0xff00ff00) | (RotL8(x) & 0x00ff00ff)
  }

  /** Swaps on a little-endian host only. */
  function ByteSwap(little: bool, x: word): word {
    if little then Reversed(x) else x
  }

  function WordOf(b0: byte, b1: byte, b2: byte, b3: byte): word {
    ((b0 as word) << 24) | ((b1 as word) << 16) | ((b2 as word) << 8) | (b3 as word)
  }

  lemma WordOfDigits(b0: byte, b1: byte, b2: byte, b3: byte)
    ensures WordOf(b0, b1, b2, b3) == WordAt([b0, b1, b2, b3])
  {
    assert WordOf(b0, b1, b2, b3)
        == 0x1000000 * (b0 as word) + 0x10000 * (b1 as word) + 0x100 * (b2 as word) + b3 as word;
  }

  /** The word that the host reads at four bytes of memory. */
  function Load(little: bool, b: Bytes): word
    requires |b| == 4
  {
    if little then WordOf(b[3], b[2], b[1], b[0]) else WordOf(b[0], b[1], b[2], b[3])
  }

  /** The bytes of a word from the highest on, by shifts. */
  function BytesOf(x: word): (b: Bytes)
    ensures |b| == 4
  {
    [((x >> 24) & 0xff) as byte, ((x >> 16) & 0xff) as byte, ((x >> 8) & 0xff) as byte, (x & 0xff) as byte]
  }

  lemma BytesOfDigits(x: word)
    ensures BytesOf(x) == WordBytes(x)
  {
    assert ((x >> 24) & 0xff) as byte == (x / 0x1000000) as byte;
    assert ((x >> 16) & 0xff) as byte == (x / 0x10000 % 0x100) as byte;
    assert ((x >> 8) & 0xff) as byte == (x / 0x100 % 0x100) as byte;
    assert (x & 0xff) as byte == (x % 0x100) as byte;
  }

  /** The bytes that the host writes for a word. */
  function Store(little: bool, x: word): (b: Bytes)
    ensures |b| == 4
  {
    var b := BytesOf(x);
    if little then [b[3], b[2], b[1], b[0]] else b
  }

  lemma ReversedWord(b0: byte, b1: byte, b2: byte, b3: byte)
    ensures Reversed(WordOf(b3, b2, b1, b0)) == WordOf(b0, b1, b2, b3)
  {
  }

  lemma SwapLoad(little: bool, b: Bytes)
    requires |b| == 4
    ensures ByteSwap(little, Load(little, b)) == WordAt(b)
  {
    hide WordOf, Reversed, WordAt;
    ReversedWord(b[0], b[1], b[2], b[3]);
    WordOfDigits(b[0], b[1], b[2], b[3]);
    assert b == [b[0], b[1], b[2], b[3]];
  }

  lemma StoreSwap(little: bool, x: word)
    ensures Store(little, ByteSwap(little, x)) == WordBytes(x)
  {
    hide WordBytes;
    BytesOfDigits(x);
  }

  /** A 64-bit counter as its two halves. */
  datatype U64 = U64(hi: word, lo: word)

  function ToU64(n: nat): U64
    requires n < TWO64
  {
    U64((n / TWO32) as word, (n % TWO32) as word)
  }

  function ByteSwap64(little: bool, x: U64): U64 {
    if little then U64(ByteSwap(little, x.lo), ByteSwap(little, x.hi)) else x
  }

  function Store64(little: bool, x: U64): (b: Bytes)
    ensures |b| == 8
  {
    if little then Store(little, x.lo) + Store(little, x.hi) else Store(little, x.hi) + Store(little, x.lo)
  }

  lemma StoredLength(little: bool, n: nat)
    requires n < TWO64
    ensures Store64(little, ByteSwap64(little, ToU64(n))) == LengthBytes(n)
  {
    StoreSwap(little, ToU64(n).hi);
    StoreSwap(little, ToU64(n).lo);
  }

  // ---------- the round functions of the code ----------

  function F_0_19(x: word, y: word, z: word): word { z ^ (x & (y ^ z)) }
  function F_20_39(x: word, y: word, z: word): word { x ^ y ^ z }
  function F_40_59(x: word, y: word, z: word): word { (x & (y | z)) | (y & z) }
  function F_60_79(x: word, y: word, z: word): word { x ^ y ^ z }

  function CodeSum(a: word, f: word, e: word, w: word, k: word): word {
    a + f + e + w + k
  }

  function DoRound(s: State, f: word, k: word, w: word): State {
    State(CodeSum(RotL5(s.a), f, s.e, w, k), s.a, RotL30(s.b), s.c, s.d)
  }

  lemma ChooseBits(x: word, y: word, z: word)
    ensures z ^ (x & (y ^ z)) == (x & y) ^ (!x & z)
  {
  }

  lemma MajorityBits(x: word, y: word, z: word)
    ensures ((x & (y | z)) | (y & z)) == (x & y) ^ (x & z) ^ (y & z)
  {
  }

  /** The cheaper forms that the code uses are the functions of section 4.1.1. */
  lemma FunctionsAgree(x: word, y: word, z: word)
    ensures F_0_19(x, y, z) == Ch(x, y, z)
    ensures F_20_39(x, y, z) == F_60_79(x, y, z) == Parity(x, y, z)
    ensures F_40_59(x, y, z) == Maj(x, y, z)
  {
    assert F_0_19(x, y, z) == Ch(x, y, z) by { ChooseBits(x, y, z); }
    assert F_40_59(x, y, z) == Maj(x, y, z) by { MajorityBits(x, y, z); }
    hide Ch, Maj, F_0_19, F_40_59;
  }

  lemma SumAgrees(a: word, f: word, e: word, w: word, k: word)
    ensures CodeSum(a, f, e, w, k) == Sum(a, f, e, k, w)
  {
  }

  lemma RoundRotations(x: word)
    ensures RotL5(x) == Rot5(x) && RotL30(x) == Rot30(x)
  {
    RotationsAgree(x);
  }

  /** The code adds the schedule word before the constant. */
  lemma RoundAgrees(s: State, t: nat, f: word, w: word)
    requires f == F(t, s.b, s.c, s.d)
    ensures DoRound(s, f, K(t), w) == Round(s, t, w)
  {
    hide F, K, RotL5, RotL30, Rot5, Rot30, Sum, CodeSum;
    RoundRotations(s.a);
    RoundRotations(s.b);
    SumAgrees(RotL5(s.a), f, s.e, w, K(t));
  }

  // ---------- what a context stands for ----------

  /** The hash value so far, the bytes waiting for a full block, and the bit count modulo 2^64. */
  datatype View = View(h: State, tail: Bytes, total: nat)

  const FRESH := View(H0, [], 0)

  ghost predicate Reasonable(v: View) {
    |v.tail| < 64
  }

  /** The bytes up to the last block boundary, and the rest. */
  ghost function Cut(n: nat): (c: nat)
    ensures c <= n && c % 64 == 0 && n - c < 64
  {
    n - n % 64
  }

  /** Taking in more bytes: full blocks are absorbed, the rest waits. */
  ghost function Feed(v: View, data: Bytes): (r: View)
    requires Reasonable(v)
    ensures Reasonable(r)
  {
    var all := v.tail + data;
    var cut := Cut(|all|);
    View(Absorb(v.h, all[..cut]), all[cut..], (v.total + 8 * |data|) % TWO64)
  }

  ghost function FeedAll(v: View, pieces: seq<Bytes>): (r: View)
    requires Reasonable(v)
    ensures Reasonable(r)
    decreases |pieces|
  {
    if pieces == [] then v else Feed(FeedAll(v, pieces[..|pieces| - 1]), pieces[|pieces| - 1])
  }

  lemma {:induction false} AbsorbAppend(h: State, a: Bytes, b: Bytes)
    requires |a| % 64 == 0 && |b| % 64 == 0
    ensures Absorb(h, a + b) == Absorb(Absorb(h, a), b)
    decreases |a|
  {
    hide Compress;
    if a == [] {
      assert a + b == b;
    } else {
      assert (a + b)[..64] == a[..64] && (a + b)[64..] == a[64..] + b;
      AbsorbAppend(Compress(h, a[..64]), a[64..], b);
    }
  }

  lemma OnlyCut(n: nat, c: nat)
    requires c % 64 == 0 && c <= n && n - c < 64
    ensures Cut(n) == c
  {
    hide Cut;
    var a, b := c / 64, Cut(n) / 64;
    assert c == 64 * a && Cut(n) == 64 * b;
  }

  lemma CutAdds(n: nat, m: nat)
    ensures Cut(n + m) == Cut(n) + Cut(n - Cut(n) + m)
  {
    hide Cut;
    OnlyCut(n + m, Cut(n) + Cut(n - Cut(n) + m));
  }

  lemma CutTwice(all: Bytes, b: Bytes)
    ensures var rest := all[Cut(|all|)..] + b;
            && Cut(|all + b|) == Cut(|all|) + Cut(|rest|)
            && (all + b)[..Cut(|all + b|)] == all[..Cut(|all|)] + rest[..Cut(|rest|)]
            && (all + b)[Cut(|all + b|)..] == rest[Cut(|rest|)..]
  {
    CutAdds(|all|, |b|);
    hide Cut;
    assert all + b == all[..Cut(|all|)] + (all[Cut(|all|)..] + b);
  }

  lemma ModShift(x: nat, q: nat)
    ensures (q * TWO64 + x) % TWO64 == x % TWO64
  {
    var r := x % TWO64;
    var p := x / TWO64;
    assert q * TWO64 + x == (q + p) * TWO64 + r;
  }

  lemma TotalAdds(t: nat, a: nat, b: nat)
    ensures ((t + 8 * a) % TWO64 + 8 * b) % TWO64 == (t + 8 * (a + b)) % TWO64
  {
    var x := t + 8 * a;
    assert x == x / TWO64 * TWO64 + x % TWO64;
    assert t + 8 * (a + b) == x / TWO64 * TWO64 + (x % TWO64 + 8 * b);
    ModShift(x % TWO64 + 8 * b, x / TWO64);
  }

  /** How the input is cut into pieces makes no difference. */
  lemma FeedFeed(v: View, a: Bytes, b: Bytes)
    requires Reasonable(v)
    ensures Feed(Feed(v, a), b) == Feed(v, a + b)
  {
    hide Absorb, Cut;
    var all := v.tail + a;
    var rest := all[Cut(|all|)..] + b;
    assert all + b == v.tail + (a + b);
    CutTwice(all, b);
    AbsorbAppend(v.h, all[..Cut(|all|)], rest[..Cut(|rest|)]);
    TotalAdds(v.total, |a|, |b|);
  }

  lemma FeedNothing(v: View)
    requires Reasonable(v) && v.total < TWO64
    ensures Feed(v, []) == v
  {
    assert v.tail + [] == v.tail;
    assert v.tail[..0] == [] && v.tail[0..] == v.tail;
  }

  lemma {:induction false} FeedAllIsFeed(v: View, pieces: seq<Bytes>)
    requires Reasonable(v) && v.total < TWO64
    ensures FeedAll(v, pieces) == Feed(v, Concat(pieces))
    decreases |pieces|
  {
    hide Absorb;
    if pieces == [] {
      FeedNothing(v);
    } else {
      FeedAllIsFeed(v, pieces[..|pieces| - 1]);
      FeedFeed(v, Concat(pieces[..|pieces| - 1]), pieces[|pieces| - 1]);
    }
  }

  /** Less than a block. */
  lemma FeedPart(v: View, d: Bytes)
    requires |v.tail| + |d| < 64
    ensures Feed(v, d) == View(v.h, v.tail + d, (v.total + 8 * |d|) % TWO64)
  {
    var all := v.tail + d;
    assert all[..0] == [] && all[0..] == all;
  }

  /** Exactly up to the end of a block. */
  lemma FeedBlock(v: View, d: Bytes)
    requires |v.tail| < 64 && |v.tail| + |d| == 64
    ensures Feed(v, d) == View(Compress(v.h, v.tail + d), [], (v.total + 8 * |d|) % TWO64)
  {
    hide Compress;
    var all := v.tail + d;
    assert all[..64] == all && all[64..] == [];
    assert Absorb(Compress(v.h, all), []) == Compress(v.h, all);
  }

  // ---------- finishing ----------

  const PADDING: Bytes := [0x80] + Zeros(63)

  function BytesToPad(bufferLength: nat): (n: nat)
    requires bufferLength < 64
    ensures 0 < n <= 64
  {
    var n := 120 - bufferLength;
    if n > 64 then n - 64 else n
  }

  /** The state after the padding and the length captured before it. */
  ghost function Closed(v: View): (r: View)
    requires Reasonable(v) && v.total < TWO64
    ensures Reasonable(r)
  {
    Feed(Feed(v, PADDING[..BytesToPad(|v.tail|)]), LengthBytes(v.total))
  }

  lemma PadLength(n: nat)
    ensures BytesToPad(n % 64) == 1 + ZeroCount(n)
  {
  }

  lemma PaddingIsPad(m: Bytes)
    requires 8 * |m| < TWO64
    ensures (m + PADDING[..BytesToPad(|m| % 64)]) + LengthBytes(8 * |m|) == Pad(m)
  {
    hide LengthBytes;
    var n := BytesToPad(|m| % 64);
    PadLength(|m|);
    hide ZeroCount, BytesToPad;
    assert PADDING[..n] == [0x80] + Zeros(ZeroCount(|m|));
    hide Zeros;
    assert m + PADDING[..n] == m + [0x80] + Zeros(ZeroCount(|m|));
  }

  lemma FeedFresh(m: Bytes)
    requires 8 * |m| < TWO64
    ensures |Feed(FRESH, m).tail| == |m| % 64 && Feed(FRESH, m).total == 8 * |m|
  {
    hide Absorb;
    assert FRESH.tail + m == m;
  }

  lemma FeedWhole(h: State, p: Bytes)
    requires |p| % 64 == 0
    ensures Feed(View(h, [], 0), p).h == Absorb(h, p) && Feed(View(h, [], 0), p).tail == []
  {
    hide Absorb, Cut;
    assert [] + p == p && Cut(|p|) == |p| by { OnlyCut(|p|, |p|); }
    assert p[..|p|] == p;
  }

  /** However a message of fewer than 2^64 bits is cut into pieces, padding ends on a block boundary and the
      digest is that of the whole message. */
  lemma StreamedDigest(pieces: seq<Bytes>)
    requires 8 * |Concat(pieces)| < TWO64
    ensures FeedAll(FRESH, pieces).total < TWO64
    ensures var r := Closed(FeedAll(FRESH, pieces));
            r.tail == [] && StateBytes(r.h) == Sha1(Concat(pieces))
  {
    hide Feed, Pad, LengthBytes, StateBytes, Absorb;
    var m := Concat(pieces);
    FeedAllIsFeed(FRESH, pieces);
    FeedFresh(m);
    PaddingIsPad(m);
    FeedFeed(FRESH, m, PADDING[..BytesToPad(|m| % 64)]);
    FeedFeed(FRESH, m + PADDING[..BytesToPad(|m| % 64)], LengthBytes(8 * |m|));
    FeedWhole(H0, Pad(m));
  }

  // ---------- the context ----------

  lemma FeedMore(v: View, data: Bytes, i: nat, j: nat)
    requires Reasonable(v) && i <= j <= |data|
    ensures Feed(v, data[..j]) == Feed(Feed(v, data[..i]), data[i..j])
  {
    hide Feed;
    FeedFeed(v, data[..i], data[i..j]);
    assert data[..i] + data[i..j] == data[..j];
  }

  /** Whatever group of rounds t falls into, the code's function and constant are the standard's. */
  lemma RoundStep(s: State, t: nat, w: word)
    requires t < 80
    ensures var f := if t < 20 then F_0_19(s.b, s.c, s.d) else if t < 40 then F_20_39(s.b, s.c, s.d)
                     else if t < 60 then F_40_59(s.b, s.c, s.d) else F_60_79(s.b, s.c, s.d);
            var k := if t < 20 then 0x5a827999 else if t < 40 then 0x6ed9eba1
                    else if t < 60 then 0x8f1bbcdc else 0xca62c1d6;
            DoRound(s, f, k, w) == Round(s, t, w)
  {
    hide F_0_19, F_20_39, F_40_59, F_60_79, Ch, Parity, Maj, DoRound, Round;
    FunctionsAgree(s.b, s.c, s.d);
    RoundAgrees(s, t, F(t, s.b, s.c, s.d), w);
  }

  /** The word that the code puts into the schedule. */
  function NextWord(w3: word, w8: word, w14: word, w16: word): word {
    RotL1(w3 ^ w8 ^ w14 ^ w16)
  }

  lemma NextWordIsMix(w3: word, w8: word, w14: word, w16: word)
    ensures NextWord(w3, w8, w14, w16) == Mix(w3, w8, w14, w16)
  {
    RotationsAgree(w3 ^ w8 ^ w14 ^ w16);
  }

  /** Addition of 32-bit words in C. */
  function AddWords(x: word, y: word): word { x + y }

  lemma AddWordsIsPlus(x: word, y: word)
    ensures AddWords(x, y) == Plus(x, y)
  {
  }

  class SHA1Context {
    const little: bool  // the byte order of the host
    var totalLength: nat
    const hash: array<word>
    var bufferLength: nat
    const buffer: array<byte>

    ghost predicate Valid()
      reads this
    {
      hash.Length == 5 && buffer.Length == 64 && bufferLength < 64 && totalLength < TWO64
    }

    ghost function HashState(): State
      requires hash.Length == 5
      reads this, hash
    {
      State(hash[0], hash[1], hash[2], hash[3], hash[4])
    }

    ghost function Now(): (v: View)
      requires Valid()
      reads this, hash, buffer
      ensures Reasonable(v)
    {
      View(HashState(), buffer[..bufferLength], totalLength)
    }

    /** Forgets everything taken in so far. */
    method Init()
      requires hash.Length == 5 && buffer.Length == 64
      modifies this, hash
      ensures Valid() && Now() == FRESH
    {
      totalLength := 0;
      hash[0] := 0x67452301;
      hash[1] := 0xefcdab89;
      hash[2] := 0x98badcfe;
      hash[3] := 0x10325476;
      hash[4] := 0xc3d2e1f0;
      bufferLength := 0;
    }

    constructor (little: bool)
      ensures Valid() && Now() == FRESH && fresh(hash) && fresh(buffer) && this.little == little
    {
      this.little := little;
      hash := new word[5];
      buffer := new byte[64];
      totalLength, bufferLength := 0, 0;
      new;
      Init();
    }

    /** The message schedule by four moving cursors. */
    method Expand(cbuf: Bytes) returns (buf: array<word>)
      requires |cbuf| == 64
      ensures fresh(buf) && buf.Length == 80
      ensures forall t :: 0 <= t < 80 ==> buf[t] == Schedule(cbuf, t)
    {
      hide WordAt, Mix, NextWord, ByteSwap, Load;
      buf := new word[80];
      var W := 0;
      for i := 0 to 16
        invariant W == i && forall t :: 0 <= t < W ==> buf[t] == Schedule(cbuf, t)
      {
        SwapLoad(little, cbuf[4 * i..4 * i + 4]);
        buf[W] := ByteSwap(little, Load(little, cbuf[4 * i..4 * i + 4]));
        W := W + 1;
      }
      var W16, W14, W8, W3 := 0, 2, 8, 13;
      for i := 0 to 64
        invariant W == 16 + i && W16 == W - 16 && W14 == W - 14 && W8 == W - 8 && W3 == W - 3
        invariant forall t :: 0 <= t < W ==> buf[t] == Schedule(cbuf, t)
      {
        NextWordIsMix(buf[W3], buf[W8], buf[W14], buf[W16]);
        buf[W] := NextWord(buf[W3], buf[W8], buf[W14], buf[W16]);
        W3, W8, W14, W16 := W3 + 1, W8 + 1, W14 + 1, W16 + 1;
        W := W + 1;
      }
    }

    method AddToHash(s: State)
      requires hash.Length == 5
      modifies hash
      ensures HashState() == AddState(old(HashState()), s)
    {
      hide AddWords, Plus;
      AddWordsIsPlus(hash[0], s.a);
      AddWordsIsPlus(hash[1], s.b);
      AddWordsIsPlus(hash[2], s.c);
      AddWordsIsPlus(hash[3], s.d);
      AddWordsIsPlus(hash[4], s.e);
      hash[0] := AddWords(hash[0], s.a);
      hash[1] := AddWords(hash[1], s.b);
      hash[2] := AddWords(hash[2], s.c);
      hash[3] := AddWords(hash[3], s.d);
      hash[4] := AddWords(hash[4], s.e);
    }

    method AllRounds(ghost cbuf: Bytes, h: State, buf: array<word>) returns (s: State)
      requires |cbuf| == 64 && buf.Length == 80 && forall t :: 0 <= t < 80 ==> buf[t] == Schedule(cbuf, t)
      ensures s == Rounds(h, cbuf, 80)
    {
      hide Round, DoRound, F_0_19, F_20_39, F_40_59, F_60_79, Schedule;
      s := h;
      var W := 0;
      for i := 0 to 20
        invariant W == i && s == Rounds(h, cbuf, W)
      {
        RoundStep(s, W, buf[W]);
        s := DoRound(s, F_0_19(s.b, s.c, s.d), 0x5a827999, buf[W]);
        W := W + 1;
      }
      for i := 0 to 20
        invariant W == 20 + i && s == Rounds(h, cbuf, W)
      {
        RoundStep(s, W, buf[W]);
        s := DoRound(s, F_20_39(s.b, s.c, s.d), 0x6ed9eba1, buf[W]);
        W := W + 1;
      }
      for i := 0 to 20
        invariant W == 40 + i && s == Rounds(h, cbuf, W)
      {
        RoundStep(s, W, buf[W]);
        s := DoRound(s, F_40_59(s.b, s.c, s.d), 0x8f1bbcdc, buf[W]);
        W := W + 1;
      }
      for i := 0 to 20
        invariant W == 60 + i && s == Rounds(h, cbuf, W)
      {
        RoundStep(s, W, buf[W]);
        s := DoRound(s, F_60_79(s.b, s.c, s.d), 0xca62c1d6, buf[W]);
        W := W + 1;
      }
    }

    /** Eighty rounds over one block and the addition to the hash. */
    method Guts(cbuf: Bytes)
      requires hash.Length == 5 && |cbuf| == 64
      modifies hash
      ensures HashState() == Compress(old(HashState()), cbuf)
    {
      hide Rounds, AddState;
      var buf := Expand(cbuf);
      var s := AllRounds(cbuf, State(hash[0], hash[1], hash[2], hash[3], hash[4]), buf);
      AddToHash(s);
    }

    /** Copies the next bytes behind those that wait and, when the block is full, hashes it. */
    method TakeIn(piece: Bytes)
      requires Valid() && bufferLength + |piece| <= 64
      modifies this, hash, buffer
      ensures Valid() && Now() == Feed(old(Now()), piece)
      ensures bufferLength == (old(bufferLength) + |piece|) % 64
    {
      hide Feed, Compress;
      ghost var v := Now();
      forall i | 0 <= i < |piece| {
        buffer[bufferLength + i] := piece[i];
      }
      totalLength := (totalLength + |piece| * 8) % TWO64;
      bufferLength := bufferLength + |piece|;
      assert buffer[..bufferLength] == v.tail + piece;
      if bufferLength == 64 {
        FeedBlock(v, piece);
        assert buffer[..] == v.tail + piece;
        Guts(buffer[..]);
        bufferLength := 0;
      } else {
        FeedPart(v, piece);
      }
    }

    /** The simple form: always through the buffer. */
    method Update(data: Bytes)
      requires Valid() && |data| < TWO32
      modifies this, hash, buffer
      ensures Valid() && Now() == Feed(old(Now()), data)
    {
      hide Feed;
      ghost var v := Now();
      FeedNothing(v);
      var pos := 0;
      assert data[..0] == [];
      while pos < |data|
        invariant Valid() && pos <= |data| && Now() == Feed(v, data[..pos])
      {
        var bytesToCopy := if 64 - bufferLength > |data| - pos then |data| - pos else 64 - bufferLength;
        FeedMore(v, data, pos, pos + bytesToCopy);
        TakeIn(data[pos..pos + bytesToCopy]);
        pos := pos + bytesToCopy;
      }
      assert data[..pos] == data;
    }

    method HashInPlace(block: Bytes)
      requires Valid() && bufferLength == 0 && |block| == 64
      modifies this, hash
      ensures Valid() && bufferLength == 0 && Now() == Feed(old(Now()), block)
    {
      hide Feed, Compress;
      FeedBlock(Now(), block);
      assert Now().tail + block == block;
      totalLength := (totalLength + 512) % TWO64;
      Guts(block);
    }

    /** The fast form: only the ragged ends go through the buffer, full blocks are hashed where they lie. */
    method UpdateFast(data: Bytes)
      requires Valid() && |data| < TWO32
      modifies this, hash, buffer
      ensures Valid() && Now() == Feed(old(Now()), data)
    {
      hide Feed;
      ghost var v := Now();
      FeedNothing(v);
      var pos := 0;
      assert data[..0] == [];
      if bufferLength != 0 {
        var bytesToCopy := if 64 - bufferLength > |data| then |data| else 64 - bufferLength;
        FeedMore(v, data, 0, bytesToCopy);
        TakeIn(data[0..bytesToCopy]);
        pos := bytesToCopy;
      }
      while |data| - pos > 63
        invariant Valid() && pos <= |data| && Now() == Feed(v, data[..pos])
        invariant bufferLength == 0 || pos == |data|
      {
        FeedMore(v, data, pos, pos + 64);
        HashInPlace(data[pos..pos + 64]);
        pos := pos + 64;
      }
      if pos < |data| {
        FeedMore(v, data, pos, |data|);
        TakeIn(data[pos..|data|]);
      }
      assert data[..|data|] == data;
    }

    method WriteWord(out: array<byte>, at: nat, b: Bytes)
      requires |b| == 4 && at + 4 <= out.Length
      modifies out
      ensures out[at..at + 4] == b
      ensures forall k :: 0 <= k < out.Length && !(at <= k < at + 4) ==> out[k] == old(out[k])
    {
      out[at], out[at + 1], out[at + 2], out[at + 3] := b[0], b[1], b[2], b[3];
    }

    method WriteDigest(out: array<byte>)
      requires Valid() && out.Length >= 20
      modifies out
      ensures out[..20] == StateBytes(HashState()) && out[20..] == old(out[20..])
    {
      hide WordBytes, BytesOf;
      for i := 0 to 5
        invariant forall k :: 20 <= k < out.Length ==> out[k] == old(out[k])
        invariant forall j :: 0 <= j < i ==> out[4 * j..4 * j + 4] == WordBytes(hash[j])
      {
        BytesOfDigits(hash[i]);
        WriteWord(out, 4 * i, BytesOf(hash[i]));
      }
    }

    /** Pads, appends the length captured before padding, and writes the digest. */
    method Final(out: array?<byte>)
      requires Valid() && (out != null ==> out.Length >= 20 && out != buffer)
      modifies this, hash, buffer, if out == null then {} else {out}
      ensures Valid() && Now() == Closed(old(Now()))
      ensures out != null ==> out[..20] == StateBytes(Now().h) && out[20..] == old(out[20..])
    {
      hide Feed, LengthBytes;
      var bytesToPad := BytesToPad(bufferLength);
      var lengthPad := ByteSwap64(little, ToU64(totalLength));
      StoredLength(little, totalLength);
      Update(PADDING[..bytesToPad]);
      Update(Store64(little, lengthPad));
      if out != null {
        WriteDigest(out);
      }
    }
  }

  lemma OnePiece(data: Bytes)
    ensures Concat([data]) == data && FeedAll(FRESH, [data]) == Feed(FRESH, data)
  {
    hide Feed;
    assert [data][..0] == [];
    assert Concat([data]) == Concat([]) + data;
  }

  /** The hash of a whole buffer, as the peers compare it. */
  method ShaHash(data: Bytes, little: bool) returns (digest: Bytes)
    requires |data| < TWO32
    ensures digest == Sha1(data)
  {
    hide Feed, StateBytes, Absorb, Pad;
    var sha := new SHA1Context(little);
    sha.Update(data);
    var out := new byte[20];
    sha.Final(out);
    digest := out[..20];
    OnePiece(data);
    StreamedDigest([data]);
  }
}
