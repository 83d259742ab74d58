/** SHA-1 as FIPS 180-4 defines it for byte strings. */
module Fips180 {
  import opened Octets

  type byte = bv8
  type word = bv32

  /** The working variables, and the hash value between blocks. */
  datatype State = State(a: word, b: word, c: word, d: word, e: word)

  // ---------- section 3.2 and section 4: operations, functions and constants ----------

  function Rot1(x: word): word { x.RotateLeft(1) }
  function Rot5(x: word): word { x.RotateLeft(5) }
  function Rot30(x: word): word { x.RotateLeft(30) }

  function Ch(x: word, y: word, z: word): word { (x & y) ^ (!x & z) }
  function Parity(x: word, y: word, z: word): word { x ^ y ^ z }
  function Maj(x: word, y: word, z: word): word { (x & y) ^ (x & z) ^ (y & z) }

  /** Section 4.1.1. */
  function F(t: nat, x: word, y: word, z: word): word {
    if t < 20 then Ch(x, y, z) else if t < 40 then Parity(x, y, z) else if t < 60 then Maj(x, y, z) else Parity(x, y, z)
  }

  /** Section 4.2.1. */
  function K(t: nat): word {
    if t < 20 then 0x5a827999 else if t < 40 then 0x6ed9eba1 else if t < 60 then 0x8f1bbcdc else 0xca62c1d6
  }

  /** Section 5.3.1. */
  const H0 := State(0x67452301, 0xefcdab89, 0x98badcfe, 0x10325476, 0xc3d2e1f0)

  // ---------- section 3.1: words are written big-endian ----------

  /** The word whose digits in base 256 these are, the first one counting most. */
  function WordAt(b: Bytes): word
    requires |b| == 4
  {
    0x1000000 * (b[0] as word) + 0x10000 * (b[1] as word) + 0x100 * (b[2] as word) + b[3] as word
  }

  function WordBytes(x: word): (b: Bytes)
    ensures |b| == 4
  {
    [(x / 0x1000000) as byte, (x / 0x10000 % 0x100) as byte, (x / 0x100 % 0x100) as byte, (x % 0x100) as byte]
  }

  /** Writing a word and reading it again. */
  lemma WordRoundTrip(x: word)
    ensures WordAt(WordBytes(x)) == x
  {
  }

  lemma BytesRoundTrip(b: Bytes)
    requires |b| == 4
    ensures WordBytes(WordAt(b)) == b
  {
    var x := WordAt(b);
    assert WordBytes(x)[0] == b[0] && WordBytes(x)[1] == b[1] && WordBytes(x)[2] == b[2] && WordBytes(x)[3] == b[3];
  }

  function StateBytes(h: State): (b: Bytes)
    ensures |b| == 20
  {
    WordBytes(h.a) + WordBytes(h.b) + WordBytes(h.c) + WordBytes(h.d) + WordBytes(h.e)
  }

  // ---------- section 5.1.1: padding ----------

  const TWO32: nat := 0x1_0000_0000
  const TWO64: nat := 0x1_0000_0000_0000_0000

  function Zeros(n: nat): (b: Bytes)
    ensures |b| == n && forall i :: 0 <= i < n ==> b[i] == 0
  {
    seq(n, _ => 0)
  }

  /** The 64-bit length of the message in bits. */
  function LengthBytes(bits: nat): (b: Bytes)
    requires bits < TWO64
    ensures |b| == 8
  {
    WordBytes((bits / TWO32) as word) + WordBytes((bits % TWO32) as word)
  }

  /** The least number of zero bytes after the one bit (a byte 0x80) that leaves eight bytes in the last block. */
  function ZeroCount(n: nat): (k: nat)
    ensures (n + 1 + k) % 64 == 56 && k < 64
  {
    (55 - n) % 64
  }

  function Pad(m: Bytes): (p: Bytes)
    requires 8 * |m| < TWO64
    ensures |p| % 64 == 0
  {
    m + [0x80] + Zeros(ZeroCount(|m|)) + LengthBytes(8 * |m|)
  }

  // ---------- section 6.1.2: hash computation ----------

  function Mix(w3: word, w8: word, w14: word, w16: word): word {
    Rot1(w3 ^ w8 ^ w14 ^ w16)
  }

  /** Step 1, the message schedule. */
  function Schedule(block: Bytes, t: nat): word
    requires |block| == 64
  {
    if t < 16 then WordAt(block[4 * t..4 * t + 4])
    else Mix(Schedule(block, t - 3), Schedule(block, t - 8), Schedule(block, t - 14), Schedule(block, t - 16))
  }

  function Sum(a: word, f: word, e: word, k: word, w: word): word {
    a + f + e + k + w
  }

  /** One round of step 3. */
  function Round(s: State, t: nat, w: word): State {
    State(Sum(Rot5(s.a), F(t, s.b, s.c, s.d), s.e, K(t), w), s.a, Rot30(s.b), s.c, s.d)
  }

  function Rounds(s: State, block: Bytes, t: nat): State
    requires |block| == 64
  {
    if t == 0 then s else Round(Rounds(s, block, t - 1), t - 1, Schedule(block, t - 1))
  }

  /** Addition modulo 2^32. */
  function Plus(x: word, y: word): word { x + y }

  /** Step 4. */
  function AddState(h: State, s: State): State {
    State(Plus(h.a, s.a), Plus(h.b, s.b), Plus(h.c, s.c), Plus(h.d, s.d), Plus(h.e, s.e))
  }

  function Compress(h: State, block: Bytes): State
    requires |block| == 64
  {
    AddState(h, Rounds(h, block, 80))
  }

  /** The blocks of a padded message in order. */
  function Absorb(h: State, m: Bytes): State
    requires |m| % 64 == 0
    decreases |m|
  {
    if m == [] then h else Absorb(Compress(h, m[..64]), m[64..])
  }

  function Sha1(m: Bytes): (digest: Bytes)
    requires 8 * |m| < TWO64
    ensures |digest| == 20
  {
    StateBytes(Absorb(H0, Pad(m)))
  }
}
