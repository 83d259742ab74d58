/** The first sample message of NIST, "abc", hashed word by word and round by round. */
module KnownAnswer {
  import opened Fips180
  import opened Octets

  const ABC: Bytes := [0x61, 0x62, 0x63]
  const BLOCK: Bytes := ABC + [0x80] + Zeros(52) + [0, 0, 0, 0, 0, 0, 0, 24]

  function W(t: nat): word { Schedule(BLOCK, t) }

  function A(t: nat): word { Rounds(H0, BLOCK, t).a }

  lemma Words0()
    ensures W(0) == 0x61626380 && W(15) == 24
    ensures W(1) == W(2) == W(3) == W(4) == W(5) == W(6) == W(7) == 0
    ensures W(8) == W(9) == W(10) == W(11) == W(12) == W(13) == W(14) == 0
  {
    assert BLOCK[0..4] == [0x61, 0x62, 0x63, 0x80];
    assert BLOCK[60..64] == [0, 0, 0, 24];
    forall t | 1 <= t < 15 ensures Schedule(BLOCK, t) == 0 {
      assert BLOCK[4 * t..4 * t + 4] == [0, 0, 0, 0];
    }
  }

  lemma Words16()
    ensures W(16) == 0xc2c4c700 && W(17) == 0x00000000 && W(18) == 0x00000030 && W(19) == 0x85898e01
         && W(20) == 0x00000000 && W(21) == 0x00000060 && W(22) == 0x0b131c03 && W(23) == 0x00000030
         && W(24) == 0x85898ec1 && W(25) == 0x16263806 && W(26) == 0x00000000 && W(27) == 0x00000180
         && W(28) == 0x2c4c700c && W(29) == 0x000000f0 && W(30) == 0x93afb507 && W(31) == 0x5898e048
  {
    Words0();
  }

  lemma Words32()
    ensures W(32) == 0x8e9a9202 && W(33) == 0x00000600 && W(34) == 0xb131c0f0 && W(35) == 0x16263bc6
         && W(36) == 0x4ebed41e && W(37) == 0x626380a1 && W(38) == 0x16263806 && W(39) == 0x000018c0
         && W(40) == 0xd2e138c4 && W(41) == 0x00000f00 && W(42) == 0x3afb5079 && W(43) == 0x898e04e5
         && W(44) == 0xe2ba3c2b && W(45) == 0x000060c0 && W(46) == 0x053a37cd && W(47) == 0x74458547
  {
    Words16();
  }

  lemma Words48()
    ensures W(48) == 0xda9415ed && W(49) == 0x26380a16 && W(50) == 0x626383a1 && W(51) == 0x4ebf54de
         && W(52) == 0x3835b44b && W(53) == 0x0000f600 && W(54) == 0x1e84c7a3 && W(55) == 0x98e04d98
         && W(56) == 0x651d16a0 && W(57) == 0x62658ca1 && W(58) == 0x458544d6 && W(59) == 0x44584cb7
         && W(60) == 0x7ba06619 && W(61) == 0x6380aea2 && W(62) == 0x0ae55269 && W(63) == 0x627b49a1
  {
    Words32();
  }

  lemma Words64()
    ensures W(64) == 0x7cd45c9d && W(65) == 0x000f0000 && W(66) == 0xfb50753a && W(67) == 0xec6765e8
         && W(68) == 0xba3c2be2 && W(69) == 0x0060c000 && W(70) == 0x3a37cd05 && W(71) == 0x458546f4
         && W(72) == 0xb8599dd6 && W(73) == 0x380a1a26 && W(74) == 0x01e02203 && W(75) == 0xe7cc3456
         && W(76) == 0xe6e60b69 && W(77) == 0x00f60a00 && W(78) == 0x5795ef4f && W(79) == 0x822e0879
  {
    Words48();
  }

  lemma Rounds0()
    ensures A(1) == 0x0116fc33 && A(2) == 0x8990536d && A(3) == 0xa1390f08 && A(4) == 0xcdd8e11b
         && A(5) == 0xcfd499de && A(6) == 0x3fc7ca40 && A(7) == 0x993e30c1 && A(8) == 0x9e8c07d4
         && A(9) == 0x4b6ae328 && A(10) == 0x8351f929
    ensures Rounds(H0, BLOCK, 10) == State(0x8351f929, 0x4b6ae328, 0x27a301f5, 0x664f8c30, 0x0ff1f290)
  {
    hide Schedule;
    Words0();
    assert Rounds(H0, BLOCK, 0) == H0 == State(0x67452301, 0xefcdab89, 0x98badcfe, 0x10325476, 0xc3d2e1f0);
  }

  lemma Rounds10()
    ensures A(11) == 0xfbda9e89 && A(12) == 0x63188fe4 && A(13) == 0x4607b664 && A(14) == 0x9128f695
         && A(15) == 0x196bee77 && A(16) == 0x20bdd62f && A(17) == 0x4e925823 && A(18) == 0x82aa6728
         && A(19) == 0xdc64901d && A(20) == 0xfd9e1d7d
    ensures Rounds(H0, BLOCK, 20) == State(0xfd9e1d7d, 0xdc64901d, 0x20aa99ca, 0xd3a49608, 0xc82f758b)
  {
    hide Schedule;
    Words0();
    Words16();
    Rounds0();
  }

  lemma Rounds20()
    ensures A(21) == 0x1a37b0ca && A(22) == 0x33a23bfc && A(23) == 0x21283486 && A(24) == 0xd541f12d
         && A(25) == 0xc7567dc6 && A(26) == 0x48413ba4 && A(27) == 0xbe35fbd5 && A(28) == 0x4aa84d97
         && A(29) == 0x8370b52e && A(30) == 0xc5fbaf5d
    ensures Rounds(H0, BLOCK, 30) == State(0xc5fbaf5d, 0x8370b52e, 0xd2aa1365, 0x6f8d7ef5, 0x12104ee9)
  {
    hide Schedule;
    Words16();
    Rounds10();
  }

  lemma Rounds30()
    ensures A(31) == 0x1267b407 && A(32) == 0x3b845d33 && A(33) == 0x046faa0a && A(34) == 0x2c0ebc11
         && A(35) == 0x21796ad4 && A(36) == 0xdcbbb0cb && A(37) == 0x0f511fd8 && A(38) == 0xdc63973f
         && A(39) == 0x4c986405 && A(40) == 0x32de1cba
    ensures Rounds(H0, BLOCK, 40) == State(0x32de1cba, 0x4c986405, 0xf718e5cf, 0x03d447f6, 0xf72eec32)
  {
    hide Schedule;
    Words16();
    Words32();
    Rounds20();
  }

  lemma Rounds40()
    ensures A(41) == 0xfc87dedf && A(42) == 0x970a0d5c && A(43) == 0x7f193dc5 && A(44) == 0xee1b1aaf
         && A(45) == 0x40f28e09 && A(46) == 0x1c51e1f2 && A(47) == 0xa01b846c && A(48) == 0xbead02ca
         && A(49) == 0xbaf39337 && A(50) == 0x120731c5
    ensures Rounds(H0, BLOCK, 50) == State(0x120731c5, 0xbaf39337, 0xafab40b2, 0x2806e11b, 0x8714787c)
  {
    hide Schedule;
    Words32();
    Words48();
    Rounds30();
  }

  lemma Rounds50()
    ensures A(51) == 0x641db2ce && A(52) == 0x3847ad66 && A(53) == 0xe490436d && A(54) == 0x27e9f1d8
         && A(55) == 0x7b71f76d && A(56) == 0x5e6456af && A(57) == 0xc846093f && A(58) == 0xd262ff50
         && A(59) == 0x09d785fd && A(60) == 0x3f52de5a
    ensures Rounds(H0, BLOCK, 60) == State(0x3f52de5a, 0x09d785fd, 0x3498bfd4, 0xf211824f, 0xd79915ab)
  {
    hide Schedule;
    Words48();
    Rounds40();
  }

  lemma Rounds60()
    ensures A(61) == 0xd756c147 && A(62) == 0x548c9cb2 && A(63) == 0xb66c020b && A(64) == 0x6b61c9e1
         && A(65) == 0x19dfa7ac && A(66) == 0x101655f9 && A(67) == 0x0c3df2b4 && A(68) == 0x78dd4d2b
         && A(69) == 0x497093c0 && A(70) == 0x3f2588c2
    ensures Rounds(H0, BLOCK, 70) == State(0x3f2588c2, 0x497093c0, 0xde37534a, 0x030f7cad, 0x4405957e)
  {
    hide Schedule;
    Words48();
    Words64();
    Rounds50();
  }

  lemma Rounds70()
    ensures A(71) == 0xc199f8c7 && A(72) == 0x39859de7 && A(73) == 0xedb42de4 && A(74) == 0x11793f6f
         && A(75) == 0x5ee76897 && A(76) == 0x63f7dab7 && A(77) == 0xa079b7d9 && A(78) == 0x860d21cc
         && A(79) == 0x5738d5e1 && A(80) == 0x42541b35
    ensures Rounds(H0, BLOCK, 80) == State(0x42541b35, 0x5738d5e1, 0x21834873, 0x681e6df6, 0xd8fdf6ad)
  {
    hide Schedule;
    Words64();
    Rounds60();
  }

  lemma Padded()
    ensures Pad(ABC) == BLOCK
  {
    assert 8 * |ABC| == 24 && ZeroCount(3) == 52;
  }

  lemma Digested()
    ensures Compress(H0, BLOCK) == State(0xa9993e36, 0x4706816a, 0xba3e2571, 0x7850c26c, 0x9cd0d89d)
  {
    Rounds70();
  }

  /** The digest that sha.c promises for the first of its sample messages. */
  lemma SampleDigest()
    ensures Sha1(ABC)
         == [0xa9, 0x99, 0x3e, 0x36, 0x47, 0x06, 0x81, 0x6a, 0xba, 0x3e,
             0x25, 0x71, 0x78, 0x50, 0xc2, 0x6c, 0x9c, 0xd0, 0xd8, 0x9d]
  {
    hide Compress;
    Padded();
    Digested();
    assert BLOCK[..64] == BLOCK && BLOCK[64..] == [];
    var h := Compress(H0, BLOCK);
    assert Absorb(h, []) == h;
  }
}
