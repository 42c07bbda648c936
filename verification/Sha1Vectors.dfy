/** A known answer of SHA-1, the digest of the three letters abc, worked out word by word and
    round by round: it fixes the constants, the schedule and the round functions (FIPS 180-4,
    sections 4, 5.3.1 and 6.1.2). */
module Sha1Vectors {
  import opened Bytes
  import opened Sha1Standard

  const ABC: seq<Byte> := [0x61, 0x62, 0x63]

  /** Its one padded block: the three bytes, a one bit, zeros, and the bit count 24. */
  function AbcBlock(): (b: Block) {
    [0x61, 0x62, 0x63, 0x80] + Zeros(59) + [24]
  }

  /** Word t of its schedule. */
  predicate Has(t: nat, w: Word) {
    Schedule(AbcBlock(), t) == w
  }

  lemma FirstWord(t: nat, b0: Byte, b1: Byte, b2: Byte, b3: Byte, w: Word)
    requires t < 16 && AbcBlock()[4 * t] == b0 && AbcBlock()[4 * t + 1] == b1
    requires AbcBlock()[4 * t + 2] == b2 && AbcBlock()[4 * t + 3] == b3 && BigEndianWord(b0, b1, b2, b3) == w
    ensures Has(t, w)
  {
    hide BigEndianWord;
  }

  lemma LaterWord(t: nat, w3: Word, w8: Word, w14: Word, w16: Word, w: Word)
    requires t >= 16 && Has(t - 3, w3) && Has(t - 8, w8) && Has(t - 14, w14) && Has(t - 16, w16)
    requires Rotl(w3 ^ w8 ^ w14 ^ w16, 1) == w
    ensures Has(t, w)
  {
    hide Rotl, AbcBlock;
  }

  lemma Words0()
    ensures Has(0, 0x61626380) && Has(1, 0x00000000) && Has(2, 0x00000000) && Has(3, 0x00000000)
    ensures Has(4, 0x00000000) && Has(5, 0x00000000) && Has(6, 0x00000000) && Has(7, 0x00000000)
    ensures Has(8, 0x00000000) && Has(9, 0x00000000) && Has(10, 0x00000000) && Has(11, 0x00000000)
    ensures Has(12, 0x00000000) && Has(13, 0x00000000) && Has(14, 0x00000000) && Has(15, 0x00000018)
  {
    assert BigEndianWord(0, 0, 0, 0) == 0;
    FirstWord(0, 0x61, 0x62, 0x63, 0x80, 0x61626380);
    forall t | 1 <= t < 15
      ensures Has(t, 0)
    {
      FirstWord(t, 0, 0, 0, 0, 0);
    }
    FirstWord(15, 0, 0, 0, 24, 0x00000018);
  }

  lemma Words16()
    ensures Has(16, 0xc2c4c700) && Has(17, 0x00000000) && Has(18, 0x00000030) && Has(19, 0x85898e01)
    ensures Has(20, 0x00000000) && Has(21, 0x00000060) && Has(22, 0x0b131c03) && Has(23, 0x00000030)
    ensures Has(24, 0x85898ec1) && Has(25, 0x16263806) && Has(26, 0x00000000) && Has(27, 0x00000180)
    ensures Has(28, 0x2c4c700c) && Has(29, 0x000000f0) && Has(30, 0x93afb507) && Has(31, 0x5898e048)
  {
    hide Has;
    Words0();
    LaterWord(16, 0x00000000, 0x00000000, 0x00000000, 0x61626380, 0xc2c4c700);
    LaterWord(17, 0x00000000, 0x00000000, 0x00000000, 0x00000000, 0x00000000);
    LaterWord(18, 0x00000018, 0x00000000, 0x00000000, 0x00000000, 0x00000030);
    LaterWord(19, 0xc2c4c700, 0x00000000, 0x00000000, 0x00000000, 0x85898e01);
    LaterWord(20, 0x00000000, 0x00000000, 0x00000000, 0x00000000, 0x00000000);
    LaterWord(21, 0x00000030, 0x00000000, 0x00000000, 0x00000000, 0x00000060);
    LaterWord(22, 0x85898e01, 0x00000000, 0x00000000, 0x00000000, 0x0b131c03);
    LaterWord(23, 0x00000000, 0x00000018, 0x00000000, 0x00000000, 0x00000030);
    LaterWord(24, 0x00000060, 0xc2c4c700, 0x00000000, 0x00000000, 0x85898ec1);
    LaterWord(25, 0x0b131c03, 0x00000000, 0x00000000, 0x00000000, 0x16263806);
    LaterWord(26, 0x00000030, 0x00000030, 0x00000000, 0x00000000, 0x00000000);
    LaterWord(27, 0x85898ec1, 0x85898e01, 0x00000000, 0x00000000, 0x00000180);
    LaterWord(28, 0x16263806, 0x00000000, 0x00000000, 0x00000000, 0x2c4c700c);
    LaterWord(29, 0x00000000, 0x00000060, 0x00000018, 0x00000000, 0x000000f0);
    LaterWord(30, 0x00000180, 0x0b131c03, 0xc2c4c700, 0x00000000, 0x93afb507);
    LaterWord(31, 0x2c4c700c, 0x00000030, 0x00000000, 0x00000018, 0x5898e048);
  }

  lemma Words32()
    ensures Has(32, 0x8e9a9202) && Has(33, 0x00000600) && Has(34, 0xb131c0f0) && Has(35, 0x16263bc6)
    ensures Has(36, 0x4ebed41e) && Has(37, 0x626380a1) && Has(38, 0x16263806) && Has(39, 0x000018c0)
    ensures Has(40, 0xd2e138c4) && Has(41, 0x00000f00) && Has(42, 0x3afb5079) && Has(43, 0x898e04e5)
    ensures Has(44, 0xe2ba3c2b) && Has(45, 0x000060c0) && Has(46, 0x053a37cd) && Has(47, 0x74458547)
  {
    hide Has;
    Words16();
    LaterWord(32, 0x000000f0, 0x85898ec1, 0x00000030, 0xc2c4c700, 0x8e9a9202);
    LaterWord(33, 0x93afb507, 0x16263806, 0x85898e01, 0x00000000, 0x00000600);
    LaterWord(34, 0x5898e048, 0x00000000, 0x00000000, 0x00000030, 0xb131c0f0);
    LaterWord(35, 0x8e9a9202, 0x00000180, 0x00000060, 0x85898e01, 0x16263bc6);
    LaterWord(36, 0x00000600, 0x2c4c700c, 0x0b131c03, 0x00000000, 0x4ebed41e);
    LaterWord(37, 0xb131c0f0, 0x000000f0, 0x00000030, 0x00000060, 0x626380a1);
    LaterWord(38, 0x16263bc6, 0x93afb507, 0x85898ec1, 0x0b131c03, 0x16263806);
    LaterWord(39, 0x4ebed41e, 0x5898e048, 0x16263806, 0x00000030, 0x000018c0);
    LaterWord(40, 0x626380a1, 0x8e9a9202, 0x00000000, 0x85898ec1, 0xd2e138c4);
    LaterWord(41, 0x16263806, 0x00000600, 0x00000180, 0x16263806, 0x00000f00);
    LaterWord(42, 0x000018c0, 0xb131c0f0, 0x2c4c700c, 0x00000000, 0x3afb5079);
    LaterWord(43, 0xd2e138c4, 0x16263bc6, 0x000000f0, 0x00000180, 0x898e04e5);
    LaterWord(44, 0x00000f00, 0x4ebed41e, 0x93afb507, 0x2c4c700c, 0xe2ba3c2b);
    LaterWord(45, 0x3afb5079, 0x626380a1, 0x5898e048, 0x000000f0, 0x000060c0);
    LaterWord(46, 0x898e04e5, 0x16263806, 0x8e9a9202, 0x93afb507, 0x053a37cd);
    LaterWord(47, 0xe2ba3c2b, 0x000018c0, 0x00000600, 0x5898e048, 0x74458547);
  }

  lemma Words48()
    ensures Has(48, 0xda9415ed) && Has(49, 0x26380a16) && Has(50, 0x626383a1) && Has(51, 0x4ebf54de)
    ensures Has(52, 0x3835b44b) && Has(53, 0x0000f600) && Has(54, 0x1e84c7a3) && Has(55, 0x98e04d98)
    ensures Has(56, 0x651d16a0) && Has(57, 0x62658ca1) && Has(58, 0x458544d6) && Has(59, 0x44584cb7)
    ensures Has(60, 0x7ba06619) && Has(61, 0x6380aea2) && Has(62, 0x0ae55269) && Has(63, 0x627b49a1)
  {
    hide Has;
    Words32();
    LaterWord(48, 0x000060c0, 0xd2e138c4, 0xb131c0f0, 0x8e9a9202, 0xda9415ed);
    LaterWord(49, 0x053a37cd, 0x00000f00, 0x16263bc6, 0x00000600, 0x26380a16);
    LaterWord(50, 0x74458547, 0x3afb5079, 0x4ebed41e, 0xb131c0f0, 0x626383a1);
    LaterWord(51, 0xda9415ed, 0x898e04e5, 0x626380a1, 0x16263bc6, 0x4ebf54de);
    LaterWord(52, 0x26380a16, 0xe2ba3c2b, 0x16263806, 0x4ebed41e, 0x3835b44b);
    LaterWord(53, 0x626383a1, 0x000060c0, 0x000018c0, 0x626380a1, 0x0000f600);
    LaterWord(54, 0x4ebf54de, 0x053a37cd, 0xd2e138c4, 0x16263806, 0x1e84c7a3);
    LaterWord(55, 0x3835b44b, 0x74458547, 0x00000f00, 0x000018c0, 0x98e04d98);
    LaterWord(56, 0x0000f600, 0xda9415ed, 0x3afb5079, 0xd2e138c4, 0x651d16a0);
    LaterWord(57, 0x1e84c7a3, 0x26380a16, 0x898e04e5, 0x00000f00, 0x62658ca1);
    LaterWord(58, 0x98e04d98, 0x626383a1, 0xe2ba3c2b, 0x3afb5079, 0x458544d6);
    LaterWord(59, 0x651d16a0, 0x4ebf54de, 0x000060c0, 0x898e04e5, 0x44584cb7);
    LaterWord(60, 0x62658ca1, 0x3835b44b, 0x053a37cd, 0xe2ba3c2b, 0x7ba06619);
    LaterWord(61, 0x458544d6, 0x0000f600, 0x74458547, 0x000060c0, 0x6380aea2);
    LaterWord(62, 0x44584cb7, 0x1e84c7a3, 0xda9415ed, 0x053a37cd, 0x0ae55269);
    LaterWord(63, 0x7ba06619, 0x98e04d98, 0x26380a16, 0x74458547, 0x627b49a1);
  }

  lemma Words64()
    ensures Has(64, 0x7cd45c9d) && Has(65, 0x000f0000) && Has(66, 0xfb50753a) && Has(67, 0xec6765e8)
    ensures Has(68, 0xba3c2be2) && Has(69, 0x0060c000) && Has(70, 0x3a37cd05) && Has(71, 0x458546f4)
    ensures Has(72, 0xb8599dd6) && Has(73, 0x380a1a26) && Has(74, 0x01e02203) && Has(75, 0xe7cc3456)
    ensures Has(76, 0xe6e60b69) && Has(77, 0x00f60a00) && Has(78, 0x5795ef4f) && Has(79, 0x822e0879)
  {
    hide Has;
    Words48();
    LaterWord(64, 0x6380aea2, 0x651d16a0, 0x626383a1, 0xda9415ed, 0x7cd45c9d);
    LaterWord(65, 0x0ae55269, 0x62658ca1, 0x4ebf54de, 0x26380a16, 0x000f0000);
    LaterWord(66, 0x627b49a1, 0x458544d6, 0x3835b44b, 0x626383a1, 0xfb50753a);
    LaterWord(67, 0x7cd45c9d, 0x44584cb7, 0x0000f600, 0x4ebf54de, 0xec6765e8);
    LaterWord(68, 0x000f0000, 0x7ba06619, 0x1e84c7a3, 0x3835b44b, 0xba3c2be2);
    LaterWord(69, 0xfb50753a, 0x6380aea2, 0x98e04d98, 0x0000f600, 0x0060c000);
    LaterWord(70, 0xec6765e8, 0x0ae55269, 0x651d16a0, 0x1e84c7a3, 0x3a37cd05);
    LaterWord(71, 0xba3c2be2, 0x627b49a1, 0x62658ca1, 0x98e04d98, 0x458546f4);
    LaterWord(72, 0x0060c000, 0x7cd45c9d, 0x458544d6, 0x651d16a0, 0xb8599dd6);
    LaterWord(73, 0x3a37cd05, 0x000f0000, 0x44584cb7, 0x62658ca1, 0x380a1a26);
    LaterWord(74, 0x458546f4, 0xfb50753a, 0x7ba06619, 0x458544d6, 0x01e02203);
    LaterWord(75, 0xb8599dd6, 0xec6765e8, 0x6380aea2, 0x44584cb7, 0xe7cc3456);
    LaterWord(76, 0x380a1a26, 0xba3c2be2, 0x0ae55269, 0x7ba06619, 0xe6e60b69);
    LaterWord(77, 0x01e02203, 0x0060c000, 0x627b49a1, 0x6380aea2, 0x00f60a00);
    LaterWord(78, 0xe7cc3456, 0x3a37cd05, 0x7cd45c9d, 0x0ae55269, 0x5795ef4f);
    LaterWord(79, 0xe6e60b69, 0x458546f4, 0x000f0000, 0x627b49a1, 0x822e0879);
  }

  /** The working variables after t rounds. */
  predicate At(t: nat, g: Hash) {
    Rounds(INITIAL, AbcBlock(), t) == g
  }

  lemma OneRound(t: nat, g: Hash, w: Word, r: Hash)
    requires At(t, g) && Has(t, w) && Round(t, g, w) == r
    ensures At(t + 1, r)
  {
    hide Round, AbcBlock;
  }

  lemma AtStart()
    ensures At(0, Hash(0x67452301, 0xefcdab89, 0x98badcfe, 0x10325476, 0xc3d2e1f0))
  {
  }

  lemma Rounds0()
    ensures At(16, Hash(0x20bdd62f, 0x196bee77, 0x644a3da5, 0x1181ed99, 0x18c623f9))
  {
    hide Has, At;
    Words0();
    AtStart();
    OneRound(0, Hash(0x67452301, 0xefcdab89, 0x98badcfe, 0x10325476, 0xc3d2e1f0), 0x61626380,
      Hash(0x0116fc33, 0x67452301, 0x7bf36ae2, 0x98badcfe, 0x10325476));
    OneRound(1, Hash(0x0116fc33, 0x67452301, 0x7bf36ae2, 0x98badcfe, 0x10325476), 0x00000000,
      Hash(0x8990536d, 0x0116fc33, 0x59d148c0, 0x7bf36ae2, 0x98badcfe));
    OneRound(2, Hash(0x8990536d, 0x0116fc33, 0x59d148c0, 0x7bf36ae2, 0x98badcfe), 0x00000000,
      Hash(0xa1390f08, 0x8990536d, 0xc045bf0c, 0x59d148c0, 0x7bf36ae2));
    OneRound(3, Hash(0xa1390f08, 0x8990536d, 0xc045bf0c, 0x59d148c0, 0x7bf36ae2), 0x00000000,
      Hash(0xcdd8e11b, 0xa1390f08, 0x626414db, 0xc045bf0c, 0x59d148c0));
    OneRound(4, Hash(0xcdd8e11b, 0xa1390f08, 0x626414db, 0xc045bf0c, 0x59d148c0), 0x00000000,
      Hash(0xcfd499de, 0xcdd8e11b, 0x284e43c2, 0x626414db, 0xc045bf0c));
    OneRound(5, Hash(0xcfd499de, 0xcdd8e11b, 0x284e43c2, 0x626414db, 0xc045bf0c), 0x00000000,
      Hash(0x3fc7ca40, 0xcfd499de, 0xf3763846, 0x284e43c2, 0x626414db));
    OneRound(6, Hash(0x3fc7ca40, 0xcfd499de, 0xf3763846, 0x284e43c2, 0x626414db), 0x00000000,
      Hash(0x993e30c1, 0x3fc7ca40, 0xb3f52677, 0xf3763846, 0x284e43c2));
    OneRound(7, Hash(0x993e30c1, 0x3fc7ca40, 0xb3f52677, 0xf3763846, 0x284e43c2), 0x00000000,
      Hash(0x9e8c07d4, 0x993e30c1, 0x0ff1f290, 0xb3f52677, 0xf3763846));
    OneRound(8, Hash(0x9e8c07d4, 0x993e30c1, 0x0ff1f290, 0xb3f52677, 0xf3763846), 0x00000000,
      Hash(0x4b6ae328, 0x9e8c07d4, 0x664f8c30, 0x0ff1f290, 0xb3f52677));
    OneRound(9, Hash(0x4b6ae328, 0x9e8c07d4, 0x664f8c30, 0x0ff1f290, 0xb3f52677), 0x00000000,
      Hash(0x8351f929, 0x4b6ae328, 0x27a301f5, 0x664f8c30, 0x0ff1f290));
    OneRound(10, Hash(0x8351f929, 0x4b6ae328, 0x27a301f5, 0x664f8c30, 0x0ff1f290), 0x00000000,
      Hash(0xfbda9e89, 0x8351f929, 0x12dab8ca, 0x27a301f5, 0x664f8c30));
    OneRound(11, Hash(0xfbda9e89, 0x8351f929, 0x12dab8ca, 0x27a301f5, 0x664f8c30), 0x00000000,
      Hash(0x63188fe4, 0xfbda9e89, 0x60d47e4a, 0x12dab8ca, 0x27a301f5));
    OneRound(12, Hash(0x63188fe4, 0xfbda9e89, 0x60d47e4a, 0x12dab8ca, 0x27a301f5), 0x00000000,
      Hash(0x4607b664, 0x63188fe4, 0x7ef6a7a2, 0x60d47e4a, 0x12dab8ca));
    OneRound(13, Hash(0x4607b664, 0x63188fe4, 0x7ef6a7a2, 0x60d47e4a, 0x12dab8ca), 0x00000000,
      Hash(0x9128f695, 0x4607b664, 0x18c623f9, 0x7ef6a7a2, 0x60d47e4a));
    OneRound(14, Hash(0x9128f695, 0x4607b664, 0x18c623f9, 0x7ef6a7a2, 0x60d47e4a), 0x00000000,
      Hash(0x196bee77, 0x9128f695, 0x1181ed99, 0x18c623f9, 0x7ef6a7a2));
    OneRound(15, Hash(0x196bee77, 0x9128f695, 0x1181ed99, 0x18c623f9, 0x7ef6a7a2), 0x00000018,
      Hash(0x20bdd62f, 0x196bee77, 0x644a3da5, 0x1181ed99, 0x18c623f9));
  }

  lemma Rounds16()
    ensures At(32, Hash(0x3b845d33, 0x1267b407, 0x717eebd7, 0xa0dc2d4b, 0xd2aa1365))
  {
    hide Has, At;
    Words16();
    Rounds0();
    OneRound(16, Hash(0x20bdd62f, 0x196bee77, 0x644a3da5, 0x1181ed99, 0x18c623f9), 0xc2c4c700,
      Hash(0x4e925823, 0x20bdd62f, 0xc65afb9d, 0x644a3da5, 0x1181ed99));
    OneRound(17, Hash(0x4e925823, 0x20bdd62f, 0xc65afb9d, 0x644a3da5, 0x1181ed99), 0x00000000,
      Hash(0x82aa6728, 0x4e925823, 0xc82f758b, 0xc65afb9d, 0x644a3da5));
    OneRound(18, Hash(0x82aa6728, 0x4e925823, 0xc82f758b, 0xc65afb9d, 0x644a3da5), 0x00000030,
      Hash(0xdc64901d, 0x82aa6728, 0xd3a49608, 0xc82f758b, 0xc65afb9d));
    OneRound(19, Hash(0xdc64901d, 0x82aa6728, 0xd3a49608, 0xc82f758b, 0xc65afb9d), 0x85898e01,
      Hash(0xfd9e1d7d, 0xdc64901d, 0x20aa99ca, 0xd3a49608, 0xc82f758b));
    OneRound(20, Hash(0xfd9e1d7d, 0xdc64901d, 0x20aa99ca, 0xd3a49608, 0xc82f758b), 0x00000000,
      Hash(0x1a37b0ca, 0xfd9e1d7d, 0x77192407, 0x20aa99ca, 0xd3a49608));
    OneRound(21, Hash(0x1a37b0ca, 0xfd9e1d7d, 0x77192407, 0x20aa99ca, 0xd3a49608), 0x00000060,
      Hash(0x33a23bfc, 0x1a37b0ca, 0x7f67875f, 0x77192407, 0x20aa99ca));
    OneRound(22, Hash(0x33a23bfc, 0x1a37b0ca, 0x7f67875f, 0x77192407, 0x20aa99ca), 0x0b131c03,
      Hash(0x21283486, 0x33a23bfc, 0x868dec32, 0x7f67875f, 0x77192407));
    OneRound(23, Hash(0x21283486, 0x33a23bfc, 0x868dec32, 0x7f67875f, 0x77192407), 0x00000030,
      Hash(0xd541f12d, 0x21283486, 0x0ce88eff, 0x868dec32, 0x7f67875f));
    OneRound(24, Hash(0xd541f12d, 0x21283486, 0x0ce88eff, 0x868dec32, 0x7f67875f), 0x85898ec1,
      Hash(0xc7567dc6, 0xd541f12d, 0x884a0d21, 0x0ce88eff, 0x868dec32));
    OneRound(25, Hash(0xc7567dc6, 0xd541f12d, 0x884a0d21, 0x0ce88eff, 0x868dec32), 0x16263806,
      Hash(0x48413ba4, 0xc7567dc6, 0x75507c4b, 0x884a0d21, 0x0ce88eff));
    OneRound(26, Hash(0x48413ba4, 0xc7567dc6, 0x75507c4b, 0x884a0d21, 0x0ce88eff), 0x00000000,
      Hash(0xbe35fbd5, 0x48413ba4, 0xb1d59f71, 0x75507c4b, 0x884a0d21));
    OneRound(27, Hash(0xbe35fbd5, 0x48413ba4, 0xb1d59f71, 0x75507c4b, 0x884a0d21), 0x00000180,
      Hash(0x4aa84d97, 0xbe35fbd5, 0x12104ee9, 0xb1d59f71, 0x75507c4b));
    OneRound(28, Hash(0x4aa84d97, 0xbe35fbd5, 0x12104ee9, 0xb1d59f71, 0x75507c4b), 0x2c4c700c,
      Hash(0x8370b52e, 0x4aa84d97, 0x6f8d7ef5, 0x12104ee9, 0xb1d59f71));
    OneRound(29, Hash(0x8370b52e, 0x4aa84d97, 0x6f8d7ef5, 0x12104ee9, 0xb1d59f71), 0x000000f0,
      Hash(0xc5fbaf5d, 0x8370b52e, 0xd2aa1365, 0x6f8d7ef5, 0x12104ee9));
    OneRound(30, Hash(0xc5fbaf5d, 0x8370b52e, 0xd2aa1365, 0x6f8d7ef5, 0x12104ee9), 0x93afb507,
      Hash(0x1267b407, 0xc5fbaf5d, 0xa0dc2d4b, 0xd2aa1365, 0x6f8d7ef5));
    OneRound(31, Hash(0x1267b407, 0xc5fbaf5d, 0xa0dc2d4b, 0xd2aa1365, 0x6f8d7ef5), 0x5898e048,
      Hash(0x3b845d33, 0x1267b407, 0x717eebd7, 0xa0dc2d4b, 0xd2aa1365));
  }

  lemma Rounds32()
    ensures At(48, Hash(0xbead02ca, 0xa01b846c, 0x8714787c, 0x503ca382, 0xfb86c6ab))
  {
    hide Has, At;
    Words32();
    Rounds16();
    OneRound(32, Hash(0x3b845d33, 0x1267b407, 0x717eebd7, 0xa0dc2d4b, 0xd2aa1365), 0x8e9a9202,
      Hash(0x046faa0a, 0x3b845d33, 0xc499ed01, 0x717eebd7, 0xa0dc2d4b));
    OneRound(33, Hash(0x046faa0a, 0x3b845d33, 0xc499ed01, 0x717eebd7, 0xa0dc2d4b), 0x00000600,
      Hash(0x2c0ebc11, 0x046faa0a, 0xcee1174c, 0xc499ed01, 0x717eebd7));
    OneRound(34, Hash(0x2c0ebc11, 0x046faa0a, 0xcee1174c, 0xc499ed01, 0x717eebd7), 0xb131c0f0,
      Hash(0x21796ad4, 0x2c0ebc11, 0x811bea82, 0xcee1174c, 0xc499ed01));
    OneRound(35, Hash(0x21796ad4, 0x2c0ebc11, 0x811bea82, 0xcee1174c, 0xc499ed01), 0x16263bc6,
      Hash(0xdcbbb0cb, 0x21796ad4, 0x4b03af04, 0x811bea82, 0xcee1174c));
    OneRound(36, Hash(0xdcbbb0cb, 0x21796ad4, 0x4b03af04, 0x811bea82, 0xcee1174c), 0x4ebed41e,
      Hash(0x0f511fd8, 0xdcbbb0cb, 0x085e5ab5, 0x4b03af04, 0x811bea82));
    OneRound(37, Hash(0x0f511fd8, 0xdcbbb0cb, 0x085e5ab5, 0x4b03af04, 0x811bea82), 0x626380a1,
      Hash(0xdc63973f, 0x0f511fd8, 0xf72eec32, 0x085e5ab5, 0x4b03af04));
    OneRound(38, Hash(0xdc63973f, 0x0f511fd8, 0xf72eec32, 0x085e5ab5, 0x4b03af04), 0x16263806,
      Hash(0x4c986405, 0xdc63973f, 0x03d447f6, 0xf72eec32, 0x085e5ab5));
    OneRound(39, Hash(0x4c986405, 0xdc63973f, 0x03d447f6, 0xf72eec32, 0x085e5ab5), 0x000018c0,
      Hash(0x32de1cba, 0x4c986405, 0xf718e5cf, 0x03d447f6, 0xf72eec32));
    OneRound(40, Hash(0x32de1cba, 0x4c986405, 0xf718e5cf, 0x03d447f6, 0xf72eec32), 0xd2e138c4,
      Hash(0xfc87dedf, 0x32de1cba, 0x53261901, 0xf718e5cf, 0x03d447f6));
    OneRound(41, Hash(0xfc87dedf, 0x32de1cba, 0x53261901, 0xf718e5cf, 0x03d447f6), 0x00000f00,
      Hash(0x970a0d5c, 0xfc87dedf, 0x8cb7872e, 0x53261901, 0xf718e5cf));
    OneRound(42, Hash(0x970a0d5c, 0xfc87dedf, 0x8cb7872e, 0x53261901, 0xf718e5cf), 0x3afb5079,
      Hash(0x7f193dc5, 0x970a0d5c, 0xff21f7b7, 0x8cb7872e, 0x53261901));
    OneRound(43, Hash(0x7f193dc5, 0x970a0d5c, 0xff21f7b7, 0x8cb7872e, 0x53261901), 0x898e04e5,
      Hash(0xee1b1aaf, 0x7f193dc5, 0x25c28357, 0xff21f7b7, 0x8cb7872e));
    OneRound(44, Hash(0xee1b1aaf, 0x7f193dc5, 0x25c28357, 0xff21f7b7, 0x8cb7872e), 0xe2ba3c2b,
      Hash(0x40f28e09, 0xee1b1aaf, 0x5fc64f71, 0x25c28357, 0xff21f7b7));
    OneRound(45, Hash(0x40f28e09, 0xee1b1aaf, 0x5fc64f71, 0x25c28357, 0xff21f7b7), 0x000060c0,
      Hash(0x1c51e1f2, 0x40f28e09, 0xfb86c6ab, 0x5fc64f71, 0x25c28357));
    OneRound(46, Hash(0x1c51e1f2, 0x40f28e09, 0xfb86c6ab, 0x5fc64f71, 0x25c28357), 0x053a37cd,
      Hash(0xa01b846c, 0x1c51e1f2, 0x503ca382, 0xfb86c6ab, 0x5fc64f71));
    OneRound(47, Hash(0xa01b846c, 0x1c51e1f2, 0x503ca382, 0xfb86c6ab, 0x5fc64f71), 0x74458547,
      Hash(0xbead02ca, 0xa01b846c, 0x8714787c, 0x503ca382, 0xfb86c6ab));
  }

  lemma Rounds48()
    ensures At(64, Hash(0x6b61c9e1, 0xb66c020b, 0x9523272c, 0xf5d5b051, 0x8fd4b796))
  {
    hide Has, At;
    Words48();
    Rounds32();
    OneRound(48, Hash(0xbead02ca, 0xa01b846c, 0x8714787c, 0x503ca382, 0xfb86c6ab), 0xda9415ed,
      Hash(0xbaf39337, 0xbead02ca, 0x2806e11b, 0x8714787c, 0x503ca382));
    OneRound(49, Hash(0xbaf39337, 0xbead02ca, 0x2806e11b, 0x8714787c, 0x503ca382), 0x26380a16,
      Hash(0x120731c5, 0xbaf39337, 0xafab40b2, 0x2806e11b, 0x8714787c));
    OneRound(50, Hash(0x120731c5, 0xbaf39337, 0xafab40b2, 0x2806e11b, 0x8714787c), 0x626383a1,
      Hash(0x641db2ce, 0x120731c5, 0xeebce4cd, 0xafab40b2, 0x2806e11b));
    OneRound(51, Hash(0x641db2ce, 0x120731c5, 0xeebce4cd, 0xafab40b2, 0x2806e11b), 0x4ebf54de,
      Hash(0x3847ad66, 0x641db2ce, 0x4481cc71, 0xeebce4cd, 0xafab40b2));
    OneRound(52, Hash(0x3847ad66, 0x641db2ce, 0x4481cc71, 0xeebce4cd, 0xafab40b2), 0x3835b44b,
      Hash(0xe490436d, 0x3847ad66, 0x99076cb3, 0x4481cc71, 0xeebce4cd));
    OneRound(53, Hash(0xe490436d, 0x3847ad66, 0x99076cb3, 0x4481cc71, 0xeebce4cd), 0x0000f600,
      Hash(0x27e9f1d8, 0xe490436d, 0x8e11eb59, 0x99076cb3, 0x4481cc71));
    OneRound(54, Hash(0x27e9f1d8, 0xe490436d, 0x8e11eb59, 0x99076cb3, 0x4481cc71), 0x1e84c7a3,
      Hash(0x7b71f76d, 0x27e9f1d8, 0x792410db, 0x8e11eb59, 0x99076cb3));
    OneRound(55, Hash(0x7b71f76d, 0x27e9f1d8, 0x792410db, 0x8e11eb59, 0x99076cb3), 0x98e04d98,
      Hash(0x5e6456af, 0x7b71f76d, 0x09fa7c76, 0x792410db, 0x8e11eb59));
    OneRound(56, Hash(0x5e6456af, 0x7b71f76d, 0x09fa7c76, 0x792410db, 0x8e11eb59), 0x651d16a0,
      Hash(0xc846093f, 0x5e6456af, 0x5edc7ddb, 0x09fa7c76, 0x792410db));
    OneRound(57, Hash(0xc846093f, 0x5e6456af, 0x5edc7ddb, 0x09fa7c76, 0x792410db), 0x62658ca1,
      Hash(0xd262ff50, 0xc846093f, 0xd79915ab, 0x5edc7ddb, 0x09fa7c76));
    OneRound(58, Hash(0xd262ff50, 0xc846093f, 0xd79915ab, 0x5edc7ddb, 0x09fa7c76), 0x458544d6,
      Hash(0x09d785fd, 0xd262ff50, 0xf211824f, 0xd79915ab, 0x5edc7ddb));
    OneRound(59, Hash(0x09d785fd, 0xd262ff50, 0xf211824f, 0xd79915ab, 0x5edc7ddb), 0x44584cb7,
      Hash(0x3f52de5a, 0x09d785fd, 0x3498bfd4, 0xf211824f, 0xd79915ab));
    OneRound(60, Hash(0x3f52de5a, 0x09d785fd, 0x3498bfd4, 0xf211824f, 0xd79915ab), 0x7ba06619,
      Hash(0xd756c147, 0x3f52de5a, 0x4275e17f, 0x3498bfd4, 0xf211824f));
    OneRound(61, Hash(0xd756c147, 0x3f52de5a, 0x4275e17f, 0x3498bfd4, 0xf211824f), 0x6380aea2,
      Hash(0x548c9cb2, 0xd756c147, 0x8fd4b796, 0x4275e17f, 0x3498bfd4));
    OneRound(62, Hash(0x548c9cb2, 0xd756c147, 0x8fd4b796, 0x4275e17f, 0x3498bfd4), 0x0ae55269,
      Hash(0xb66c020b, 0x548c9cb2, 0xf5d5b051, 0x8fd4b796, 0x4275e17f));
    OneRound(63, Hash(0xb66c020b, 0x548c9cb2, 0xf5d5b051, 0x8fd4b796, 0x4275e17f), 0x627b49a1,
      Hash(0x6b61c9e1, 0xb66c020b, 0x9523272c, 0xf5d5b051, 0x8fd4b796));
  }

  lemma Rounds64()
    ensures At(80, Hash(0x42541b35, 0x5738d5e1, 0x21834873, 0x681e6df6, 0xd8fdf6ad))
  {
    hide Has, At;
    Words64();
    Rounds48();
    OneRound(64, Hash(0x6b61c9e1, 0xb66c020b, 0x9523272c, 0xf5d5b051, 0x8fd4b796), 0x7cd45c9d,
      Hash(0x19dfa7ac, 0x6b61c9e1, 0xed9b0082, 0x9523272c, 0xf5d5b051));
    OneRound(65, Hash(0x19dfa7ac, 0x6b61c9e1, 0xed9b0082, 0x9523272c, 0xf5d5b051), 0x000f0000,
      Hash(0x101655f9, 0x19dfa7ac, 0x5ad87278, 0xed9b0082, 0x9523272c));
    OneRound(66, Hash(0x101655f9, 0x19dfa7ac, 0x5ad87278, 0xed9b0082, 0x9523272c), 0xfb50753a,
      Hash(0x0c3df2b4, 0x101655f9, 0x0677e9eb, 0x5ad87278, 0xed9b0082));
    OneRound(67, Hash(0x0c3df2b4, 0x101655f9, 0x0677e9eb, 0x5ad87278, 0xed9b0082), 0xec6765e8,
      Hash(0x78dd4d2b, 0x0c3df2b4, 0x4405957e, 0x0677e9eb, 0x5ad87278));
    OneRound(68, Hash(0x78dd4d2b, 0x0c3df2b4, 0x4405957e, 0x0677e9eb, 0x5ad87278), 0xba3c2be2,
      Hash(0x497093c0, 0x78dd4d2b, 0x030f7cad, 0x4405957e, 0x0677e9eb));
    OneRound(69, Hash(0x497093c0, 0x78dd4d2b, 0x030f7cad, 0x4405957e, 0x0677e9eb), 0x0060c000,
      Hash(0x3f2588c2, 0x497093c0, 0xde37534a, 0x030f7cad, 0x4405957e));
    OneRound(70, Hash(0x3f2588c2, 0x497093c0, 0xde37534a, 0x030f7cad, 0x4405957e), 0x3a37cd05,
      Hash(0xc199f8c7, 0x3f2588c2, 0x125c24f0, 0xde37534a, 0x030f7cad));
    OneRound(71, Hash(0xc199f8c7, 0x3f2588c2, 0x125c24f0, 0xde37534a, 0x030f7cad), 0x458546f4,
      Hash(0x39859de7, 0xc199f8c7, 0x8fc96230, 0x125c24f0, 0xde37534a));
    OneRound(72, Hash(0x39859de7, 0xc199f8c7, 0x8fc96230, 0x125c24f0, 0xde37534a), 0xb8599dd6,
      Hash(0xedb42de4, 0x39859de7, 0xf0667e31, 0x8fc96230, 0x125c24f0));
    OneRound(73, Hash(0xedb42de4, 0x39859de7, 0xf0667e31, 0x8fc96230, 0x125c24f0), 0x380a1a26,
      Hash(0x11793f6f, 0xedb42de4, 0xce616779, 0xf0667e31, 0x8fc96230));
    OneRound(74, Hash(0x11793f6f, 0xedb42de4, 0xce616779, 0xf0667e31, 0x8fc96230), 0x01e02203,
      Hash(0x5ee76897, 0x11793f6f, 0x3b6d0b79, 0xce616779, 0xf0667e31));
    OneRound(75, Hash(0x5ee76897, 0x11793f6f, 0x3b6d0b79, 0xce616779, 0xf0667e31), 0xe7cc3456,
      Hash(0x63f7dab7, 0x5ee76897, 0xc45e4fdb, 0x3b6d0b79, 0xce616779));
    OneRound(76, Hash(0x63f7dab7, 0x5ee76897, 0xc45e4fdb, 0x3b6d0b79, 0xce616779), 0xe6e60b69,
      Hash(0xa079b7d9, 0x63f7dab7, 0xd7b9da25, 0xc45e4fdb, 0x3b6d0b79));
    OneRound(77, Hash(0xa079b7d9, 0x63f7dab7, 0xd7b9da25, 0xc45e4fdb, 0x3b6d0b79), 0x00f60a00,
      Hash(0x860d21cc, 0xa079b7d9, 0xd8fdf6ad, 0xd7b9da25, 0xc45e4fdb));
    OneRound(78, Hash(0x860d21cc, 0xa079b7d9, 0xd8fdf6ad, 0xd7b9da25, 0xc45e4fdb), 0x5795ef4f,
      Hash(0x5738d5e1, 0x860d21cc, 0x681e6df6, 0xd8fdf6ad, 0xd7b9da25));
    OneRound(79, Hash(0x5738d5e1, 0x860d21cc, 0x681e6df6, 0xd8fdf6ad, 0xd7b9da25), 0x822e0879,
      Hash(0x42541b35, 0x5738d5e1, 0x21834873, 0x681e6df6, 0xd8fdf6ad));
  }

  lemma {:induction false} NothingAsZeros(n: nat)
    ensures BigEndian(0, n) == Zeros(n)
  {
    if n > 0 {
      NothingAsZeros(n - 1);
      assert Zeros(n - 1) + [0] == Zeros(n);
    }
  }

  lemma AbcPadded()
    ensures Padded(ABC) == AbcBlock()
  {
    assert ZeroCount(3) == 52;
    NothingAsZeros(7);
    assert BigEndian(24, 8) == BigEndian(0, 7) + [24];
    hide BigEndian;
    assert Padded(ABC) == ABC + [0x80] + Zeros(52) + (Zeros(7) + [24]);
    assert Zeros(52) + Zeros(7) == Zeros(59);
  }

  lemma OneBlock(h: Hash, b: Block)
    ensures HashBlocks(h, b) == Compress(h, b)
  {
    hide Compress;
    assert b[..64] == b && b[64..] == [];
  }

  lemma BytesOf(w: Word, b0: Byte, b1: Byte, b2: Byte, b3: Byte)
    requires LowByte(w >> 24) == b0 && LowByte(w >> 16) == b1 && LowByte(w >> 8) == b2 && LowByte(w) == b3
    ensures WordBytes(w) == [b0, b1, b2, b3]
  {
    hide LowByte;
  }

  lemma AbcHash()
    ensures HashBlocks(INITIAL, Padded(ABC)) == Hash(0xa9993e36, 0x4706816a, 0xba3e2571, 0x7850c26c, 0x9cd0d89d)
  {
    AbcPadded();
    OneBlock(INITIAL, AbcBlock());
    Rounds64();
    Added(Hash(0x67452301, 0xefcdab89, 0x98badcfe, 0x10325476, 0xc3d2e1f0), Hash(0x42541b35, 0x5738d5e1, 0x21834873, 0x681e6df6, 0xd8fdf6ad), Hash(0xa9993e36, 0x4706816a, 0xba3e2571, 0x7850c26c, 0x9cd0d89d));
  }

  lemma Added(g: Hash, r: Hash, s: Hash)
    requires AddHash(g, r) == s
    requires g == INITIAL && At(80, r)
    ensures Compress(INITIAL, AbcBlock()) == s
  {
    hide AddHash, AbcBlock;
  }

  lemma AbcBytes()
    ensures HashBytes(Hash(0xa9993e36, 0x4706816a, 0xba3e2571, 0x7850c26c, 0x9cd0d89d)) == [
              0xa9, 0x99, 0x3e, 0x36,
              0x47, 0x06, 0x81, 0x6a,
              0xba, 0x3e, 0x25, 0x71,
              0x78, 0x50, 0xc2, 0x6c,
              0x9c, 0xd0, 0xd8, 0x9d]
  {
    hide WordBytes;
    BytesOf(0xa9993e36, 0xa9, 0x99, 0x3e, 0x36);
    BytesOf(0x4706816a, 0x47, 0x06, 0x81, 0x6a);
    BytesOf(0xba3e2571, 0xba, 0x3e, 0x25, 0x71);
    BytesOf(0x7850c26c, 0x78, 0x50, 0xc2, 0x6c);
    BytesOf(0x9cd0d89d, 0x9c, 0xd0, 0xd8, 0x9d);
  }

  /** The digest of abc is a9993e36 4706816a ba3e2571 7850c26c 9cd0d89d. */
  lemma KnownAnswer()
    ensures Sha1(ABC) == [
              0xa9, 0x99, 0x3e, 0x36,
              0x47, 0x06, 0x81, 0x6a,
              0xba, 0x3e, 0x25, 0x71,
              0x78, 0x50, 0xc2, 0x6c,
              0x9c, 0xd0, 0xd8, 0x9d]
  {
    hide HashBytes, HashBlocks, Padded;
    AbcHash();
    AbcBytes();
  }
}
