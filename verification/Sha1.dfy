/** SHA-1 as FIPS 180-4 defines it: padding (section 5.1.1), parsing (5.2.1), functions and
    constants (4.1.1, 4.2.1), hash computation (6.1.2). */
module Sha1Standard {
  import opened Bytes

  type Word = bv32

  datatype Hash = Hash(a: Word, b: Word, c: Word, d: Word, e: Word)

  const INITIAL := Hash(0x67452301, 0xefcdab89, 0x98badcfe, 0x10325476, 0xc3d2e1f0)

  function Rotl(x: Word, n: Word): Word
    requires n < 32
  {
    (x << n) | (x >> (32 - n))
  }

  function Ch(x: Word, y: Word, z: Word): Word { (x & y) ^ (!x & z) }

  function Parity(x: Word, y: Word, z: Word): Word { x ^ y ^ z }

  function Maj(x: Word, y: Word, z: Word): Word { (x & y) ^ (x & z) ^ (y & z) }

  function F(t: nat, x: Word, y: Word, z: Word): Word {
    if t < 20 then Ch(x, y, z) else if t < 40 then Parity(x, y, z)
    else if t < 60 then Maj(x, y, z) else Parity(x, y, z)
  }

  function K(t: nat): Word {
    if t < 20 then 0x5a827999 else if t < 40 then 0x6ed9eba1
    else if t < 60 then 0x8f1bbcdc else 0xca62c1d6
  }

  type Block = b: seq<Byte> | |b| == 64 witness seq(64, _ => 0)

  function FourBytes(x0: Word, x1: Word, x2: Word, x3: Word): Word {
    (x0 << 24) | (x1 << 16) | (x2 << 8) | x3
  }

  function ByteWord(b: Byte): Word {
    b as bv32
  }

  function BigEndianWord(b0: Byte, b1: Byte, b2: Byte, b3: Byte): Word {
    FourBytes(ByteWord(b0), ByteWord(b1), ByteWord(b2), ByteWord(b3))
  }

  function MessageWord(m: Block, t: nat): Word
    requires t < 16
  {
    BigEndianWord(m[4 * t], m[4 * t + 1], m[4 * t + 2], m[4 * t + 3])
  }

  /** Word t of the message schedule. */
  function Schedule(m: Block, t: nat): Word {
    if t < 16 then MessageWord(m, t)
    else Rotl(Schedule(m, t - 3) ^ Schedule(m, t - 8) ^ Schedule(m, t - 14) ^ Schedule(m, t - 16), 1)
  }

  /** Addition modulo 2^32. */
  function Plus(x: Word, y: Word): Word {
    x + y
  }

  function RoundSum(a: Word, f: Word, e: Word, k: Word, w: Word): Word {
    a + f + e + k + w
  }

  function Round(t: nat, h: Hash, w: Word): Hash {
    Hash(RoundSum(Rotl(h.a, 5), F(t, h.b, h.c, h.d), h.e, K(t), w), h.a, Rotl(h.b, 30), h.c, h.d)
  }

  /** The working variables after t rounds. */
  function Rounds(h: Hash, m: Block, t: nat): Hash {
    if t == 0 then h else Round(t - 1, Rounds(h, m, t - 1), Schedule(m, t - 1))
  }

  function AddHash(h: Hash, g: Hash): Hash {
    Hash(Plus(h.a, g.a), Plus(h.b, g.b), Plus(h.c, g.c), Plus(h.d, g.d), Plus(h.e, g.e))
  }

  function Compress(h: Hash, m: Block): Hash {
    AddHash(h, Rounds(h, m, 80))
  }

  /** The hash value after the whole blocks of m. */
  function HashBlocks(h: Hash, m: seq<Byte>): Hash
    decreases |m|
  {
    if |m| < 64 then h else HashBlocks(Compress(h, m[..64]), m[64..])
  }

  /** x as n bytes, most significant first. */
  function BigEndian(x: nat, n: nat): (r: seq<Byte>)
    ensures |r| == n
  {
    if n == 0 then [] else BigEndian(x / 256, n - 1) + [x % 256]
  }

  function Zeros(n: nat): (r: seq<Byte>)
    ensures |r| == n
  {
    seq(n, _ => 0)
  }

  /** The number of zero bytes that make the padded length a multiple of 64. */
  function ZeroCount(len: nat): nat {
    (119 - len % 64) % 64
  }

  function Padded(m: seq<Byte>): seq<Byte>
    requires 8 * |m| < 0x1_0000_0000_0000_0000
  {
    m + [0x80] + Zeros(ZeroCount(|m|)) + BigEndian(8 * |m|, 8)
  }

  function LowByte(w: Word): Byte {
    (w & 0xff) as int
  }

  function WordBytes(w: Word): (r: seq<Byte>)
    ensures |r| == 4
  {
    [LowByte(w >> 24), LowByte(w >> 16), LowByte(w >> 8), LowByte(w)]
  }

  function HashBytes(h: Hash): seq<Byte> {
    WordBytes(h.a) + WordBytes(h.b) + WordBytes(h.c) + WordBytes(h.d) + WordBytes(h.e)
  }

  function Sha1(m: seq<Byte>): seq<Byte>
    requires 8 * |m| < 0x1_0000_0000_0000_0000
  {
    HashBytes(HashBlocks(INITIAL, Padded(m)))
  }

  /** Padding completes the last block, with as few zero bytes as possible. */
  lemma PaddedLength(m: seq<Byte>, k: nat)
    requires 8 * |m| < 0x1_0000_0000_0000_0000
    ensures |Padded(m)| % 64 == 0
    ensures k < ZeroCount(|m|) ==> (|m| + 1 + k + 8) % 64 != 0
  {
    hide BigEndian;
    var q, r := |m| / 64, |m| % 64;
    var z := ZeroCount(|m|);
    assert |Padded(m)| == 64 * q + (r + 9 + z);
    assert r + 9 + z == 64 || r + 9 + z == 128 by {
      ZeroCountFits(r);
    }
    if k < z {
      assert |m| + 1 + k + 8 == 64 * q + (r + 9 + k);
    }
  }

  lemma ZeroCountFits(r: nat)
    requires r < 64
    ensures r <= 55 ==> (119 - r) % 64 == 55 - r
    ensures r > 55 ==> (119 - r) % 64 == 119 - r
  {
  }

  lemma {:induction false} HashOneMore(h: Hash, m: seq<Byte>, b: Block)
    requires exists n :: |m| == 64 * n
    ensures HashBlocks(h, m + b) == Compress(HashBlocks(h, m), b)
    decreases |m|
  {
    if m == [] {
      assert m + b == b && b[..64] == b && b[64..] == [];
    } else {
      assert (m + b)[..64] == m[..64] && (m + b)[64..] == m[64..] + b;
      var n :| |m| == 64 * n;
      assert |m[64..]| == 64 * (n - 1);
      HashOneMore(Compress(h, m[..64]), m[64..], b);
    }
  }
}

/** The streaming object of WDL/sha.cpp. */
module Sha1Stream {
  import opened Bytes
  import Division
  import opened Sha1Standard

  lemma ChooseForm(x: Word, y: Word, z: Word)
    ensures ((y ^ z) & x) ^ z == Ch(x, y, z)
  {
  }

  lemma MajorityForm(x: Word, y: Word, z: Word)
    ensures (x & y) | (z & (x | y)) == Maj(x, y, z)
  {
  }

  function QuarterAdd(a: Word, e: Word, w: Word, k: Word, f: Word): Word {
    a + e + w + k + f
  }

  /** The round sum as sha.cpp writes it in each of its four loops. */
  function QuarterSum(first: nat, a: Word, b: Word, c: Word, d: Word, e: Word, w: Word): Word
    requires first in {0, 20, 40, 60}
  {
    if first == 0 then QuarterAdd(a, e, w, 0x5a827999, ((c ^ d) & b) ^ d)
    else if first == 20 then QuarterAdd(a, e, w, 0x6ed9eba1, b ^ c ^ d)
    else if first == 40 then QuarterAdd(a, e, w, 0x8f1bbcdc, (b & c) | (d & (b | c)))
    else QuarterAdd(a, e, w, 0xca62c1d6, b ^ c ^ d)
  }

  lemma SumOrder(a: Word, f: Word, e: Word, k: Word, w: Word)
    ensures QuarterAdd(a, e, w, k, f) == RoundSum(a, f, e, k, w)
  {
  }

  lemma FirstQuarter(t: nat, b: Word, c: Word, d: Word)
    requires t < 20
    ensures ((c ^ d) & b) ^ d == F(t, b, c, d) && K(t) == 0x5a827999
  {
    hide Ch;
    ChooseForm(b, c, d);
  }

  lemma ThirdQuarter(t: nat, b: Word, c: Word, d: Word)
    requires 40 <= t < 60
    ensures (b & c) | (d & (b | c)) == F(t, b, c, d) && K(t) == 0x8f1bbcdc
  {
    hide Maj;
    MajorityForm(b, c, d);
  }

  lemma ParityQuarters(t: nat, b: Word, c: Word, d: Word)
    requires 20 <= t < 40 || 60 <= t < 80
    ensures b ^ c ^ d == F(t, b, c, d) && K(t) == if t < 40 then 0x6ed9eba1 else 0xca62c1d6
  {
  }

  lemma QuarterIsRound(t: nat, first: nat, a: Word, b: Word, c: Word, d: Word, e: Word, w: Word)
    requires first in {0, 20, 40, 60} && first <= t < first + 20
    ensures QuarterSum(first, a, b, c, d, e, w) == RoundSum(a, F(t, b, c, d), e, K(t), w)
  {
    hide RoundSum, QuarterAdd, F, K;
    if first == 0 {
      FirstQuarter(t, b, c, d);
    } else if first == 40 {
      ThirdQuarter(t, b, c, d);
    } else {
      ParityQuarters(t, b, c, d);
    }
    SumOrder(a, F(t, b, c, d), e, K(t), w);
  }

  function Push(w: Word, x: Word): Word {
    (w << 8) | x
  }

  /** A schedule word after some bytes were shifted into it from the right. */
  function Shifted(w: Word, bytes: seq<Byte>): Word {
    if bytes == [] then w
    else Push(Shifted(w, bytes[..|bytes| - 1]), ByteWord(bytes[|bytes| - 1]))
  }

  /** Four bytes push out whatever the word held before. */
  lemma FourBytesFill(w: Word, b0: Byte, b1: Byte, b2: Byte, b3: Byte)
    ensures Shifted(w, [b0, b1, b2, b3]) == BigEndianWord(b0, b1, b2, b3)
  {
    hide Push, FourBytes, ByteWord;
    var bs := [b0, b1, b2, b3];
    assert bs[..3] == [b0, b1, b2] && [b0, b1, b2][..2] == [b0, b1] && [b0, b1][..1] == [b0] && [b0][..0] == [];
    assert Shifted(w, [b0]) == Push(w, ByteWord(b0));
    assert Shifted(w, [b0, b1]) == Push(Shifted(w, [b0]), ByteWord(b1));
    assert Shifted(w, [b0, b1, b2]) == Push(Shifted(w, [b0, b1]), ByteWord(b2));
    FourPushes(w, ByteWord(b0), ByteWord(b1), ByteWord(b2), ByteWord(b3));
  }

  lemma FourPushes(w: Word, x0: Word, x1: Word, x2: Word, x3: Word)
    ensures Push(Push(Push(Push(w, x0), x1), x2), x3) == FourBytes(x0, x1, x2, x3)
  {
    SecondPush(w, x0, x1);
    ThirdPush(w, x0, x1, x2);
    FourthPush(w, x0, x1, x2, x3);
    hide Push, FourBytes;
  }

  lemma SecondPush(w: Word, x0: Word, x1: Word)
    ensures Push(Push(w, x0), x1) == (w << 16) | (x0 << 8) | x1
  {
  }

  lemma ThirdPush(w: Word, x0: Word, x1: Word, x2: Word)
    ensures Push((w << 16) | (x0 << 8) | x1, x2) == (w << 24) | (x0 << 16) | (x1 << 8) | x2
  {
  }

  lemma FourthPush(w: Word, x0: Word, x1: Word, x2: Word, x3: Word)
    ensures Push((w << 24) | (x0 << 16) | (x1 << 8) | x2, x3) == FourBytes(x0, x1, x2, x3)
  {
  }

  /** What the first 16 schedule words hold while a block is being filled. */
  predicate WordsHold(w: seq<Word>, before: Word, tail: seq<Byte>)
    requires |w| >= 16 && |tail| <= 64
  {
    && (forall t :: 0 <= t < |tail| / 4 ==> w[t] == WordAt(tail, t))
    && (|tail| % 4 != 0 ==> w[|tail| / 4] == Shifted(before, tail[|tail| - |tail| % 4..]))
  }

  function WordAt(tail: seq<Byte>, t: nat): Word
    requires 4 * t + 4 <= |tail|
  {
    BigEndianWord(tail[4 * t], tail[4 * t + 1], tail[4 * t + 2], tail[4 * t + 3])
  }

  /** Storing the next byte keeps them so. */
  lemma StoreByte(w: seq<Word>, before: Word, tail: seq<Byte>, x: Byte)
    requires |w| >= 16 && |tail| < 64 && WordsHold(w, before, tail)
    ensures var i := |tail| / 4;
            WordsHold(w[i := Push(w[i], ByteWord(x))], if |tail| % 4 == 0 then w[i] else before, tail + [x])
  {
    hide Push, BigEndianWord, ByteWord, Shifted;
    var i, r := |tail| / 4, |tail| % 4;
    var w' := w[i := Push(w[i], ByteWord(x))];
    var before' := if r == 0 then w[i] else before;
    var start, tail' := tail[|tail| - r..], tail + [x];
    NothingShifted(before', start);
    ShiftOne(before', start, x);
    assert tail'[4 * i..] == start + [x];
    forall t | 0 <= t < i
      ensures w'[t] == WordAt(tail', t)
    {
      assert WordAt(tail', t) == WordAt(tail, t);
    }
    if r == 3 {
      FullWord(before', tail', i);
    }
  }

  lemma NothingShifted(w: Word, start: seq<Byte>)
    ensures start == [] ==> Shifted(w, start) == w
  {
  }

  lemma ShiftOne(w: Word, start: seq<Byte>, x: Byte)
    ensures Shifted(w, start + [x]) == Push(Shifted(w, start), ByteWord(x))
  {
    hide Push, ByteWord;
    assert (start + [x])[..|start|] == start;
  }

  lemma FullWord(before: Word, tail: seq<Byte>, i: nat)
    requires |tail| == 4 * i + 4
    ensures Shifted(before, tail[4 * i..]) == WordAt(tail, i)
  {
    hide BigEndianWord, Shifted;
    FourBytesFill(before, tail[4 * i], tail[4 * i + 1], tail[4 * i + 2], tail[4 * i + 3]);
    assert tail[4 * i..] == [tail[4 * i], tail[4 * i + 1], tail[4 * i + 2], tail[4 * i + 3]];
  }

  /** The two counter words hold the bit count of n bytes modulo 2^64. */
  predicate Counts(size: (nat, nat), n: nat) {
    size == ((8 * n) % TWO_32, (8 * n) / TWO_32 % TWO_32)
  }

  /** Short of 2^64 they hold the count itself. */
  lemma CountsAll(size: (nat, nat), n: nat)
    requires Counts(size, n) && 8 * n < TWO_32 * TWO_32
    ensures size.0 < TWO_32 && size.1 < TWO_32 && size.1 * TWO_32 + size.0 == 8 * n
  {
    Division.Unique(8 * n / TWO_32, TWO_32, 0, 8 * n / TWO_32);
  }

  function Bumped(size: (nat, nat)): (nat, nat) {
    var lo := (size.0 + 8) % TWO_32;
    (lo, if lo < 8 then (size.1 + 1) % TWO_32 else size.1)
  }

  lemma CountStep(size: (nat, nat), n: nat)
    requires Counts(size, n)
    ensures Counts(Bumped(size), n + 1)
  {
    var hi, lo := (8 * n) / TWO_32, (8 * n) % TWO_32;
    var k := n - 0x2000_0000 * hi;
    assert lo == 8 * k;
    if lo + 8 < TWO_32 {
      Division.Unique(8 * n + 8, TWO_32, hi, lo + 8);
      Division.Unique(lo + 8, TWO_32, 0, lo + 8);
    } else {
      Division.Unique(8 * n + 8, TWO_32, hi + 1, 0);
      Division.Unique(lo + 8, TWO_32, 1, 0);
      CarryOut(hi);
    }
  }

  lemma CarryOut(hi: nat)
    ensures (hi % TWO_32 + 1) % TWO_32 == (hi + 1) % TWO_32
  {
    Division.Shift(hi % TWO_32 + 1, hi / TWO_32, TWO_32);
  }

  lemma NoZeros(m: seq<Byte>)
    ensures m + Zeros(0) == m
  {
  }

  lemma OneMoreZero(m: seq<Byte>, k: nat)
    ensures m + Zeros(k) + [0x00] == m + Zeros(k + 1)
  {
  }

  function NextWord(w3: Word, w8: Word, w14: Word, w16: Word): Word {
    Rotl(w3 ^ w8 ^ w14 ^ w16, 1)
  }

  lemma ScheduleStep(m: Block, t: nat)
    requires t >= 16
    ensures Schedule(m, t) == NextWord(Schedule(m, t - 3), Schedule(m, t - 8), Schedule(m, t - 14), Schedule(m, t - 16))
  {
    hide Rotl, MessageWord;
  }

  lemma ScheduleStart(m: Block, t: nat)
    requires t < 16
    ensures Schedule(m, t) == MessageWord(m, t)
  {
  }

  lemma ZerosLeft(n: nat, k: nat, blocks: nat, lenW: nat)
    requires k <= ZeroCount(n) && lenW < 64 && lenW != 56
    requires n + 1 + k == 64 * blocks + lenW
    ensures k < ZeroCount(n)
  {
  }

  lemma ZerosDone(n: nat, k: nat, blocks: nat)
    requires k <= ZeroCount(n) && n + 1 + k == 64 * blocks + 56
    ensures k == ZeroCount(n)
  {
  }

  /** The two words as sha.cpp lays them out. */
  function EightBytes(hi: nat, lo: nat): (r: seq<Byte>)
    requires hi < TWO_32 && lo < TWO_32
    ensures r == BigEndian(hi * TWO_32 + lo, 8)
  {
    FourMore(lo, hi, 4);
    FourMore(hi, 0, 0);
    NoBytes(0);
    [hi / 0x100_0000 % 256, hi / 0x1_0000 % 256, hi / 0x100 % 256, hi % 256,
     lo / 0x100_0000 % 256, lo / 0x1_0000 % 256, lo / 0x100 % 256, lo % 256]
  }

  lemma NoBytes(x: nat)
    ensures BigEndian(x, 0) == []
  {
  }

  lemma FourMore(lo: nat, hi: nat, n: nat)
    requires lo < TWO_32
    ensures BigEndian(hi * TWO_32 + lo, n + 4) ==
            BigEndian(hi, n) + [lo / 0x100_0000 % 256, lo / 0x1_0000 % 256, lo / 0x100 % 256, lo % 256]
  {
    hide BigEndian;
    DivideTwice(lo);
    var x1 := hi * 0x100_0000 + lo / 256;
    var x2 := hi * 0x1_0000 + lo / 0x1_0000;
    var x3 := hi * 0x100 + lo / 0x100_0000;
    OneMore(hi * TWO_32 + lo, x1, lo % 256, n + 3);
    OneMore(x1, x2, lo / 0x100 % 256, n + 2);
    OneMore(x2, x3, lo / 0x1_0000 % 256, n + 1);
    OneMore(x3, hi, lo / 0x100_0000 % 256, n);
  }

  lemma DivideTwice(lo: nat)
    ensures lo / 256 / 256 == lo / 0x1_0000 && lo / 0x1_0000 / 256 == lo / 0x100_0000
    ensures lo < TWO_32 ==> lo / 0x100_0000 < 256
  {
  }

  lemma OneMore(x: nat, y: nat, b: Byte, n: nat)
    requires x == 256 * y + b
    ensures BigEndian(x, n + 1) == BigEndian(y, n) + [b]
  {
  }

  function UpEight(w: Word): Word {
    w << 8
  }

  /** A hash word after its top bytes were shifted out. */
  function ShiftedOut(w: Word, n: nat): Word {
    if n == 0 then w else UpEight(ShiftedOut(w, n - 1))
  }

  function TopByteOf(w: Word): Byte {
    LowByte(w >> 24)
  }

  lemma OneOut(w: Word, n: nat)
    ensures ShiftedOut(w, n + 1) == UpEight(ShiftedOut(w, n))
  {
  }

  /** How many bytes of word w have left when i bytes are out. */
  function BytesOut(i: nat, w: nat): nat {
    if w < i / 4 then 4 else if w == i / 4 then i % 4 else 0
  }

  /** After i bytes are out. */
  ghost predicate Emitted(h: seq<Word>, now: seq<Word>, out: seq<Byte>, i: nat) {
    && |h| == |now| == 5 && |out| == 20 && i <= 20
    && (forall w :: 0 <= w < 5 ==> now[w] == ShiftedOut(h[w], BytesOut(i, w)))
    && (forall w, r :: 0 <= w < 5 && 0 <= r < 4 && 4 * w + r < i ==> out[4 * w + r] == WordBytes(h[w])[r])
  }

  lemma NothingEmitted(h: seq<Word>, out: seq<Byte>)
    requires |h| == 5 && |out| == 20
    ensures Emitted(h, h, out, 0)
  {
  }

  lemma EmitOne(h: seq<Word>, now: seq<Word>, out: seq<Byte>, i: nat)
    requires i < 20 && Emitted(h, now, out, i)
    ensures Emitted(h, now[i / 4 := UpEight(now[i / 4])], out[i := TopByteOf(now[i / 4])], i + 1)
  {
    hide TopByteOf, UpEight, ShiftedOut, WordBytes;
    var v, q := i / 4, i % 4;
    TopByte(h[v], q);
    OneOut(h[v], q);
    var now' := now[v := UpEight(now[v])];
    forall w | 0 <= w < 5
      ensures now'[w] == ShiftedOut(h[w], BytesOut(i + 1, w))
    {
      assert w != v ==> BytesOut(i + 1, w) == BytesOut(i, w);
    }
  }

  lemma AllEmitted(g: Hash, h: seq<Word>, now: seq<Word>, out: seq<Byte>)
    requires h == [g.a, g.b, g.c, g.d, g.e] && |out| == 20 && Emitted(h, now, out, 20)
    ensures out == HashBytes(g)
  {
    hide Emitted, WordBytes;
    WordEmitted(h, now, out, 0);
    WordEmitted(h, now, out, 1);
    WordEmitted(h, now, out, 2);
    WordEmitted(h, now, out, 3);
    WordEmitted(h, now, out, 4);
    assert out[..8] == out[0..4] + out[4..8];
    assert out[..12] == out[..8] + out[8..12];
    assert out[..16] == out[..12] + out[12..16];
    assert out == out[..16] + out[16..20];
  }

  lemma WordEmitted(h: seq<Word>, now: seq<Word>, out: seq<Byte>, w: nat)
    requires w < 5 && Emitted(h, now, out, 20)
    ensures out[4 * w..4 * w + 4] == WordBytes(h[w])
  {
    hide WordBytes, ShiftedOut;
    forall r | 0 <= r < 4
      ensures out[4 * w + r] == WordBytes(h[w])[r]
    {
    }
  }

  lemma TopByte(w: Word, n: nat)
    requires n < 4
    ensures TopByteOf(ShiftedOut(w, n)) == WordBytes(w)[n]
  {
    hide LowByte, UpEight;
    assert ShiftedOut(w, 1) == UpEight(w);
    assert ShiftedOut(w, 2) == UpEight(UpEight(w));
    assert ShiftedOut(w, 3) == UpEight(UpEight(UpEight(w)));
    ByteSlices(w);
  }

  lemma ByteSlices(w: Word)
    ensures TopByteOf(w) == LowByte(w >> 24)
    ensures TopByteOf(UpEight(w)) == LowByte(w >> 16)
    ensures TopByteOf(UpEight(UpEight(w))) == LowByte(w >> 8)
    ensures TopByteOf(UpEight(UpEight(UpEight(w)))) == LowByte(w)
  {
    assert ((w << 8) >> 24) & 0xff == (w >> 16) & 0xff;
    assert (((w << 8) << 8) >> 24) & 0xff == (w >> 8) & 0xff;
    assert ((((w << 8) << 8) << 8) >> 24) & 0xff == w & 0xff;
  }

  class WdlSha1 {
    const H: array<Word>
    const W: array<Word>
    var lenW: nat
    var size: (nat, nat) // low and high half of the bit count

    ghost var fed: seq<Byte>  // every byte added since the last reset
    ghost var blocks: nat     // how many whole blocks those are
    ghost var before: Word    // what the word being filled held before its first byte

    ghost predicate Shape() {
      H.Length == 5 && W.Length == 80 && H != W
    }

    ghost function State(): Hash
      requires Shape()
      reads H
    {
      Hash(H[0], H[1], H[2], H[3], H[4])
    }

    /** The bytes of the unfinished block. */
    ghost function Tail(): seq<Byte>
      requires lenW <= |fed|
      reads this
    {
      fed[|fed| - lenW..]
    }

    ghost predicate Valid()
      reads this, H, W
      ensures Valid() ==> lenW < 64 && |fed| == 64 * blocks + lenW && Counts(size, |fed|)
    {
      && Shape()
      && lenW < 64 && |fed| == 64 * blocks + lenW
      && State() == HashBlocks(INITIAL, fed[..|fed| - lenW])
      && WordsHold(W[..], before, Tail())
      && Counts(size, |fed|)
    }

    constructor ()
      ensures Valid() && fed == [] && fresh(H) && fresh(W)
    {
      H := new Word[5](_ => 0);
      W := new Word[80](_ => 0);
      lenW, size, fed, blocks, before := 0, (0, 0), [], 0, 0;
      new;
      Reset();
    }

    method Reset()
      requires Shape()
      modifies this, H, W
      ensures Valid() && fed == []
    {
      lenW, size := 0, (0, 0);
      H[0], H[1], H[2], H[3], H[4] := 0x67452301, 0xefcdab89, 0x98badcfe, 0x10325476, 0xc3d2e1f0;
      for x := 0 to 80
        invariant State() == INITIAL && lenW == 0 && size == (0, 0)
      {
        W[x] := 0;
      }
      fed, blocks := [], 0;
    }

    method ExtendSchedule(ghost m: Block)
      requires Shape()
      requires forall t :: 0 <= t < 16 ==> W[t] == MessageWord(m, t)
      modifies W
      ensures forall t :: 0 <= t < 80 ==> W[t] == Schedule(m, t)
    {
      hide NextWord, MessageWord, Schedule;
      forall t | 0 <= t < 16
        ensures W[t] == Schedule(m, t)
      {
        ScheduleStart(m, t);
      }
      var t := 16;
      while t < 80
        invariant 16 <= t <= 80
        invariant forall u :: 0 <= u < t ==> W[u] == Schedule(m, u)
      {
        ScheduleStep(m, t);
        W[t] := NextWord(W[t - 3], W[t - 8], W[t - 14], W[t - 16]);
        t := t + 1;
      }
    }

    /** Twenty rounds from round `first`, with the function and constant of that quarter. */
    method TwentyRounds(first: nat, v: Hash, ghost h: Hash, ghost m: Block) returns (r: Hash)
      requires first in {0, 20, 40, 60}
      requires Shape() && forall t :: 0 <= t < 80 ==> W[t] == Schedule(m, t)
      requires v == Rounds(h, m, first)
      ensures r == Rounds(h, m, first + 20)
    {
      hide Rotl, QuarterSum, RoundSum, Schedule, F, K;
      var a, b, c, d, e := v.a, v.b, v.c, v.d, v.e;
      var t := first;
      while t < first + 20
        invariant first <= t <= first + 20
        invariant Hash(a, b, c, d, e) == Rounds(h, m, t)
      {
        QuarterIsRound(t, first, Rotl(a, 5), b, c, d, e, W[t]);
        var temp := QuarterSum(first, Rotl(a, 5), b, c, d, e, W[t]);
        a, b, c, d, e := temp, a, Rotl(b, 30), c, d;
        t := t + 1;
      }
      r := Hash(a, b, c, d, e);
    }

    /** One full block goes into the hash value. */
    method FinishBlock(ghost m: Block)
      requires Shape()
      requires forall t :: 0 <= t < 16 ==> W[t] == MessageWord(m, t)
      modifies H, W
      ensures State() == Compress(old(State()), m)
    {
      hide Round, Schedule, MessageWord, Plus;
      ghost var h := State();
      var v := Hash(H[0], H[1], H[2], H[3], H[4]);
      ExtendSchedule(m);
      v := TwentyRounds(0, v, h, m);
      v := TwentyRounds(20, v, h, m);
      v := TwentyRounds(40, v, h, m);
      v := TwentyRounds(60, v, h, m);
      H[0], H[1], H[2], H[3], H[4] := Plus(H[0], v.a), Plus(H[1], v.b), Plus(H[2], v.c), Plus(H[3], v.d), Plus(H[4], v.e);
    }

    method Add(data: seq<Byte>)
      requires Valid()
      modifies this, H, W
      ensures Valid() && fed == old(fed) + data
    {
      hide Valid;
      for i := 0 to |data|
        invariant Valid() && fed == old(fed) + data[..i]
      {
        AddByte(data[i]);
        assert data[..i + 1] == data[..i] + [data[i]];
      }
    }

    method AddByte(x: Byte)
      requires Valid()
      modifies this, H, W
      ensures Valid() && fed == old(fed) + [x]
    {
      hide HashBlocks, WordsHold, Counts, Bumped, State;
      CountStep(size, |fed|);
      ghost var whole := fed[..|fed| - lenW];
      PutByte(x);
      if lenW % 64 == 0 {
        FinishFullBlock(whole);
      } else {
        assert fed[..|fed| - lenW] == whole;
      }
      CountByte();
    }

    method CountByte()
      modifies this`size
      ensures size == Bumped(old(size))
    {
      size := ((size.0 + 8) % TWO_32, size.1);
      if size.0 < 8 {
        size := (size.0, (size.1 + 1) % TWO_32);
      }
    }

    /** Stores one byte in its schedule word. */
    method PutByte(x: Byte)
      requires Shape() && lenW < 64 && lenW <= |fed| && WordsHold(W[..], before, Tail())
      modifies this`before, this`fed, this`lenW, W
      ensures fed == old(fed) + [x] && lenW == old(lenW) + 1
      ensures WordsHold(W[..], before, Tail())
    {
      hide WordsHold, Push, ByteWord;
      ghost var tail := Tail();
      var i := lenW / 4;
      StoreByte(W[..], before, tail, x);
      if lenW % 4 == 0 {
        before := W[i];
      }
      ghost var w := W[..];
      W[i] := Push(W[i], ByteWord(x));
      assert W[..] == w[i := Push(w[i], ByteWord(x))];
      lenW, fed := lenW + 1, fed + [x];
      assert Tail() == tail + [x];
    }

    /** A full block goes into the hash value and leaves an empty one. */
    method FinishFullBlock(ghost whole: seq<Byte>)
      requires Shape() && lenW == 64 <= |fed| && WordsHold(W[..], before, Tail())
      requires whole == fed[..|fed| - 64] && |whole| == 64 * blocks
      requires State() == HashBlocks(INITIAL, whole)
      modifies H, W, this`lenW, this`blocks
      ensures lenW == 0 && |fed| == 64 * blocks && State() == HashBlocks(INITIAL, fed[..|fed| - 0])
      ensures WordsHold(W[..], before, Tail())
    {
      hide HashBlocks, Compress, BigEndianWord;
      ghost var m: Block := Tail();
      forall t | 0 <= t < 16
        ensures W[t] == MessageWord(m, t)
      {
        assert W[..][t] == WordAt(m, t);
      }
      FinishBlock(m);
      lenW, blocks := 0, blocks + 1;
      HashOneMore(INITIAL, whole, m);
      assert fed == whole + m && fed[..|fed|] == fed;
    }

    /** The hash of everything added since the last reset; the object is left reset. */
    method Result(out: array<Byte>)
      requires Valid() && out.Length >= 20
      requires 8 * |fed| < TWO_32 * TWO_32
      requires out as object != H && out as object != W
      modifies this, H, W, out
      ensures Valid() && fed == []
      ensures out[..20] == Sha1(old(fed))
      ensures out[20..] == old(out[20..])
    {
      hide HashBlocks, WordsHold, HashBytes, Padded, Counts;
      Pad();
      assert fed[..|fed| - lenW] == fed;
      assert State() == HashBlocks(INITIAL, fed);
      EmitHash(out);
      Reset();
    }

    method Pad()
      requires Valid() && 8 * |fed| < TWO_32 * TWO_32
      modifies this, H, W
      ensures Valid() && lenW == 0 && fed == Padded(old(fed))
    {
      hide Valid, BigEndian, Counts, ZeroCount, Zeros;
      ghost var m := fed;
      var padlen := CountBytes();
      Add([0x80]);
      NoZeros(m + [0x80]);
      ghost var k := 0;
      while lenW != 56
        invariant Valid() && k <= ZeroCount(|m|) && fed == m + [0x80] + Zeros(k)
        decreases ZeroCount(|m|) - k
      {
        ZerosLeft(|m|, k, blocks, lenW);
        Add([0x00]);
        OneMoreZero(m + [0x80], k);
        k := k + 1;
      }
      ZerosDone(|m|, k, blocks);
      Add(padlen);
    }

    /** The bit count as eight bytes, most significant first. */
    method CountBytes() returns (padlen: seq<Byte>)
      requires Counts(size, |fed|) && 8 * |fed| < TWO_32 * TWO_32
      ensures padlen == BigEndian(8 * |fed|, 8)
    {
      hide BigEndian, Counts;
      CountsAll(size, |fed|);
      padlen := EightBytes(size.1, size.0);
    }

    /** Writes the five words out, most significant byte first, using H up. */
    method EmitHash(out: array<Byte>)
      requires Shape() && out.Length >= 20
      modifies H, out
      ensures out[..20] == old(HashBytes(State()))
      ensures out[20..] == old(out[20..])
    {
      hide TopByteOf, UpEight, Emitted, HashBytes;
      ghost var h := H[..];
      NothingEmitted(h, out[..20]);
      var i := 0;
      while i < 20
        invariant 0 <= i <= 20
        invariant Emitted(h, H[..], out[..20], i)
        invariant out[20..] == old(out[20..])
      {
        EmitOne(h, H[..], out[..20], i);
        ghost var now, emitted := H[..], out[..20];
        out[i] := TopByteOf(H[i / 4]);
        H[i / 4] := UpEight(H[i / 4]);
        assert H[..] == now[i / 4 := UpEight(now[i / 4])];
        assert out[..20] == emitted[i := TopByteOf(now[i / 4])];
        i := i + 1;
      }
      AllEmitted(old(State()), h, H[..], out[..20]);
    }
  }
}
