/** Interval-tagged GUIDs and the wrap-around order of their numbers (njclient.cpp,
    docs/CHANNEL_ALIGNMENT.md section 2; the comparison is that of RFC 1982 section 3.2). */
module IntervalTag {
  import opened Bytes
  import opened Options

  type Guid = g: seq<Byte> | |g| == 16 witness seq(16, _ => 0)

  /** The true number of each interval, of which a tag keeps 32 bits. */
  type Numbering = Guid -> int

  const ZERO_GUID: Guid := [0, 0, 0, 0, 0, 0, 0, 0, 0, 0, 0, 0, 0, 0, 0, 0]

  const SESSION := 2
  const SESSION_LEN := 6

  /** The interval number a GUID is tagged with, if it is tagged. */
  function IntervalOf(g: Guid): (t: Option<int>)
    ensures t.Some? ==> 0 <= t.value < TWO_32
  {
    if g[12] != 'N' as int || g[13] != 'Z' as int || g[14] != 1 then None
    else Some(g[8] as int * 0x100_0000 + g[9] as int * 0x1_0000 + g[10] as int * 0x100 + g[11] as int)
  }

  function SessionOf(g: Guid): seq<Byte> {
    g[SESSION..SESSION + SESSION_LEN]
  }

  predicate SameSession(g: Guid, h: Guid) {
    SessionOf(g) == SessionOf(h)
  }

  /** Tagged GUIDs carry N, Z and 1 behind the number, which has its high byte first. */
  lemma TagBytes(g: Guid)
    ensures IntervalOf(g).Some? <==> g[12] == 0x4e && g[13] == 0x5a && g[14] == 1
    ensures IntervalOf(g).Some? ==>
              IntervalOf(g).value == g[8] as int * 16777216 + g[9] as int * 65536 + g[10] as int * 256 + g[11] as int
    ensures forall h: Guid :: SameSession(g, h) <==> g[2..8] == h[2..8]
  {
  }

  /** Writes the tag into a GUID whose bytes were drawn at random. */
  method MakeIntervalGuid(guid: array<Byte>, session: seq<Byte>, interval: nat, chidx: nat)
    requires guid.Length == 16 && |session| == SESSION_LEN
    modifies guid
    ensures guid[..2] == old(guid[..2])
    ensures IntervalOf(guid[..]) == Some(interval % TWO_32)
    ensures guid[2..8] == session && guid[12] == 0x4e && guid[13] == 0x5a && guid[14] == 1
    ensures guid[8] as int * 16777216 + guid[9] as int * 65536 + guid[10] as int * 256 + guid[11] as int == interval % 4294967296
    ensures SessionOf(guid[..]) == session && guid[15] == chidx % 256
  {
    forall i | 0 <= i < SESSION_LEN {
      guid[SESSION + i] := session[i];
    }
    guid[8], guid[9] := interval / 0x100_0000 % 256, interval / 0x1_0000 % 256;
    guid[10], guid[11] := interval / 0x100 % 256, interval % 256;
    guid[12], guid[13], guid[14] := 'N' as int, 'Z' as int, 1;
    guid[15] := chidx % 256;
    FourDigits(interval);
  }

  lemma FourDigits(n: nat)
    ensures n / 0x100_0000 % 256 * 0x100_0000 + n / 0x1_0000 % 256 * 0x1_0000 + n / 0x100 % 256 * 0x100 + n % 256 == n % TWO_32
  {
    var a := n / 0x100_0000;
    assert n / 0x1_0000 == a * 256 + n / 0x1_0000 % 256;
    assert n / 0x100 == a * 0x1_0000 + n / 0x1_0000 % 256 * 256 + n / 0x100 % 256;
    assert n == a * 0x100_0000 + n / 0x1_0000 % 256 * 0x1_0000 + n / 0x100 % 256 * 256 + n % 256;
    assert a == a / 256 * 256 + a % 256;
  }

  /** (int)(a - b) on 32-bit interval numbers. */
  function Ahead(a: int, b: int): int {
    ToInt32(a - b)
  }

  /** The wrap-around comparison gives the true distance exactly within half the range. */
  lemma AheadIsDistance(m: int, n: int)
    ensures Ahead(m % TWO_32, n % TWO_32) == m - n <==> -TWO_31 <= m - n < TWO_31
  {
    var d, e := m / TWO_32, n / TWO_32;
    assert m % TWO_32 - n % TWO_32 == (m - n) + (e - d) * TWO_32;
    SameResidue(m - n, e - d);
  }

  lemma SameResidue(x: int, k: int)
    ensures (x + k * TWO_32) % TWO_32 == x % TWO_32
  {
  }
}
