/** Messages on the wire (netmsg.cpp): a type byte, a little-endian size, the data. */
module NetMessages {
  import opened Bytes
  import opened HeapBufs
  import opened Options
  import Division

  const NET_MESSAGE_MAX_SIZE := 16384
  const MESSAGE_KEEPALIVE := 0xfd
  const MESSAGE_INVALID := 0xff
  const HEADER_SIZE := 5

  /** A message to send, or one received. */
  datatype Message = Message(mtype: int, data: seq<Byte>)

  const KEEPALIVE := Message(MESSAGE_KEEPALIVE, [])

  function Header(mtype: int, size: nat): (r: seq<Byte>)
    ensures |r| == HEADER_SIZE
  {
    [ToByte(mtype), ToByte(size), ToByte(size / 0x100), ToByte(size / 0x1_0000), ToByte(size / 0x100_0000)]
  }

  function Encode(m: Message): (r: seq<Byte>)
    ensures |r| == HEADER_SIZE + |m.data|
  {
    Header(m.mtype, |m.data|) + m.data
  }

  function EncodeAll(ms: seq<Message>): seq<Byte> {
    if ms == [] then [] else Encode(ms[0]) + EncodeAll(ms[1..])
  }

  function EncodeOpt(m: Option<Message>): seq<Byte> {
    if m.Some? then Encode(m.value) else []
  }

  /** The size field, as the receiver computes it in an int. */
  function SizeIn(h: seq<Byte>): int
    requires |h| >= HEADER_SIZE
  {
    ToInt32(h[1] as int + h[2] as int * 0x100 + h[3] as int * 0x1_0000 + h[4] as int * 0x100_0000)
  }

  /** A header the receiver refuses. */
  predicate BadHeader(h: seq<Byte>) {
    |h| >= HEADER_SIZE && (h[0] == MESSAGE_INVALID || SizeIn(h) < 0 || SizeIn(h) > NET_MESSAGE_MAX_SIZE)
  }

  predicate Sendable(m: Message) {
    0 <= m.mtype < MESSAGE_INVALID && |m.data| <= NET_MESSAGE_MAX_SIZE
  }

  predicate AllSendable(ms: seq<Message>) {
    forall i :: 0 <= i < |ms| ==> Sendable(ms[i])
  }

  lemma SizeReadsBack(mtype: int, size: nat)
    requires size < TWO_31
    ensures SizeIn(Header(mtype, size)) == size
  {
    var a := size / 0x100_0000;
    assert size / 0x1_0000 == a * 0x100 + size / 0x1_0000 % 0x100;
    assert size / 0x100 == size / 0x1_0000 * 0x100 + size / 0x100 % 0x100;
    assert size == size / 0x100 * 0x100 + size % 0x100;
  }

  /** An accepted header is the header of its own type and size. */
  lemma HeaderReadsBack(h: seq<Byte>)
    requires |h| >= HEADER_SIZE && !BadHeader(h)
    ensures 0 <= SizeIn(h) <= NET_MESSAGE_MAX_SIZE && Header(h[0], SizeIn(h)) == h[..HEADER_SIZE]
  {
    var low := h[1] as int + h[2] as int * 0x100;
    var raw := low + h[3] as int * 0x1_0000 + h[4] as int * 0x100_0000;
    assert raw == SizeIn(h) && h[3] == 0 && h[4] == 0;
    Division.Unique(low, 0x100, h[2], h[1]);
  }

  /** The receiver refuses exactly the messages that must not be sent. */
  lemma RefusedIffUnsendable(m: Message, rest: seq<Byte>)
    requires 0 <= m.mtype < 256 && |m.data| < TWO_31
    ensures BadHeader(Encode(m) + rest) <==> !Sendable(m)
    ensures (Encode(m) + rest)[0] == m.mtype && SizeIn(Encode(m) + rest) == |m.data|
  {
    hide ToInt32;
    var h := Encode(m) + rest;
    HeaderOf(m, rest);
    SizeReadsBack(m.mtype, |m.data|);
  }

  lemma HeaderOf(m: Message, rest: seq<Byte>)
    ensures |Encode(m) + rest| >= HEADER_SIZE
    ensures forall i :: 0 <= i < HEADER_SIZE ==> (Encode(m) + rest)[i] == Header(m.mtype, |m.data|)[i]
    ensures (Encode(m) + rest)[HEADER_SIZE..] == m.data + rest
  {
    hide ToByte;
  }

  lemma {:induction false} EncodeAllAppend(a: seq<Message>, b: seq<Message>)
    ensures EncodeAll(a + b) == EncodeAll(a) + EncodeAll(b)
    decreases |a|
  {
    hide Encode;
    if a == [] {
      assert a + b == b;
    } else {
      assert (a + b)[1..] == a[1..] + b;
      EncodeAllAppend(a[1..], b);
    }
  }

  /** Two messages at the front of the same bytes are the same message. */
  lemma FirstMessage(x: Message, xs: seq<Byte>, y: Message, ys: seq<Byte>)
    requires Sendable(x) && Sendable(y) && Encode(x) + xs == Encode(y) + ys
    ensures x == y && xs == ys
  {
    hide Encode, Header, ToInt32;
    RefusedIffUnsendable(x, xs);
    RefusedIffUnsendable(y, ys);
    HeaderOf(x, xs);
    HeaderOf(y, ys);
    var n := |x.data|;
    assert x.data == (x.data + xs)[..n] == (y.data + ys)[..n] == y.data;
    assert xs == (x.data + xs)[n..] == (y.data + ys)[n..] == ys;
  }

  /** Bytes that begin with whole messages of a stream can only be read as those. */
  lemma {:induction false} UniqueReading(got: seq<Message>, rest: seq<Byte>, sent: seq<Message>)
    requires AllSendable(got) && AllSendable(sent) && EncodeAll(got) + rest == EncodeAll(sent)
    ensures got <= sent && rest == EncodeAll(sent[|got|..])
    decreases |got|
  {
    hide Encode;
    if got == [] {
      assert EncodeAll(got) + rest == rest && sent[0..] == sent;
    } else {
      assert |EncodeAll(sent)| > 0;
      assert EncodeAll(got) + rest == Encode(got[0]) + (EncodeAll(got[1..]) + rest);
      FirstMessage(got[0], EncodeAll(got[1..]) + rest, sent[0], EncodeAll(sent[1..]));
      UniqueReading(got[1..], rest, sent[1..]);
      assert sent[1..][|got| - 1..] == sent[|got|..];
      assert got == [got[0]] + got[1..] && sent == [sent[0]] + sent[1..];
    }
  }

  method MakeMessageHeader(m: Message) returns (header: seq<Byte>)
    ensures header == Header(m.mtype, |m.data|)
  {
    header := [ToByte(m.mtype)];
    var size := |m.data|;
    for i := 0 to 4
      invariant header == Header(m.mtype, |m.data|)[..1 + i]
      invariant size == if i == 0 then |m.data| else if i == 1 then |m.data| / 0x100 else if i == 2 then |m.data| / 0x1_0000
                        else if i == 3 then |m.data| / 0x100_0000 else |m.data| / 0x1_0000_0000
    {
      header := header + [ToByte(size)];
      size := size / 0x100;
    }
  }

  /** A message while it is received. */
  class NetMessage {
    const hb: HeapBuf<Byte>
    var parsepos: nat
    var mtype: int

    ghost predicate Valid()
      reads this, hb
    {
      hb.Valid() && parsepos <= hb.size
    }

    /** The data received so far. */
    ghost function Parsed(): (r: seq<Byte>)
      requires Valid()
      reads this, hb, hb.buf
      ensures |r| == parsepos
    {
      hb.buf[..parsepos]
    }

    constructor ()
      ensures Valid() && fresh(hb) && fresh(hb.buf) && Parsed() == []
    {
      hb := new HeapBuf<Byte>(4096);
      parsepos, mtype := 0, MESSAGE_INVALID;
    }

    function ParseBytesNeeded(): int
      reads this, hb
    {
      hb.size - parsepos
    }

    /** Bytes used: 5, or 0 when there are too few, or -1 when they are no header. */
    method ParseMessageHeader(data: seq<Byte>) returns (used: int)
      requires Valid()
      modifies this, hb
      ensures Valid() && (hb.buf == old(hb.buf) || fresh(hb.buf))
      ensures used == if |data| < HEADER_SIZE then 0 else if BadHeader(data) then -1 else HEADER_SIZE
      ensures used <= 0 ==> unchanged(this) && unchanged(hb)
      ensures used > 0 ==> mtype == data[0] && hb.size == SizeIn(data) && parsepos == 0
    {
      hide Allocation;
      if |data| < HEADER_SIZE {
        return 0;
      }
      var size := SizeIn(data);
      if data[0] == MESSAGE_INVALID || size < 0 || size > NET_MESSAGE_MAX_SIZE {
        return -1;
      }
      mtype := data[0];
      hb.Resize(size, true);
      parsepos := 0;
      return HEADER_SIZE;
    }

    /** Takes as many bytes as it still needs. */
    method ParseAddBytes(data: seq<Byte>) returns (n: nat)
      requires Valid()
      modifies this`parsepos, hb.buf
      ensures Valid() && n <= |data| && n == (if |data| < old(ParseBytesNeeded()) then |data| else old(ParseBytesNeeded()))
      ensures Parsed() == old(Parsed()) + data[..n]
    {
      if hb.size == 0 {
        return 0;
      }
      n := if |data| > ParseBytesNeeded() then ParseBytesNeeded() else |data|;
      var buf := hb.buf;
      forall i | 0 <= i < n {
        buf[parsepos + i] := data[i];
      }
      parsepos := parsepos + n;
    }

    /** The message, once all of it has arrived. */
    method Finished() returns (m: Message)
      requires Valid() && parsepos == hb.size
      ensures m == Message(mtype, Parsed())
    {
      m := Message(mtype, hb.buf[..hb.size]);
    }
  }
}
