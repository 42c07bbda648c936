/** What messages look like byte by byte: the type, the size with its low byte first, and the
    data (netmsg.cpp); the fields of the records in it, also with the low byte first (mpb.cpp). */
module WireFormat {
  import opened Bytes
  import opened NetMessages
  import opened RecordKinds

  lemma LowByteFirst(x: nat)
    requires x < 0x1_0000_0000
    ensures x % 256 + x / 0x100 % 256 * 256 + x / 0x1_0000 % 256 * 65536 + x / 0x100_0000 % 256 * 16777216 == x
  {
    assert x / 0x1_0000 == x / 0x100_0000 * 0x100 + x / 0x1_0000 % 0x100;
    assert x / 0x100 == x / 0x1_0000 * 0x100 + x / 0x100 % 0x100;
    assert x == x / 0x100 * 0x100 + x % 0x100;
  }

  /** A message: one byte of type, four of size, the data. */
  lemma MessageBytes(m: Message)
    requires 0 <= m.mtype < 256 && |m.data| < 0x8000_0000
    ensures var e := Encode(m);
            && |e| == 5 + |m.data| && e[0] == m.mtype && e[5..] == m.data
            && e[1] as int + e[2] as int * 256 + e[3] as int * 65536 + e[4] as int * 16777216 == |m.data|
  {
    LowByteFirst(|m.data|);
  }

  /** What a receiver refuses, byte for byte: type 255, and sizes over 16384 or negative in 32 bits. */
  lemma RefusedBytes(h: seq<Byte>)
    requires |h| >= 5
    ensures BadHeader(h) <==>
            h[0] == 255 || h[1] as int + h[2] as int * 256 + h[3] as int * 65536 + h[4] as int * 16777216 > 16384
  {
  }

  /** A signed 16-bit number as an unsigned one. */
  function VolumeBits(v: Short): int {
    if v < 0 then v as int + 65536 else v as int
  }

  /** A number cut to a signed byte, as an unsigned one. */
  function PanBits(pan: int): int {
    if pan <= -128 then 128 else if pan < 0 then pan + 256 else if pan < 127 then pan else 127
  }

  /** A user info record: one byte for active or not, the channel, a signed 16-bit volume, a signed
      8-bit pan, the flags, and two strings. Channel and pan are cut to what their byte can hold. */
  lemma UserBytes(u: UserInfo)
    ensures var e := EncodeUser(u);
            && |e| == 8 + |u.user| + |u.channelName| && e[0] == (if u.active != 0 then 1 else 0)
            && e[1] == (if u.channel < 0 then 0 else if u.channel > 255 then 255 else u.channel)
            && e[2] as int + e[3] as int * 256 == VolumeBits(u.volume)
            && e[4] == PanBits(u.pan)
            && e[5] == u.flags % 256
            && e[6..] == u.user + [0] + u.channelName + [0]
  {
    var e := EncodeUser(u);
    UserHeaderBytes(u);
    assert e == UserHeader(u) + (u.user + [0] + u.channelName + [0]);
  }

  lemma UserHeaderBytes(u: UserInfo)
    ensures var h := UserHeader(u);
            && h[0] == (if u.active != 0 then 1 else 0)
            && h[1] == (if u.channel < 0 then 0 else if u.channel > 255 then 255 else u.channel)
            && h[2] as int + h[3] as int * 256 == VolumeBits(u.volume)
            && h[4] == PanBits(u.pan)
            && h[5] == u.flags % 256
  {
    TwoBytes(u.volume);
  }

  lemma TwoBytes(v: Short)
    ensures ToByte(v) as int + ToByte(v / 0x100) as int * 256 == VolumeBits(v)
  {
    var x := v as int;
    assert x == x / 0x100 * 0x100 + x % 0x100;
    assert x / 0x100 % 0x100 == if x >= 0 then x / 0x100 else x / 0x100 + 0x100;
  }

  /** A user mask: a string and 32 bits. */
  lemma MaskBytes(u: UserMask)
    ensures var e, n := EncodeMask(u), |u.user|;
            && |e| == n + 5 && e[..n] == u.user && e[n] == 0
            && e[n + 1] as int + e[n + 2] as int * 256 + e[n + 3] as int * 65536 + e[n + 4] as int * 16777216 == u.flags
  {
    LowByteFirst(u.flags);
    assert EncodeMask(u) == u.user + ([0] + FourBytes(u.flags));
  }

  /** A channel info message begins with the number of field bytes; a record is a string and as many
      of the bytes of the volume, the pan and the flags, with zeros behind. */
  lemma ChannelBytes(mpisize: FieldsSize, c: ChannelInfo)
    ensures |SizeHeader(mpisize)| == 2 && SizeHeader(mpisize)[0] as int + SizeHeader(mpisize)[1] as int * 256 == mpisize
    ensures var e, n := EncodeChannel(mpisize)(c), |c.name|;
            && |e| == n + 1 + mpisize && e[..n] == c.name && e[n] == 0
            && (mpisize >= 2 ==> e[n + 1] as int + e[n + 2] as int * 256 == VolumeBits(c.volume))
            && (mpisize == 1 ==> e[n + 1] == VolumeBits(c.volume) % 256)
            && (mpisize >= 3 ==> e[n + 3] == PanBits(c.pan))
            && (mpisize >= 4 ==> e[n + 4] == c.flags % 256)
            && (forall k :: n + 5 <= k < |e| ==> e[k] == 0)
  {
    hide SizeHeader;
    RecordKinds.SizeReadsBack(mpisize);
    TwoBytes(c.volume);
    var f := Fields(mpisize, c);
    assert EncodeChannel(mpisize)(c) == c.name + ([0] + f);
  }
}
