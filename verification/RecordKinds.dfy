/** The three kinds of record lists of mpb.cpp: user info, user masks and channel info. */
module RecordKinds {
  import opened Bytes
  import opened Options
  import opened RecordLists

  type Short = x: int | -32768 <= x < 32768

  function Clamp(x: int, lo: int, hi: int): (r: int)
    requires lo <= hi
    ensures lo <= r <= hi
  {
    if x < lo then lo else if x > hi then hi else x
  }

  function ToShort(x: int): Short {
    var m := x % 0x1_0000;
    if m < 0x8000 then m else m - 0x1_0000
  }

  function ToSignedChar(b: Byte): (r: int)
    ensures -128 <= r < 128
  {
    if b < 128 then b else b - 256
  }

  // ----- user info -----

  datatype UserInfo = UserInfo(active: int, channel: int, volume: Short, pan: int, flags: int, user: Text, channelName: Text)

  const USER_HEADER := 6

  function UserHeader(u: UserInfo): (r: seq<Byte>)
    ensures |r| == USER_HEADER
  {
    [if u.active != 0 then 1 else 0, Clamp(u.channel, 0, 255), ToByte(u.volume), ToByte(u.volume / 0x100),
     ToByte(Clamp(u.pan, -128, 127)), ToByte(u.flags)]
  }

  function EncodeUser(u: UserInfo): (r: seq<Byte>)
    ensures |r| == USER_HEADER + |u.user| + 1 + |u.channelName| + 1
  {
    UserHeader(u) + u.user + [0] + u.channelName + [0]
  }

  /** What the fields of a record can hold. */
  function CleanUser(u: UserInfo): UserInfo {
    u.(active := if u.active != 0 then 1 else 0, channel := Clamp(u.channel, 0, 255),
       pan := Clamp(u.pan, -128, 127), flags := u.flags % 256)
  }

  function GetUser(data: seq<Byte>, offs: nat): Option<Got<UserInfo>> {
    if |data| - offs < USER_HEADER + 2 then None
    else
      var name := NulAt(data, offs + USER_HEADER);
      if name == |data| then None
      else
        var end := NulAt(data, name + 1);
        if end == |data| then None
        else Some(Got(end + 1, UserInfo(data[offs], data[offs + 1], ToShort(data[offs + 2] as int + data[offs + 3] as int * 0x100),
                                        ToSignedChar(data[offs + 4]), data[offs + 5],
                                        data[offs + USER_HEADER..name], data[name + 1..end])))
  }

  lemma FieldsFit(u: UserInfo)
    ensures var h := UserHeader(u);
            && ToShort(h[2] as int + h[3] as int * 0x100) == u.volume
            && ToSignedChar(h[4]) == Clamp(u.pan, -128, 127) && h[5] == u.flags % 256
  {
    var v := u.volume as int;
    assert v == v / 0x100 * 0x100 + v % 0x100;
    assert v / 0x100 % 0x100 == if v >= 0 then v / 0x100 else v / 0x100 + 0x100;
  }

  lemma UserReadsBack(pre: seq<Byte>, u: UserInfo, post: seq<Byte>)
    ensures GetUser(pre + EncodeUser(u) + post, |pre|) == Some(Got(|pre| + |EncodeUser(u)|, CleanUser(u)))
  {
    hide UserHeader, GetUser, CleanUser;
    var h := UserHeader(u);
    var data := pre + EncodeUser(u) + post;
    UserInPlace(pre, h, u.user, u.channelName, post);
    assert data == pre + (h + u.user + [0] + u.channelName + [0]) + post;
    HeaderReadsBack(u);
  }

  lemma UserInPlace(pre: seq<Byte>, h: seq<Byte>, user: Text, channelName: Text, post: seq<Byte>)
    requires |h| == USER_HEADER
    ensures GetUser(pre + (h + user + [0] + channelName + [0]) + post, |pre|)
            == Some(Got(|pre| + USER_HEADER + |user| + 1 + |channelName| + 1, UserFields(h, user, channelName)))
  {
    hide GetUser, NulAt, UserFields;
    var data := pre + (h + user + [0] + channelName + [0]) + post;
    TextsInPlace(pre + h, user, channelName, post);
    assert data == (pre + h) + user + [0] + channelName + [0] + post;
    assert data[|pre|..|pre| + USER_HEADER] == h;
    UserIs(data, |pre|, h, user, channelName);
  }

  lemma TextsInPlace(pre: seq<Byte>, user: Text, channelName: Text, post: seq<Byte>)
    ensures var data := pre + user + [0] + channelName + [0] + post;
            var name := |pre| + |user|;
            var end := name + 1 + |channelName|;
            && end < |data| && NulAt(data, |pre|) == name && NulAt(data, name + 1) == end
            && data[|pre|..name] == user && data[name + 1..end] == channelName
  {
    hide NulAt;
    var data := pre + user + [0] + channelName + [0] + post;
    var tail := channelName + [0] + post;
    NulBehind(pre, user, tail);
    assert data == pre + user + [0] + tail;
    NulBehind(pre + user + [0], channelName, post);
  }

  /** The fields read from a header. */
  function UserFields(h: seq<Byte>, user: Text, channelName: Text): UserInfo
    requires |h| == USER_HEADER
  {
    UserInfo(h[0], h[1], ToShort(h[2] as int + h[3] as int * 0x100), ToSignedChar(h[4]), h[5], user, channelName)
  }

  lemma HeaderReadsBack(u: UserInfo)
    ensures UserFields(UserHeader(u), u.user, u.channelName) == CleanUser(u)
  {
    hide UserHeader, ToShort, ToSignedChar, Clamp;
    FieldsFit(u);
    UserHeaderIs(u);
  }

  lemma UserIs(data: seq<Byte>, offs: nat, h: seq<Byte>, user: Text, channelName: Text)
    requires |h| == USER_HEADER && offs + USER_HEADER <= |data| && data[offs..offs + USER_HEADER] == h
    requires var name := offs + USER_HEADER + |user|;
             var end := name + 1 + |channelName|;
             && end < |data| && NulAt(data, offs + USER_HEADER) == name && NulAt(data, name + 1) == end
             && data[offs + USER_HEADER..name] == user && data[name + 1..end] == channelName
    ensures GetUser(data, offs) == Some(Got(offs + USER_HEADER + |user| + 1 + |channelName| + 1, UserFields(h, user, channelName)))
  {
    hide NulAt, ToShort, ToSignedChar;
    assert forall i :: 0 <= i < USER_HEADER ==> data[offs + i] == h[i];
  }

  lemma UserHeaderIs(u: UserInfo)
    ensures UserHeader(u)[0] == (if u.active != 0 then 1 else 0) && UserHeader(u)[1] == Clamp(u.channel, 0, 255)
  {
  }

  /** Whatever the data, a record read ends behind where it began. */
  lemma UserAdvances(data: seq<Byte>, offs: nat)
    ensures GetUser(data, offs).Some? ==> offs < GetUser(data, offs).value.next <= |data|
  {
  }

  lemma UsersReadBack()
    ensures ReadsBack(EncodeUser, GetUser, CleanUser, [])
  {
    hide GetUser, EncodeUser, CleanUser;
    var encode, get, clean, header: seq<Byte> := EncodeUser, GetUser, CleanUser, [];
    forall pre: seq<Byte>, u, post: seq<Byte> | header <= pre
      ensures get(pre + encode(u) + post, |pre| - |header|) == Some(Got(|pre| - |header| + |encode(u)|, clean(u)))
    {
      UserReadsAs(encode, get, clean, pre, u, post);
    }
    forall data: seq<Byte>
      ensures get(data, |data| - |header|) == None
    {
      NoUserAtEnd(data);
    }
  }

  lemma UserReadsAs(encode: UserInfo -> seq<Byte>, get: Reader<UserInfo>, clean: UserInfo -> UserInfo,
                    pre: seq<Byte>, u: UserInfo, post: seq<Byte>)
    requires encode == EncodeUser && get == GetUser && clean == CleanUser
    ensures get(pre + encode(u) + post, |pre|) == Some(Got(|pre| + |encode(u)|, clean(u)))
  {
    hide GetUser, EncodeUser, CleanUser;
    UserReadsBack(pre, u, post);
  }

  /** Any number of user info records, built one after the other and read with the parsing
      loop: exactly the records, in order, with their fields cut to size. */
  lemma UserListReadsBack(us: seq<UserInfo>)
    ensures ReadAll(GetUser, EncodeAll(EncodeUser, us), 0) == Mapped(CleanUser, us)
  {
    hide EncodeAll, GetUser, EncodeUser, CleanUser, ReadAll, ReadsBack, Mapped;
    UsersReadBack();
    ListReadsBack(EncodeUser, GetUser, CleanUser, [], [], us);
    assert [] + EncodeAll(EncodeUser, us) == EncodeAll(EncodeUser, us);
  }

  lemma NoUserAtEnd(data: seq<Byte>)
    ensures GetUser(data, |data|) == None
  {
  }

  // ----- user masks -----

  type Unsigned = x: int | 0 <= x < TWO_32

  datatype UserMask = UserMask(user: Text, flags: Unsigned)

  function FourBytes(x: int): (r: seq<Byte>)
    ensures |r| == 4
  {
    [ToByte(x), ToByte(x / 0x100), ToByte(x / 0x1_0000), ToByte(x / 0x100_0000)]
  }

  function FromFourBytes(b: seq<Byte>): (r: Unsigned)
    requires |b| == 4
  {
    b[0] as int + b[1] as int * 0x100 + b[2] as int * 0x1_0000 + b[3] as int * 0x100_0000
  }

  lemma FourBytesBack(x: Unsigned)
    ensures FromFourBytes(FourBytes(x)) == x
  {
    var a := x / 0x100_0000;
    assert x / 0x1_0000 == a * 0x100 + x / 0x1_0000 % 0x100;
    assert x / 0x100 == x / 0x1_0000 * 0x100 + x / 0x100 % 0x100;
    assert x == x / 0x100 * 0x100 + x % 0x100;
  }

  function EncodeMask(u: UserMask): (r: seq<Byte>)
    ensures |r| == |u.user| + 5
  {
    u.user + [0] + FourBytes(u.flags)
  }

  function GetMask(data: seq<Byte>, offs: nat): Option<Got<UserMask>> {
    if offs >= |data| then None
    else
      var name := NulAt(data, offs);
      if name == |data| || |data| - (name + 1) < 4 then None
      else Some(Got(name + 5, UserMask(data[offs..name], FromFourBytes(data[name + 1..name + 5]))))
  }

  function SameMask(u: UserMask): UserMask {
    u
  }

  lemma MaskReadsBack(pre: seq<Byte>, u: UserMask, post: seq<Byte>)
    ensures GetMask(pre + EncodeMask(u) + post, |pre|) == Some(Got(|pre| + |EncodeMask(u)|, SameMask(u)))
  {
    hide FourBytes, FromFourBytes, NulAt;
    var data := pre + EncodeMask(u) + post;
    var f := FourBytes(u.flags);
    assert data == pre + u.user + [0] + (f + post);
    NulBehind(pre, u.user, f + post);
    assert data == (pre + u.user + [0]) + f + post;
    Middle(pre + u.user + [0], f, post);
    FourBytesBack(u.flags);
  }

  lemma MaskAdvances(data: seq<Byte>, offs: nat)
    ensures GetMask(data, offs).Some? ==> offs < GetMask(data, offs).value.next <= |data|
  {
  }

  lemma NoMaskAtEnd(data: seq<Byte>)
    ensures GetMask(data, |data|) == None
  {
  }

  lemma MasksReadBack()
    ensures ReadsBack(EncodeMask, GetMask, SameMask, [])
  {
    hide GetMask, EncodeMask, SameMask;
    var encode, get, clean, header: seq<Byte> := EncodeMask, GetMask, SameMask, [];
    forall pre: seq<Byte>, u, post: seq<Byte> | header <= pre
      ensures get(pre + encode(u) + post, |pre| - |header|) == Some(Got(|pre| - |header| + |encode(u)|, clean(u)))
    {
      MaskReadsBack(pre, u, post);
    }
    forall data: seq<Byte>
      ensures get(data, |data| - |header|) == None
    {
      NoMaskAtEnd(data);
    }
  }

  /** Any number of user masks come back unchanged. */
  lemma MaskListReadsBack(us: seq<UserMask>)
    ensures ReadAll(GetMask, EncodeAll(EncodeMask, us), 0) == us
  {
    hide EncodeAll, GetMask, EncodeMask, ReadAll, ReadsBack;
    MasksReadBack();
    ListReadsBack(EncodeMask, GetMask, SameMask, [], [], us);
    assert [] + EncodeAll(EncodeMask, us) == EncodeAll(EncodeMask, us);
    assert Mapped(SameMask, us) == us;
  }

  // ----- channel info -----

  datatype ChannelInfo = ChannelInfo(name: Text, volume: Short, pan: int, flags: int)

  type FieldsSize = x: int | 0 <= x < 0x1_0000

  function SizeHeader(mpisize: FieldsSize): (r: seq<Byte>)
    ensures |r| == 2
  {
    [ToByte(mpisize), ToByte(mpisize / 0x100)]
  }

  /** As many bytes of fields as the header says; the ones it knows nothing of are zero. */
  function Fields(mpisize: FieldsSize, c: ChannelInfo): (r: seq<Byte>)
    ensures |r| == mpisize
  {
    seq(mpisize, i requires 0 <= i < mpisize => FieldByte(i, c))
  }

  function FieldByte(i: nat, c: ChannelInfo): Byte {
    if i == 0 then ToByte(c.volume) else if i == 1 then ToByte(c.volume / 0x100)
    else if i == 2 then ToByte(Clamp(c.pan, -128, 127)) else if i == 3 then ToByte(c.flags) else 0
  }

  function EncodeChannel(mpisize: FieldsSize): ChannelInfo -> seq<Byte> {
    (c: ChannelInfo) => c.name + [0] + Fields(mpisize, c)
  }

  function CleanChannel(mpisize: FieldsSize): ChannelInfo -> ChannelInfo {
    (c: ChannelInfo) =>
      ChannelInfo(c.name, if mpisize > 1 then c.volume else 0, if mpisize > 2 then Clamp(c.pan, -128, 127) else 0,
                  if mpisize > 3 then c.flags % 256 else 0)
  }

  function GetChannel(data: seq<Byte>, offs: nat): Option<Got<ChannelInfo>> {
    if |data| <= 2 || offs + 2 > |data| then None
    else
      var mpisize := data[0] as int + data[1] as int * 0x100;
      var name := NulAt(data, offs + 2);
      if name == |data| || |data| - (name + 1) < mpisize then None
      else
        var p := name + 1;
        Some(Got(p + mpisize - 2,
                 ChannelInfo(data[offs + 2..name],
                             if mpisize > 1 then ToShort(data[p] as int + data[p + 1] as int * 0x100) else 0,
                             if mpisize > 2 then ToSignedChar(data[p + 2]) else 0,
                             if mpisize > 3 then data[p + 3] else 0)))
  }

  lemma SizeReadsBack(mpisize: FieldsSize)
    ensures SizeHeader(mpisize)[0] as int + SizeHeader(mpisize)[1] as int * 0x100 == mpisize
  {
  }

  lemma ChannelFieldsFit(mpisize: FieldsSize, c: ChannelInfo)
    ensures var f, r := Fields(mpisize, c), CleanChannel(mpisize)(c);
            && (if mpisize > 1 then ToShort(f[0] as int + f[1] as int * 0x100) else 0) == r.volume
            && (if mpisize > 2 then ToSignedChar(f[2]) else 0) == r.pan
            && (if mpisize > 3 then f[3] else 0) == r.flags
  {
    FieldsFit(UserInfo(0, 0, c.volume, c.pan, c.flags, [], []));
  }

  lemma ChannelReadsBack(mpisize: FieldsSize, pre: seq<Byte>, c: ChannelInfo, post: seq<Byte>)
    requires SizeHeader(mpisize) <= pre
    ensures GetChannel(pre + EncodeChannel(mpisize)(c) + post, |pre| - 2) ==
            Some(Got(|pre| - 2 + |EncodeChannel(mpisize)(c)|, CleanChannel(mpisize)(c)))
  {
    hide Fields, NulAt, SizeHeader, ToShort, ToSignedChar, ToByte;
    var data := pre + EncodeChannel(mpisize)(c) + post;
    var f := Fields(mpisize, c);
    assert data == pre + c.name + [0] + (f + post);
    NulBehind(pre, c.name, f + post);
    assert data == (pre + c.name + [0]) + f + post;
    Middle(pre + c.name + [0], f, post);
    assert data[0] == SizeHeader(mpisize)[0] && data[1] == SizeHeader(mpisize)[1];
    SizeReadsBack(mpisize);
    ChannelFieldsFit(mpisize, c);
  }

  lemma ChannelAdvances(data: seq<Byte>, offs: nat)
    ensures GetChannel(data, offs).Some? ==> offs < GetChannel(data, offs).value.next <= |data|
  {
  }

  lemma NoChannelAtEnd(data: seq<Byte>)
    requires |data| >= 2
    ensures GetChannel(data, |data| - 2) == None
  {
  }

  lemma ChannelsReadBack(mpisize: FieldsSize)
    ensures ReadsBack(EncodeChannel(mpisize), GetChannel, CleanChannel(mpisize), SizeHeader(mpisize))
  {
    hide GetChannel, SizeHeader;
    var encode, clean, header := EncodeChannel(mpisize), CleanChannel(mpisize), SizeHeader(mpisize);
    forall pre: seq<Byte>, c, post: seq<Byte> | header <= pre
      ensures GetChannel(pre + encode(c) + post, |pre| - 2) == Some(Got(|pre| - 2 + |encode(c)|, clean(c)))
    {
      ChannelReadsBack(mpisize, pre, c, post);
    }
    forall data: seq<Byte> | header <= data
      ensures GetChannel(data, |data| - 2) == None
    {
      NoChannelAtEnd(data);
    }
  }

  /** Channel info records behind their size header, with any size of fields: exactly the
      records, with the fields the size has room for. */
  lemma ChannelListReadsBack(mpisize: FieldsSize, cs: seq<ChannelInfo>)
    ensures ReadAll(GetChannel, SizeHeader(mpisize) + EncodeAll(EncodeChannel(mpisize), cs), 0)
            == Mapped(CleanChannel(mpisize), cs)
  {
    hide EncodeAll, GetChannel, EncodeChannel, CleanChannel, ReadAll, ReadsBack, SizeHeader, Mapped;
    ChannelsReadBack(mpisize);
    ListReadsBack(EncodeChannel(mpisize), GetChannel, CleanChannel(mpisize), SizeHeader(mpisize), SizeHeader(mpisize), cs);
  }
}
