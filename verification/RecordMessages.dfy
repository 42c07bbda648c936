/** Building record messages byte by byte, parsing them with a moving position, and chat
    messages (mpb.cpp). */
module RecordMessages {
  import opened Sequences
  import opened Bytes
  import opened Options
  import opened RecordLists
  import opened RecordKinds

  method PutByte(buf: array<Byte>, p: nat, b: Byte) returns (q: nat)
    requires p < buf.Length
    modifies buf
    ensures q == p + 1 && buf[..q] == old(buf[..p]) + [b]
  {
    buf[p] := b;
    q := p + 1;
  }

  /** A string and its NUL. */
  method PutText(buf: array<Byte>, p: nat, s: Text) returns (q: nat)
    requires p + |s| < buf.Length
    modifies buf
    ensures q == p + |s| + 1 && buf[..q] == old(buf[..p]) + s + [0]
  {
    forall i | 0 <= i < |s| {
      buf[p + i] := s[i];
    }
    buf[p + |s|] := 0;
    q := p + |s| + 1;
  }

  class RecordMessage {
    var data: seq<Byte>
    var mpisize: FieldsSize

    constructor ()
      ensures data == [] && mpisize == 4
    {
      data, mpisize := [], 4;
    }

    /** A buffer with what is there and room for more. */
    method Grown(more: nat) returns (buf: array<Byte>)
      ensures fresh(buf) && buf.Length == |data| + more && buf[..|data|] == data
    {
      buf := new Byte[|data| + more];
      forall i | 0 <= i < |data| {
        buf[i] := data[i];
      }
    }

    method PutUserHeader(buf: array<Byte>, from: nat, u: UserInfo) returns (p: nat)
      requires from + USER_HEADER <= buf.Length
      modifies buf
      ensures p == from + USER_HEADER && buf[..p] == old(buf[..from]) + UserHeader(u)
    {
      hide ToByte;
      p := PutByte(buf, from, if u.active != 0 then 1 else 0);
      p := PutByte(buf, p, if u.channel < 0 then 0 else if u.channel > 255 then 255 else u.channel);
      p := PutByte(buf, p, ToByte(u.volume));
      p := PutByte(buf, p, ToByte(u.volume / 0x100));
      p := PutByte(buf, p, ToByte(if u.pan < -128 then -128 else if u.pan > 127 then 127 else u.pan));
      p := PutByte(buf, p, ToByte(u.flags));
    }

    method AddUser(u: UserInfo)
      modifies this
      ensures data == old(data) + EncodeUser(u) && mpisize == old(mpisize)
    {
      hide ToByte, UserHeader;
      var buf := Grown(1 + 1 + 2 + 1 + 1 + |u.user| + 1 + |u.channelName| + 1);
      var p := PutUserHeader(buf, |data|, u);
      p := PutText(buf, p, u.user);
      p := PutText(buf, p, u.channelName);
      assert buf[..p] == buf[..];
      Joined(data, u);
      data := buf[..];
    }

    /** The record at an offset: the offset of the next, 0 when there is none. */
    method ParseUser(offs: nat) returns (next: nat, u: UserInfo)
      ensures GetUser(data, offs) == if next > 0 then Some(Got(next, u)) else None
    {
      u := UserInfo(0, 0, 0, 0, 0, [], []);
      if |data| - offs < USER_HEADER + 2 {
        return 0, u;
      }
      var unp := offs + USER_HEADER;
      var cnp := SkipText(data, unp);
      if cnp == |data| {
        return 0, u;
      }
      var p := SkipText(data, cnp + 1);
      if p == |data| {
        return 0, u;
      }
      next := p + 1;
      u := UserInfo(data[offs], data[offs + 1], ToShort(data[offs + 2] as int + data[offs + 3] as int * 0x100),
                    ToSignedChar(data[offs + 4]), data[offs + 5], data[unp..cnp], data[cnp + 1..p]);
    }

    method AddMask(u: UserMask)
      modifies this
      ensures data == old(data) + EncodeMask(u) && mpisize == old(mpisize)
    {
      hide ToByte;
      var buf := Grown(4 + |u.user| + 1);
      var p := PutText(buf, |data|, u.user);
      p := PutByte(buf, p, ToByte(u.flags));
      p := PutByte(buf, p, ToByte(u.flags / 0x100));
      p := PutByte(buf, p, ToByte(u.flags / 0x1_0000));
      p := PutByte(buf, p, ToByte(u.flags / 0x100_0000));
      assert buf[..p] == buf[..];
      assert buf[..p] == data + u.user + [0] + FourBytes(u.flags);
      assert data + u.user + [0] + FourBytes(u.flags) == data + EncodeMask(u);
      data := buf[..];
    }

    method ParseMask(offs: nat) returns (next: int, u: UserMask)
      ensures GetMask(data, offs) == if next > 0 then Some(Got(next, u)) else None
    {
      u := UserMask([], 0);
      if offs >= |data| {
        return 0, u;
      }
      var p := SkipText(data, offs);
      if p == |data| {
        return 0, u;
      }
      p := p + 1;
      if |data| - p < 4 {
        return -1, u;
      }
      next := p + 4;
      u := UserMask(data[offs..p - 1], FromFourBytes(data[p..p + 4]));
    }

    /** The first record brings the header with it. */
    method AddChannel(c: ChannelInfo)
      modifies this
      ensures data == (if old(data) == [] then SizeHeader(mpisize) else old(data)) + EncodeChannel(mpisize)(c)
      ensures mpisize == old(mpisize)
    {
      if data == [] {
        data := SizeHeader(mpisize);
      }
      var buf := Grown(mpisize + |c.name| + 1);
      var p := PutText(buf, |data|, c.name);
      PutFields(buf, p, mpisize, c);
      assert data + c.name + [0] + Fields(mpisize, c) == data + EncodeChannel(mpisize)(c);
      data := buf[..];
    }

    /** The fields the size has room for; further bytes are zero. */
    method PutFields(buf: array<Byte>, from: nat, size: FieldsSize, c: ChannelInfo)
      requires from + size == buf.Length
      modifies buf
      ensures buf[..] == old(buf[..from]) + Fields(size, c)
    {
      hide ToByte;
      if size > 0 {
        buf[from] := ToByte(c.volume);
      }
      if size > 1 {
        buf[from + 1] := ToByte(c.volume / 0x100);
      }
      if size > 2 {
        buf[from + 2] := ToByte(if c.pan < -128 then -128 else if c.pan > 127 then 127 else c.pan);
      }
      if size > 3 {
        buf[from + 3] := ToByte(c.flags);
      }
      if size > 4 {
        forall i | from + 4 <= i < buf.Length {
          buf[i] := 0;
        }
      }
    }

    method ParseChannel(offs: nat) returns (next: int, c: ChannelInfo)
      modifies this`mpisize
      ensures GetChannel(data, offs) == if next > 0 then Some(Got(next, c)) else None
    {
      c := ChannelInfo([], 0, 0, 0);
      if |data| <= 2 || offs + 2 > |data| {
        return 0, c;
      }
      mpisize := data[0] as int + data[1] as int * 0x100;
      var p := SkipText(data, offs + 2);
      if p == |data| {
        return 0, c;
      }
      var name := data[offs + 2..p];
      p := p + 1;
      if |data| - p < mpisize {
        return -1, c;
      }
      next := p + mpisize - 2;
      c := ChannelInfo(name, if mpisize > 1 then ToShort(data[p] as int + data[p + 1] as int * 0x100) else 0,
                       if mpisize > 2 then ToSignedChar(data[p + 2]) else 0, if mpisize > 3 then data[p + 3] else 0);
    }
  }

  lemma Joined(data: seq<Byte>, u: UserInfo)
    ensures data + UserHeader(u) + u.user + [0] + u.channelName + [0] == data + EncodeUser(u)
  {
    hide UserHeader;
  }

  // ----- chat -----

  const CHAT_PARMS := 5

  /** A parameter that is missing is written as an empty string. */
  function TextOf(o: Option<Text>): Text {
    if o.Some? then o.value else []
  }

  function BuildChat(parms: seq<Text>): (r: seq<Byte>) {
    if parms == [] then [] else BuildChat(parms[..|parms| - 1]) + parms[|parms| - 1] + [0]
  }

  function Behind(ts: seq<Text>, r: Option<seq<Text>>): Option<seq<Text>> {
    if r.Some? then Some(ts + r.value) else None
  }

  /** The strings of a message from an offset, at most max of them; None when one is not ended. */
  function ChatParms(data: seq<Byte>, from: nat, max: nat): (r: Option<seq<Text>>)
    requires from <= |data|
    decreases max
  {
    if max == 0 || from == |data| then Some([])
    else
      var e := NulAt(data, from);
      if e == |data| then None
      else
        var s: Text := data[from..e];
        Behind([s], ChatParms(data, e + 1, max - 1))
  }

  lemma BehindTwice(ts: seq<Text>, s: Text, r: Option<seq<Text>>)
    ensures Behind(ts, Behind([s], r)) == Behind(ts + [s], r)
    ensures Behind([], r) == r && Behind(ts, Some([])) == Some(ts)
  {
    if r.Some? {
      assert ts + ([s] + r.value) == ts + [s] + r.value && [] + r.value == r.value;
    }
    assert ts + [] == ts;
  }

  method Build(parms: seq<Option<Text>>) returns (data: seq<Byte>)
    requires |parms| == 5
    ensures data == BuildChat(seq(5, i requires 0 <= i < 5 => TextOf(parms[i])))
  {
    data := [];
    ghost var texts := seq(CHAT_PARMS, i requires 0 <= i < CHAT_PARMS => TextOf(parms[i]));
    for x := 0 to CHAT_PARMS
      invariant data == BuildChat(texts[..x])
    {
      if parms[x].Some? {
        data := data + parms[x].value;
      }
      data := data + [0];
      assert texts[..x + 1][..x] == texts[..x];
      assert BuildChat(texts[..x]) + texts[x] + [0] == data;
    }
    assert texts[..CHAT_PARMS] == texts;
  }

  /** The result code, and the parameters read; those not in the message are missing. */
  method Parse(data: seq<Byte>) returns (res: int, parms: seq<Text>)
    ensures data == [] <==> res == 1
    ensures data != [] ==>
              res == (if ChatParms(data, 0, 5).None? then 4 else if |ChatParms(data, 0, 5).value| == 1 then 3 else 0)
    ensures res == 0 ==> Some(parms) == ChatParms(data, 0, 5)
  {
    hide Behind;
    parms := [];
    if |data| < 1 {
      return 1, parms;
    }
    var p, x := 0, 0;
    BehindTwice([], [], ChatParms(data, 0, CHAT_PARMS));
    while x < CHAT_PARMS
      invariant 0 <= x <= CHAT_PARMS && p <= |data| && x == |parms| && (x < CHAT_PARMS ==> p < |data|)
      invariant ChatParms(data, 0, CHAT_PARMS) == Behind(parms, ChatParms(data, p, CHAT_PARMS - x))
    {
      var start := p;
      p := SkipText(data, p);
      if p >= |data| {
        NoneBehind(parms);
        return 4, parms;
      }
      var s: Text := data[start..p];
      BehindTwice(parms, s, ChatParms(data, p + 1, CHAT_PARMS - x - 1));
      parms := parms + [s];
      p := p + 1;
      if p >= |data| {
        BehindTwice(parms, [], None);
        return if x > 0 then 0 else 3, parms;
      }
      x := x + 1;
    }
    BehindTwice(parms, [], None);
    return 0, parms;
  }

  lemma NoneBehind(ts: seq<Text>)
    ensures Behind(ts, None) == None
  {
  }

  function FirstOf(parms: seq<Text>, max: nat): seq<Text> {
    if |parms| <= max then parms else parms[..max]
  }

  lemma ChatStep(pre: seq<Byte>, s: Text, post: seq<Byte>, max: nat)
    requires max > 0
    ensures ChatParms(pre + s + [0] + post, |pre|, max) == Behind([s], ChatParms(pre + s + [0] + post, |pre + s + [0]|, max - 1))
  {
    hide NulAt;
    NulBehind(pre, s, post);
  }

  /** Strings one after the other, each with its NUL, are read back: the first max of them. */
  lemma {:induction false} ChatReadsBack(pre: seq<Byte>, parms: seq<Text>, max: nat)
    ensures ChatParms(pre + BuildChat(parms), |pre|, max) == Some(FirstOf(parms, max))
    decreases |parms|
  {
    hide BuildChat;
    if parms == [] {
      NoChat();
      assert pre + BuildChat(parms) == pre;
    } else if max > 0 {
      hide ChatParms;
      var s, rest := parms[0], parms[1..];
      ChatCons(s, rest);
      assert parms == [s] + rest;
      Regroup(pre, s + [0], BuildChat(rest));
      assert pre + (s + [0]) == pre + s + [0];
      ChatStep(pre, s, BuildChat(rest), max);
      ChatReadsBack(pre + s + [0], rest, max - 1);
      assert FirstOf(parms, max) == [s] + FirstOf(rest, max - 1);
    }
  }

  lemma NoChat()
    ensures BuildChat([]) == []
  {
  }

  lemma {:induction false} ChatCons(s: Text, rest: seq<Text>)
    ensures BuildChat([s] + rest) == s + [0] + BuildChat(rest)
    decreases |rest|
  {
    var all := [s] + rest;
    if rest == [] {
      assert all[..0] == [];
    } else {
      var z := |rest| - 1;
      ChatCons(s, rest[..z]);
      assert all[..|all| - 1] == [s] + rest[..z];
    }
  }

  /** A chat message is parsed into the parameters it was built from: all five, and the first
      five of a message with more. */
  lemma ChatRoundTrip(parms: seq<Text>)
    requires parms != []
    ensures ChatParms(BuildChat(parms), 0, 5) == Some(FirstOf(parms, 5))
  {
    ChatReadsBack([], parms, 5);
    assert [] + BuildChat(parms) == BuildChat(parms);
  }
}
