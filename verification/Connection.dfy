/** The two ring buffers of a TCP connection (WDL/jnetlib/connection.cpp); the socket's two
    directions are wires that take and give any number of bytes at a time. */
module Connections {
  import opened Bytes

  function Wrapped(pos: nat, size: nat): (r: nat)
    requires pos < 2 * size
    ensures r < size
  {
    if pos >= size then pos - size else pos
  }

  /** len bytes of a ring from start, which may run over its end. */
  function Ring(a: seq<Byte>, start: nat, len: nat): (r: seq<Byte>)
    requires start < |a| && len <= |a|
    ensures |r| == len && forall i :: 0 <= i < len ==> r[i] == a[Wrapped(start + i, |a|)]
  {
    seq(len, i requires 0 <= i < len => a[Wrapped(start + i, |a|)])
  }

  /** How far index j lies behind index w on a ring. */
  function Behind(j: nat, w: nat, size: nat): (r: nat)
    requires j < size && w < size
    ensures r < size
  {
    if j >= w then j - w else j - w + size
  }

  /** a with data written at w, running over the end if it must. */
  function Put(a: seq<Byte>, w: nat, data: seq<Byte>): (r: seq<Byte>)
    requires w < |a| && |data| <= |a|
    ensures |r| == |a|
    ensures forall j :: 0 <= j < |a| ==> r[j] == if Behind(j, w, |a|) < |data| then data[Behind(j, w, |a|)] else a[j]
  {
    seq(|a|, j requires 0 <= j < |a| => if Behind(j, w, |a|) < |data| then data[Behind(j, w, |a|)] else a[j])
  }

  /** Taking k bytes out at the front. */
  lemma RingPop(a: seq<Byte>, start: nat, len: nat, k: nat)
    requires start < |a| && k <= len <= |a|
    ensures Ring(a, Wrapped(start + k, |a|), len - k) == Ring(a, start, len)[k..]
    ensures Ring(a, start, len)[..k] == Ring(a, start, k)
  {
    var r, s := Ring(a, start, len)[k..], Ring(a, Wrapped(start + k, |a|), len - k);
    forall i | 0 <= i < len - k
      ensures r[i] == s[i]
    {
      assert Wrapped(Wrapped(start + k, |a|) + i, |a|) == Wrapped(start + (k + i), |a|);
    }
  }

  /** Writing behind the bytes of a ring appends to them. */
  lemma RingPush(a: seq<Byte>, start: nat, len: nat, data: seq<Byte>)
    requires start < |a| && len + |data| <= |a|
    ensures Ring(Put(a, Wrapped(start + len, |a|), data), start, len + |data|) == Ring(a, start, len) + data
  {
    var w := Wrapped(start + len, |a|);
    var b := Put(a, w, data);
    var r := Ring(b, start, len + |data|);
    hide Ring, Put;
    forall i | 0 <= i < len + |data|
      ensures r[i] == (Ring(a, start, len) + data)[i]
    {
      var j := Wrapped(start + i, |a|);
      assert r[i] == b[j];
      if i >= len {
        assert Behind(j, w, |a|) == i - len;
      } else {
        assert Behind(j, w, |a|) >= |data|;
        assert Ring(a, start, len)[i] == a[j];
      }
    }
  }

  /** One direction of a socket: the bytes sent and not yet received. */
  class Wire {
    var inFlight: seq<Byte>

    constructor ()
      ensures inFlight == []
    {
      inFlight := [];
    }
  }

  function Min(a: int, b: int): int {
    if a < b then a else b
  }

  /** What one run() moves of len bytes when a ring ends after toEnd: a first call on the socket,
      and a second one if the first came to the ring's end. */
  function Moved(len: nat, toEnd: nat, first: nat, second: nat): nat {
    var k := Min(Min(len, toEnd), first);
    k + if k == toEnd then Min(len - k, second) else 0
  }

  /** Never more than there is or the socket allows; at least one byte if there is one and the
      socket allows one; all of it if the socket allows that much each time. */
  lemma MovedBounds(len: nat, toEnd: nat, first: nat, second: nat)
    requires toEnd > 0
    ensures Moved(len, toEnd, first, second) <= Min(len, first + second)
    ensures len > 0 && first > 0 ==> Moved(len, toEnd, first, second) > 0
    ensures len <= first && len <= second ==> Moved(len, toEnd, first, second) == len
  {
  }

  class Connection {
    const sendBuffer: array<Byte>
    const recvBuffer: array<Byte>
    var sendPos: nat
    var sendLen: nat
    var recvPos: nat // where the next byte received goes
    var recvLen: nat

    ghost predicate Valid()
      reads this
    {
      && sendBuffer != recvBuffer && sendPos < sendBuffer.Length && sendLen <= sendBuffer.Length
      && recvPos < recvBuffer.Length && recvLen <= recvBuffer.Length
    }

    /** Bytes to send that the socket has not taken. */
    ghost function ToSend(): (r: seq<Byte>)
      requires Valid()
      reads this, sendBuffer
      ensures |r| == sendLen
    {
      Ring(sendBuffer[..], sendPos, sendLen)
    }

    function ReadPos(): (r: nat)
      requires Valid()
      reads this
      ensures r < recvBuffer.Length && Wrapped(r + recvLen, recvBuffer.Length) == recvPos
    {
      if recvPos - recvLen < 0 then recvPos - recvLen + recvBuffer.Length else recvPos - recvLen
    }

    /** Bytes received that nobody has taken. */
    ghost function Received(): (r: seq<Byte>)
      requires Valid()
      reads this, recvBuffer
      ensures |r| == recvLen
    {
      Ring(recvBuffer[..], ReadPos(), recvLen)
    }

    constructor (sendSize: nat, recvSize: nat)
      requires sendSize > 0 && recvSize > 0
      ensures Valid() && fresh(sendBuffer) && fresh(recvBuffer)
      ensures ToSend() == [] && Received() == [] && sendBuffer.Length == sendSize && recvBuffer.Length == recvSize
    {
      sendBuffer, recvBuffer := new Byte[sendSize], new Byte[recvSize];
      sendPos, sendLen, recvPos, recvLen := 0, 0, 0, 0;
    }

    function SendBytesAvailable(): (n: nat)
      requires Valid()
      reads this
      ensures n == sendBuffer.Length - sendLen
    {
      sendBuffer.Length - sendLen
    }

    /** Copies bytes into the send ring, first up to its end, then from its start. */
    method Store(writePos: nat, data: seq<Byte>)
      requires writePos < sendBuffer.Length && |data| <= sendBuffer.Length
      modifies sendBuffer
      ensures sendBuffer[..] == Put(old(sendBuffer[..]), writePos, data)
    {
      var len := sendBuffer.Length - writePos;
      if len > |data| {
        len := |data|;
      }
      forall i | 0 <= i < len {
        sendBuffer[writePos + i] := data[i];
      }
      if |data| > len {
        forall i | 0 <= i < |data| - len {
          sendBuffer[i] := data[len + i];
        }
      }
    }

    /** Queues bytes for sending: all of them, or none when they do not fit. */
    method Send(data: seq<Byte>) returns (res: int)
      requires Valid()
      modifies this`sendLen, sendBuffer
      ensures Valid() && res == (if |data| > old(SendBytesAvailable()) then -1 else 0)
      ensures ToSend() == if res == 0 then old(ToSend()) + data else old(ToSend())
      ensures Received() == old(Received())
    {
      hide Ring, Put;
      if |data| > SendBytesAvailable() {
        return -1;
      }
      var writePos := sendPos + sendLen;
      if writePos >= sendBuffer.Length {
        writePos := writePos - sendBuffer.Length;
      }
      RingPush(sendBuffer[..], sendPos, sendLen, data);
      Store(writePos, data);
      sendLen := sendLen + |data|;
      return 0;
    }

    /** A copy of the oldest bytes received, at most maxlength of them. */
    method PeekBytes(maxlength: nat) returns (data: seq<Byte>)
      requires Valid()
      ensures |data| == Min(maxlength, recvLen) && data == Received()[..|data|]
    {
      var n := if maxlength > recvLen then recvLen else maxlength;
      var readPos := ReadPos();
      var len := recvBuffer.Length - readPos;
      if len > n {
        len := n;
      }
      data := recvBuffer[readPos..readPos + len];
      if len < n {
        data := data + recvBuffer[..n - len];
      }
      RingPop(recvBuffer[..], readPos, recvLen, n);
    }

    /** Drops the oldest bytes received. */
    method RecvBytes(maxlength: nat) returns (n: nat)
      requires Valid()
      modifies this`recvLen
      ensures Valid() && n == Min(maxlength, old(recvLen)) && Received() == old(Received())[n..]
      ensures ToSend() == old(ToSend())
    {
      n := if maxlength > recvLen then recvLen else maxlength;
      RingPop(recvBuffer[..], ReadPos(), recvLen, n);
      recvLen := recvLen - n;
    }

    /** One send() on the socket, which takes at most `takes` of the bytes offered. */
    method SendSome(wire: Wire, allowed: nat, takes: nat) returns (res: nat)
      requires Valid()
      modifies this`sendPos, this`sendLen, wire
      ensures res == Min(Min(Min(sendBuffer.Length - old(sendPos), old(sendLen)), allowed), takes)
      ensures sendLen == old(sendLen) - res && sendPos == old(sendPos) + res
      ensures wire.inFlight + Ring(sendBuffer[..], Wrapped(sendPos, sendBuffer.Length), sendLen) == old(wire.inFlight) + old(ToSend())
    {
      var len := Min(Min(sendBuffer.Length - sendPos, sendLen), allowed);
      res := Min(len, takes);
      RingPop(sendBuffer[..], sendPos, sendLen, res);
      Rejoin(wire.inFlight, ToSend(), res);
      assert sendBuffer[sendPos..sendPos + res] == Ring(sendBuffer[..], sendPos, res);
      wire.inFlight := wire.inFlight + sendBuffer[sendPos..sendPos + res];
      sendPos, sendLen := sendPos + res, sendLen - res;
    }

    /** The sending half of run(): up to the ring's end, then from its start. */
    method RunSend(wire: Wire, takes: nat, takesMore: nat)
      requires Valid()
      modifies this`sendPos, this`sendLen, wire
      ensures Valid() && wire.inFlight + ToSend() == old(wire.inFlight) + old(ToSend())
      ensures sendLen == old(sendLen) - Moved(old(sendLen), sendBuffer.Length - old(sendPos), takes, takesMore)
    {
      hide Ring;
      var allowed := sendBuffer.Length;
      if sendLen > 0 && allowed > 0 {
        var res := SendSome(wire, allowed, takes);
        allowed := allowed - res;
        if sendPos >= sendBuffer.Length {
          sendPos := 0;
          if sendLen > 0 {
            res := SendSome(wire, allowed, takesMore);
          }
        }
      }
    }

    /** One recv() on the socket, which gives at most `gives` bytes. */
    method RecvSome(wire: Wire, room: nat, gives: nat) returns (res: nat)
      requires Valid() && room <= recvBuffer.Length - recvPos && room <= recvBuffer.Length - recvLen
      modifies this`recvPos, this`recvLen, recvBuffer, wire
      ensures sendBuffer[..] == old(sendBuffer[..])
      ensures recvLen == old(recvLen) + res <= recvBuffer.Length && recvPos == old(recvPos) + res <= recvBuffer.Length
      ensures res == Min(Min(room, gives), |old(wire.inFlight)|) && wire.inFlight == old(wire.inFlight)[res..]
      ensures Ring(recvBuffer[..], old(ReadPos()), recvLen) == old(Received()) + old(wire.inFlight)[..res]
    {
      res := Min(Min(room, gives), |wire.inFlight|);
      ghost var before := recvBuffer[..];
      var got := wire.inFlight[..res];
      forall i | 0 <= i < res {
        recvBuffer[recvPos + i] := got[i];
      }
      assert recvBuffer[..] == Put(before, recvPos, got);
      RingPush(before, ReadPos(), recvLen, got);
      wire.inFlight := wire.inFlight[res..];
      recvPos, recvLen := recvPos + res, recvLen + res;
    }

    /** The receiving half of run(). */
    method RunRecv(wire: Wire, gives: nat, givesMore: nat)
      requires Valid()
      modifies this`recvPos, this`recvLen, recvBuffer, wire
      ensures Valid() && Received() + wire.inFlight == old(Received()) + old(wire.inFlight)
      ensures recvLen == old(recvLen) + Moved(Min(recvBuffer.Length - old(recvLen), |old(wire.inFlight)|),
                                              recvBuffer.Length - old(recvPos), gives, givesMore)
      ensures sendBuffer[..] == old(sendBuffer[..])
    {
      hide Ring;
      if recvLen < recvBuffer.Length {
        var allowed := recvBuffer.Length;
        var len := Min(Min(recvBuffer.Length - recvPos, recvBuffer.Length - recvLen), allowed);
        var res := 0;
        if len > 0 {
          res := RecvSome(wire, len, gives);
          Rejoin(old(Received()), old(wire.inFlight), res);
        }
        allowed := allowed - res;
        if recvPos >= recvBuffer.Length {
          recvPos := 0;
          assert Valid() && Received() + wire.inFlight == old(Received()) + old(wire.inFlight);
          if recvLen < recvBuffer.Length {
            len := Min(recvBuffer.Length - recvLen, allowed);
            if len > 0 {
              ghost var was, flight := Received(), wire.inFlight;
              res := RecvSome(wire, len, givesMore);
              Rejoin(was, flight, res);
            }
          }
        }
      }
    }

    /** A run() sends some of what is to be sent, and receives some of what is there to be received,
        unless there is nothing, or no room, or the socket moves nothing. */
    lemma RunMoves(wireIn: Wire, t: Traffic)
      requires Valid()
      ensures var sent := Moved(sendLen, sendBuffer.Length - sendPos, t.takes, t.takesMore);
              sent <= sendLen && (sendLen > 0 && t.takes > 0 ==> sent > 0)
      ensures var got := Moved(Min(recvBuffer.Length - recvLen, |wireIn.inFlight|), recvBuffer.Length - recvPos, t.gives, t.givesMore);
              && got <= recvBuffer.Length - recvLen && got <= |wireIn.inFlight|
              && (recvLen < recvBuffer.Length && wireIn.inFlight != [] && t.gives > 0 ==> got > 0)
    {
      MovedBounds(sendLen, sendBuffer.Length - sendPos, t.takes, t.takesMore);
      MovedBounds(Min(recvBuffer.Length - recvLen, |wireIn.inFlight|), recvBuffer.Length - recvPos, t.gives, t.givesMore);
    }

    method Run(wireOut: Wire, wireIn: Wire, t: Traffic)
      requires Valid() && wireOut != wireIn
      modifies this`sendPos, this`sendLen, this`recvPos, this`recvLen, recvBuffer, wireOut, wireIn
      ensures Valid() && wireOut.inFlight + ToSend() == old(wireOut.inFlight) + old(ToSend())
      ensures Received() + wireIn.inFlight == old(Received()) + old(wireIn.inFlight)
      ensures sendLen == old(sendLen) - Moved(old(sendLen), sendBuffer.Length - old(sendPos), t.takes, t.takesMore)
      ensures recvLen == old(recvLen) + Moved(Min(recvBuffer.Length - old(recvLen), |old(wireIn.inFlight)|),
                                              recvBuffer.Length - old(recvPos), t.gives, t.givesMore)
    {
      hide Ring;
      RunSend(wireOut, t.takes, t.takesMore);
      RunRecv(wireIn, t.gives, t.givesMore);
    }
  }

  lemma Rejoin(x: seq<Byte>, y: seq<Byte>, k: nat)
    requires k <= |y|
    ensures (x + y[..k]) + y[k..] == x + y
  {
  }

  /** How much the socket takes and gives in one run(): any amounts at all. */
  datatype Traffic = Traffic(takes: nat, takesMore: nat, gives: nat, givesMore: nat)
}
