/** Sending and receiving messages over a connection (netmsg.cpp). */
module NetConnections {
  import opened Sequences
  import opened Bytes
  import opened Connections
  import opened HeapBufs
  import opened NetMessages
  import opened Options

  const NET_CON_MAX_MESSAGES := 512
  const NET_CON_KEEPALIVE_RATE := 3
  const SEND_RESERVE := 64
  const PEEK_SIZE := 8192

  /** How many bytes are where: queued at this end, on the wire towards it, received, and in
      the message being received. */
  datatype Load = Load(held: nat, inFlight: nat, received: nat, partial: nat)

  /** Nothing came that could be read: less than a header at most. */
  predicate Starved(l: Load) {
    l.inFlight == 0 && (l.received == 0 || (l.partial == 0 && l.received < HEADER_SIZE))
  }

  /** What the socket moves of the bytes queued: some, if there are any and it moves at least one. */
  predicate Drained(was: nat, now: nat, least: nat) {
    now <= was && (least > 0 && was > 0 ==> now < was)
  }

  /** Bytes on the wire have two steps to go, bytes received one. */
  function ToRead(l: Load): nat {
    2 * l.inFlight + l.received
  }

  /** What a Run does to the bytes on their way out, of which it may add some, and on their way in. */
  predicate Progressed(was: Load, now: Load, added: nat, least: nat, ok: bool) {
    && Drained(was.held + added, now.held, least)
    && ToRead(now) <= ToRead(was)
    && (ok && least > 0 ==> ToRead(now) < ToRead(was) || Starved(was))
  }

  /** What an end goes by when it sends keepalives and breaks the connection. */
  datatype Clock = Clock(error: int, lastSend: int, lastRecv: int, keepalive: int)

  /** What a Run does when it finds messages waiting or not, and returns one or not. */
  predicate Ticked(was: Clock, now: Clock, time: int, waiting: bool, queued: bool, returned: bool) {
    && now.keepalive == was.keepalive
    && (queued <==> !waiting && time > was.lastSend + was.keepalive)
    && now.lastSend == (if waiting || queued then time else was.lastSend)
    && now.lastRecv == (if returned then time else was.lastRecv)
    && (now.error == -3 <==> !returned && time > was.lastRecv + was.keepalive * 3)
  }

  class NetConnection {
    const con: Connection
    const sendq: Queue<Message>
    var error: int
    var keepalive: int
    var msgsendpos: int // -1 before the header of the first queued message is sent
    var lastSend: int
    var lastRecv: int
    var headerSeen: bool
    var recvmsg: NetMessage?

    ghost function RecvRepr(): set<object>
      reads this`recvmsg, if recvmsg != null then {recvmsg, recvmsg.hb} else {}
    {
      if recvmsg == null then {} else
        var m: NetMessage := recvmsg;
        {m, m.hb, m.hb.buf}
    }

    ghost function SendRepr(): set<object>
      reads sendq.hb
    {
      {sendq, sendq.hb, sendq.hb.buf}
    }

    ghost function Repr(): set<object>
      reads this, sendq.hb, if recvmsg != null then {recvmsg, recvmsg.hb} else {}
    {
      {this, con, con.sendBuffer, con.recvBuffer} + SendRepr() + RecvRepr()
    }

    /** What is queued, and how much of the first message went out. */
    ghost predicate SendOk()
      reads this`msgsendpos, sendq, sendq.hb, sendq.hb.buf
    {
      && sendq.Valid() && msgsendpos >= -1
      && (msgsendpos >= 0 ==> sendq.Contents() != [] && msgsendpos <= |sendq.Contents()[0].data|)
    }

    /** A message being received has an acceptable header and lacks some data. */
    ghost predicate RecvOk()
      reads this`recvmsg, this`headerSeen, if recvmsg != null then {recvmsg, recvmsg.hb} else {}
    {
      recvmsg != null ==>
        recvmsg.Valid() &&
        (headerSeen ==> 0 <= recvmsg.mtype < MESSAGE_INVALID && recvmsg.parsepos < recvmsg.hb.size <= NET_MESSAGE_MAX_SIZE)
    }

    ghost predicate Valid(): (v: bool)
      reads this`recvmsg, this`headerSeen, this`msgsendpos, con, SendRepr(), sendq.hb, if recvmsg != null then {recvmsg, recvmsg.hb} else {}
      ensures v ==> con.Valid() && SendOk() && RecvOk()
    {
      && con.Valid() && con.sendBuffer.Length > SEND_RESERVE && SendOk() && RecvOk()
      && SendRepr() !! RecvRepr() && {con.sendBuffer, con.recvBuffer} !! (SendRepr() + RecvRepr())
    }

    /** Bytes of queued messages that the connection does not hold yet. */
    ghost function Unsent(): seq<Byte>
      requires SendOk()
      reads this`msgsendpos, sendq, sendq.hb, sendq.hb.buf
    {
      UnsentOf(sendq.Contents(), msgsendpos)
    }

    /** Bytes taken from the connection for the message being received. */
    ghost function Partial(): seq<Byte>
      requires RecvOk()
      reads this`recvmsg, this`headerSeen, RecvRepr(), if recvmsg != null then {recvmsg, recvmsg.hb} else {}
    {
      if recvmsg == null || !headerSeen then [] else Header(recvmsg.mtype, recvmsg.hb.size) + recvmsg.Parsed()
    }

    /** Received, and not yet handed over as part of a message. */
    ghost function Arrived(): seq<Byte>
      requires con.Valid() && RecvOk()
      reads this`recvmsg, this`headerSeen, con, con.recvBuffer, RecvRepr(), if recvmsg != null then {recvmsg, recvmsg.hb} else {}
    {
      Partial() + con.Received()
    }

    /** Everything on its way out, oldest byte first. */
    ghost function Outgoing(wireOut: Wire): seq<Byte>
      requires con.Valid() && SendOk()
      reads this`msgsendpos, con, con.sendBuffer, sendq, sendq.hb, sendq.hb.buf, wireOut
    {
      wireOut.inFlight + Held()
    }

    /** Everything on its way in, oldest byte first. */
    ghost function Incoming(wireIn: Wire): seq<Byte>
      requires con.Valid() && RecvOk()
      reads this`recvmsg, this`headerSeen, con, con.recvBuffer, RecvRepr(), if recvmsg != null then {recvmsg, recvmsg.hb} else {}, wireIn
    {
      Arrived() + wireIn.inFlight
    }

    ghost function ClockOf(): Clock
      reads this
    {
      Clock(error, lastSend, lastRecv, keepalive)
    }

    ghost function LoadOf(wireIn: Wire): Load
      requires con.Valid() && SendOk() && RecvOk()
      reads this`msgsendpos, this`recvmsg, this`headerSeen, con, con.sendBuffer, con.recvBuffer, sendq, sendq.hb, sendq.hb.buf,
            RecvRepr(), if recvmsg != null then {recvmsg, recvmsg.hb} else {}, wireIn
    {
      Load(|Held()|, |wireIn.inFlight|, con.recvLen, |Partial()|)
    }

    /** Nothing of this end was touched, except perhaps the wires. */
    twostate lemma Untouched(wireOut: Wire)
      requires old(Valid()) && unchanged(old(Repr()))
      ensures Valid() && Repr() == old(Repr()) && Arrived() == old(Arrived()) && error == old(error)
      ensures Held() == old(Held()) && Outgoing(wireOut) == wireOut.inFlight + Held()
      ensures ClockOf() == old(ClockOf()) && con.recvLen == old(con.recvLen)
    {
      hide Connection.ToSend, Connection.Received, NetConnection.Unsent, NetConnection.Partial, Ring;
    }

    /** Queued here, and not yet taken by the socket. */
    ghost function Held(): seq<Byte>
      requires con.Valid() && SendOk()
      reads this`msgsendpos, con, con.sendBuffer, sendq, sendq.hb, sendq.hb.buf
    {
      con.ToSend() + Unsent()
    }

    constructor (sendSize: nat, recvSize: nat, now: int)
      requires sendSize > SEND_RESERVE && recvSize > 0
      ensures Valid() && fresh(Repr()) && ClockOf() == Clock(0, now, now, 3)
      ensures con.ToSend() == [] && con.Received() == [] && Unsent() == [] && Partial() == []
      ensures con.recvBuffer.Length == recvSize
    {
      con := new Connection(sendSize, recvSize);
      sendq := new Queue<Message>(4096);
      error, keepalive, msgsendpos := 0, NET_CON_KEEPALIVE_RATE, -1;
      lastSend, lastRecv, headerSeen, recvmsg := now, now, false, null;
    }

    // ----- sending -----

    /** Queues a message; a full queue breaks the connection. */
    method Send(m: Message, ghost wireOut: Wire) returns (res: int)
      requires Valid()
      modifies this`error, SendRepr()
      ensures Valid() && fresh(SendRepr() - old(SendRepr()))
      ensures res == (if |old(sendq.Contents())| < 512 then 0 else -1)
      ensures error == if res == 0 then old(error) else -2
      ensures sendq.Contents() == old(sendq.Contents()) + if res == 0 then [m] else []
      ensures Outgoing(wireOut) == old(Outgoing(wireOut)) + if res == 0 then Encode(m) else []
      ensures Held() == old(Held()) + if res == 0 then Encode(m) else []
      ensures Arrived() == old(Arrived())
    {
      hide Encode, Ring, Connection.ToSend, Connection.Received, UnsentOf, NetConnection.Partial;
      if sendq.Available() < NET_CON_MAX_MESSAGES {
        QueuedBehind(sendq.Contents(), msgsendpos, m);
        sendq.Add([m]);
        Regroup(con.ToSend(), old(Unsent()), Encode(m));
        Regroup(wireOut.inFlight, con.ToSend() + old(Unsent()), Encode(m));
        return 0;
      } else {
        error := -2;
        return -1;
      }
    }

    /** Puts the header of the first message into the connection. */
    method SendHeader()
      requires Valid() && con.SendBytesAvailable() > SEND_RESERVE && sendq.Contents() != [] && msgsendpos < 0
      modifies this`msgsendpos, con`sendLen, con.sendBuffer
      ensures Valid() && con.ToSend() + Unsent() == old(con.ToSend()) + old(Unsent()) && msgsendpos == 0
      ensures |Unsent()| < |old(Unsent())| && con.SendBytesAvailable() > 0 && con.Received() == old(con.Received())
    {
      hide Ring, Header, EncodeAll, Connection.ToSend, Connection.Received;
      var has, sendm := sendq.First();
      HeaderFirst(sendq.Contents());
      var header := MakeMessageHeader(sendm);
      var res := con.Send(header);
      msgsendpos := 0;
    }

    /** Puts the next piece of the first message's data into the connection. */
    method SendPiece(sendm: Message)
      requires Valid() && con.SendBytesAvailable() > 0 && sendq.Contents() != [] && sendm == sendq.Contents()[0]
      requires 0 <= msgsendpos < |sendm.data|
      modifies this`msgsendpos, con`sendLen, con.sendBuffer
      ensures Valid() && con.ToSend() + Unsent() == old(con.ToSend()) + old(Unsent())
      ensures |Unsent()| < |old(Unsent())| && con.Received() == old(con.Received())
    {
      hide Ring, UnsentOf, Connection.ToSend, Connection.Received, NetConnection.RecvOk, NetMessage.Valid;
      var sz, avail := |sendm.data| - msgsendpos, con.SendBytesAvailable();
      if sz > avail {
        sz := avail;
      }
      PieceFirst(sendq.Contents(), msgsendpos, sz);
      var res := con.Send(sendm.data[msgsendpos..msgsendpos + sz]);
      msgsendpos := msgsendpos + sz;
    }

    /** The first message is sent whole. */
    method FinishMessage()
      requires Valid() && sendq.Contents() != [] && msgsendpos == |sendq.Contents()[0].data|
      modifies this`msgsendpos, sendq
      ensures Valid() && Unsent() == old(Unsent()) && sendq.Contents() == old(sendq.Contents())[1..]
    {
      hide Ring, EncodeAll, Connection.ToSend, Connection.Received;
      NextFirst(sendq.Contents());
      sendq.Advance(1);
      msgsendpos := -1;
    }

    /** One turn of the sending loop: the header, then a piece of the data, or the end. */
    method SendStep()
      requires Valid() && con.SendBytesAvailable() > SEND_RESERVE && sendq.Contents() != []
      modifies this`msgsendpos, sendq, con`sendLen, con.sendBuffer
      ensures Valid() && con.ToSend() + Unsent() == old(con.ToSend()) + old(Unsent())
      ensures con.Received() == old(con.Received())
      ensures if |sendq.Contents()| == |old(sendq.Contents())|
              then sendq.Contents() == old(sendq.Contents()) && |Unsent()| < |old(Unsent())|
              else sendq.Contents() == old(sendq.Contents())[1..]
    {
      hide Ring, Header, EncodeAll, Connection.ToSend, Connection.Received, NetConnection.Unsent, NetConnection.Partial;
      var has, sendm := sendq.First();
      if msgsendpos < 0 {
        SendHeader();
      }
      if |sendm.data| - msgsendpos < 1 {
        FinishMessage();
      } else {
        SendPiece(sendm);
      }
    }

    /** Lets the socket move bytes: any number of them, but `least` at a time if there are as many. */
    method Exchange(wireOut: Wire, wireIn: Wire, least: nat)
      requires Valid() && wireOut != wireIn
      modifies con, con.recvBuffer, wireOut, wireIn
      ensures Valid() && Outgoing(wireOut) == old(Outgoing(wireOut)) && Incoming(wireIn) == old(Incoming(wireIn))
      ensures Drained(old(con.sendLen), con.sendLen, least) && |Held()| - con.sendLen == |old(Held())| - old(con.sendLen)
      ensures con.recvLen + |wireIn.inFlight| == old(con.recvLen) + |old(wireIn.inFlight)|
      ensures |wireIn.inFlight| <= |old(wireIn.inFlight)|
      ensures old(con.recvLen) < con.recvBuffer.Length ==> Drained(|old(wireIn.inFlight)|, |wireIn.inFlight|, least)
    {
      hide Ring, Connection.ToSend, Connection.Received, UnsentOf, Header;
      Regroup(wireOut.inFlight, con.ToSend(), Unsent());
      Regroup(Partial(), con.Received(), wireIn.inFlight);
      var takes: nat, takesMore: nat, gives: nat, givesMore: nat := *, *, *, *;
      var t := Traffic(least + takes, least + takesMore, least + gives, least + givesMore);
      con.RunMoves(wireIn, t);
      hide Moved;
      ghost var before := |con.Received()| + |wireIn.inFlight|;
      con.Run(wireOut, wireIn, t);
      assert |con.Received() + wireIn.inFlight| == before;
      Regroup(wireOut.inFlight, con.ToSend(), Unsent());
      Regroup(Partial(), con.Received(), wireIn.inFlight);
    }

    /** The sending loop: while the connection has room and messages wait. */
    method SendQueued(wireOut: Wire, wireIn: Wire, least: nat)
      requires Valid() && wireOut != wireIn
      modifies this`msgsendpos, sendq, con, con.sendBuffer, con.recvBuffer, wireOut, wireIn
      ensures Valid() && Outgoing(wireOut) == old(Outgoing(wireOut)) && Incoming(wireIn) == old(Incoming(wireIn))
      ensures sendq.Contents() == [] || con.sendBuffer.Length - con.sendLen <= 64
      ensures |Held()| <= |old(Held())| && (old(con.sendLen) == 0 ==> Drained(|old(Held())|, |Held()|, least))
      ensures con.recvLen + |wireIn.inFlight| == old(con.recvLen) + |old(wireIn.inFlight)|
      ensures |wireIn.inFlight| <= |old(wireIn.inFlight)|
    {
      hide Ring, Connection.ToSend, Connection.Received, NetConnection.Unsent, NetConnection.Partial, EncodeAll;
      while con.SendBytesAvailable() > SEND_RESERVE && sendq.Available() > 0
        invariant Valid() && Outgoing(wireOut) == old(Outgoing(wireOut)) && Incoming(wireIn) == old(Incoming(wireIn))
        invariant |Held()| <= |old(Held())|
        invariant least > 0 && old(con.sendLen) == 0 && |Held()| == |old(Held())| ==> con.sendLen == 0
        invariant con.recvLen + |wireIn.inFlight| == old(con.recvLen) + |old(wireIn.inFlight)|
        invariant |wireIn.inFlight| <= |old(wireIn.inFlight)|
        decreases sendq.Available(), |Unsent()|
      {
        SendStep();
        assert Outgoing(wireOut) == old(Outgoing(wireOut)) && Incoming(wireIn) == old(Incoming(wireIn));
        Exchange(wireOut, wireIn, least);
      }
      NothingUnsent();
    }

    lemma NothingUnsent()
      requires SendOk()
      ensures sendq.Contents() == [] ==> Unsent() == []
    {
    }

    /** The queue's buffer is moved together; what is queued stays. */
    method Tidy(ghost wireOut: Wire, ghost wireIn: Wire)
      requires Valid()
      modifies SendRepr()
      ensures Valid() && fresh(SendRepr() - old(SendRepr()))
      ensures Outgoing(wireOut) == old(Outgoing(wireOut)) && Incoming(wireIn) == old(Incoming(wireIn))
      ensures Held() == old(Held()) && sendq.Contents() == old(sendq.Contents())
    {
      hide Ring, Connection.ToSend, Connection.Received, NetConnection.Partial, EncodeAll;
      sendq.Compact(false, false);
    }

    // ----- receiving -----

    /** Reads the header of the next message, if enough of it has arrived. */
    method TakeHeader(buf: seq<Byte>) returns (used: int)
      requires recvmsg != null && recvmsg.Valid() && !headerSeen
      modifies this`headerSeen, this`error, recvmsg, recvmsg.hb
      ensures recvmsg == old(recvmsg) && recvmsg.Valid() && (recvmsg.hb.buf == old(recvmsg.hb.buf) || fresh(recvmsg.hb.buf))
      ensures used == if |buf| < HEADER_SIZE then 0 else if BadHeader(buf) then -1 else HEADER_SIZE
      ensures error == if used < 0 then -1 else old(error)
      ensures headerSeen == (used > 0)
      ensures used > 0 ==>
                && 0 <= recvmsg.mtype < MESSAGE_INVALID && 0 <= recvmsg.hb.size <= NET_MESSAGE_MAX_SIZE && recvmsg.parsepos == 0
                && Header(recvmsg.mtype, recvmsg.hb.size) == buf[..HEADER_SIZE]
    {
      hide Header;
      used := recvmsg.ParseMessageHeader(buf);
      if used < 0 {
        error := -1;
      } else if used > 0 {
        HeaderReadsBack(buf);
        headerSeen := true;
      }
    }

    /** Takes data for the message being received; hands the message over when it is whole. */
    method TakeData(buf: seq<Byte>, used: nat) returns (n: nat, ret: Option<Message>)
      requires recvmsg != null && recvmsg.Valid() && headerSeen && used <= |buf|
      requires 0 <= recvmsg.mtype < MESSAGE_INVALID && recvmsg.parsepos <= recvmsg.hb.size <= NET_MESSAGE_MAX_SIZE
      requires used < HEADER_SIZE ==> recvmsg.parsepos < recvmsg.hb.size
      modifies this`headerSeen, this`recvmsg, recvmsg`parsepos, recvmsg.hb.buf
      ensures RecvOk() && n <= |buf| - used && (used == 0 && buf != [] ==> n > 0)
      ensures ret.None? ==> recvmsg == old(recvmsg) && headerSeen && recvmsg.hb.buf == old(recvmsg.hb.buf)
      ensures ret.Some? ==> Sendable(ret.value) && recvmsg == null
      ensures EncodeOpt(ret) + Partial() ==
              Header(old(recvmsg.mtype), old(recvmsg.hb.size)) + old(recvmsg.Parsed()) + buf[used..used + n]
    {
      hide Header;
      ret := None;
      n := recvmsg.ParseAddBytes(buf[used..]);
      assert buf[used..][..n] == buf[used..used + n];
      if recvmsg.ParseBytesNeeded() < 1 {
        var m := recvmsg.Finished();
        ret := Some(m);
        recvmsg := null;
        headerSeen := false;
      }
    }

    /** Takes data out of the connection for the message being received. */
    method Consume(buf: seq<Byte>, used: nat, ghost partial: seq<Byte>) returns (ret: Option<Message>)
      requires con.Valid() && buf != [] && buf <= con.Received() && used <= |buf| && used in {0, HEADER_SIZE}
      requires recvmsg != null && recvmsg.Valid() && headerSeen && recvmsg.hb.buf != con.recvBuffer && recvmsg.hb.buf != con.sendBuffer
      requires 0 <= recvmsg.mtype < MESSAGE_INVALID && recvmsg.parsepos <= recvmsg.hb.size <= NET_MESSAGE_MAX_SIZE
      requires used == 0 ==> recvmsg.parsepos < recvmsg.hb.size
      requires partial + buf[..used] == Header(recvmsg.mtype, recvmsg.hb.size) + recvmsg.Parsed()
      modifies this`headerSeen, this`recvmsg, con`recvLen, recvmsg`parsepos, recvmsg.hb.buf
      ensures con.Valid() && RecvOk() && con.recvLen < old(con.recvLen) && con.ToSend() == old(con.ToSend())
      ensures ret.None? ==> recvmsg == old(recvmsg) && recvmsg.hb.buf == old(recvmsg.hb.buf)
      ensures ret.Some? ==> Sendable(ret.value) && recvmsg == null
      ensures EncodeOpt(ret) + Partial() + con.Received() == partial + old(con.Received())
    {
      hide Ring, Connection.ToSend, Connection.Received, Header, Encode, Sendable;
      ghost var begun, received := partial + buf[..used], con.Received();
      var n: nat;
      n, ret := TakeData(buf, used);
      var k := con.RecvBytes(used + n);
      Regrouped(partial, received, buf, used, n, begun, EncodeOpt(ret) + Partial());
    }

    /** One turn of the receiving loop. */
    method ReceiveStep() returns (ret: Option<Message>, go: bool)
      requires Valid() && recvmsg != null && con.recvLen > 0
      modifies this`headerSeen, this`recvmsg, this`error, con`recvLen, RecvRepr()
      ensures Valid() && fresh(RecvRepr() - old(RecvRepr()))
      ensures EncodeOpt(ret) + Partial() + con.Received() == old(Partial()) + old(con.Received())
      ensures if ret.Some? then Sendable(ret.value) && go else recvmsg != null
      ensures go ==> error == old(error) && con.recvLen < old(con.recvLen)
      ensures !go ==> con.recvLen == old(con.recvLen) && Partial() == [] && error == (if BadHeader(con.Received()) then -1 else old(error))
                      && (BadHeader(con.Received()) || con.recvLen < HEADER_SIZE)
      ensures go ==> old(Partial()) != [] || old(con.recvLen) >= HEADER_SIZE
      ensures con.ToSend() == old(con.ToSend())
    {
      hide Ring, Connection.ToSend, Connection.Received, Header, SizeIn, EncodeAll, Encode, BadHeader, Sendable, UnsentOf;
      ghost var received := con.Received();
      ghost var partial := Partial();
      var buf := con.PeekBytes(PEEK_SIZE);
      SameHeader(received, buf);
      ret, go := None, true;
      var used := 0;
      if !headerSeen {
        used := TakeHeader(buf);
        if used <= 0 {
          return None, false;
        }
      }
      ret := Consume(buf, used, partial);
    }

    method StartReceiving()
      requires Valid()
      modifies this`headerSeen, this`recvmsg
      ensures Valid() && recvmsg != null && fresh(RecvRepr() - old(RecvRepr())) && Partial() == old(Partial())
    {
      hide Ring, Connection.ToSend, Connection.Received, Header, NetConnection.SendOk;
      if recvmsg == null {
        recvmsg := new NetMessage();
        headerSeen := false;
      }
    }

    /** The receiving loop: until a message is whole, or nothing more can be read. */
    method Receive() returns (ret: Option<Message>)
      requires Valid() && error == 0
      modifies this`headerSeen, this`recvmsg, this`error, con`recvLen, RecvRepr()
      ensures Valid() && fresh(RecvRepr() - old(RecvRepr())) && con.ToSend() == old(con.ToSend())
      ensures EncodeOpt(ret) + Partial() + con.Received() == old(Partial()) + old(con.Received())
      ensures ret.Some? ==> Sendable(ret.value) && error == 0
      ensures con.recvLen <= old(con.recvLen) && (ret.Some? ==> con.recvLen < old(con.recvLen))
      ensures old(con.recvLen) < HEADER_SIZE && old(Partial()) == [] ==> ret.None? && Partial() == []
      ensures ret.None? ==> con.recvLen == 0 || (Partial() == [] && con.recvLen < HEADER_SIZE) || error == -1
      ensures error == 0 || (error == -1 && Partial() == [] && BadHeader(con.Received()))
    {
      hide Ring, Connection.ToSend, Connection.Received, Header, EncodeAll, Encode, BadHeader, Sendable,
           NetConnection.SendOk, NetConnection.RecvOk, NetConnection.Valid, NetConnection.Partial;
      StartReceiving();
      ret := None;
      var go := true;
      while go && ret.None? && con.recvLen > 0
        invariant Valid() && fresh(RecvRepr() - old(RecvRepr())) && con.ToSend() == old(con.ToSend())
        invariant EncodeOpt(ret) + Partial() + con.Received() == old(Partial()) + old(con.Received())
        invariant if ret.Some? then Sendable(ret.value) && go else recvmsg != null
        invariant con.recvLen <= old(con.recvLen) && (ret.Some? ==> con.recvLen < old(con.recvLen))
        invariant old(con.recvLen) < HEADER_SIZE && old(Partial()) == [] ==> ret.None? && Partial() == []
        invariant go ==> error == 0
        invariant !go ==> Partial() == [] && error == (if BadHeader(con.Received()) then -1 else 0)
                          && (BadHeader(con.Received()) || con.recvLen < HEADER_SIZE)
        decreases go, con.recvLen
      {
        ret, go := ReceiveStep();
      }
    }

    /** Sends a keepalive when nothing has been sent for a while. */
    method KeepAlive(now: int, ghost wireOut: Wire, ghost wireIn: Wire) returns (queued: seq<Message>)
      requires Valid()
      modifies this`error, this`lastSend, SendRepr()
      ensures Valid() && fresh(SendRepr() - old(SendRepr())) && error == old(error)
      ensures queued == [] || queued == [KEEPALIVE]
      ensures queued != [] <==> old(sendq.Contents()) == [] && now > old(lastSend) + keepalive
      ensures Outgoing(wireOut) == old(Outgoing(wireOut)) + EncodeAll(queued) && Incoming(wireIn) == old(Incoming(wireIn))
      ensures |Held()| == |old(Held())| + 5 * |queued|
      ensures lastSend == if queued != [] || old(sendq.Contents()) != [] then now else old(lastSend)
    {
      hide Ring, Encode, Connection.Valid, NetConnection.Arrived, NetConnection.Outgoing, NetConnection.Held, NetMessage.Valid;
      queued := [];
      if sendq.Available() > 0 {
        lastSend := now;
      } else if now > lastSend + keepalive {
        var res := Send(KEEPALIVE, wireOut);
        queued := [KEEPALIVE];
        assert EncodeAll([KEEPALIVE]) == Encode(KEEPALIVE);
        lastSend := now;
      }
    }

    /** The sending half of Run. */
    method RunSending(now: int, wireOut: Wire, wireIn: Wire, least: nat) returns (queued: seq<Message>)
      requires Valid() && wireOut != wireIn
      modifies this`error, this`lastSend, this`msgsendpos, SendRepr(), con, con.sendBuffer, con.recvBuffer, wireOut, wireIn
      ensures Valid() && fresh(SendRepr() - old(SendRepr())) && error == old(error)
      ensures queued == [] || queued == [KEEPALIVE]
      ensures Outgoing(wireOut) == old(Outgoing(wireOut)) + EncodeAll(queued)
      ensures Incoming(wireIn) == old(Incoming(wireIn))
      ensures sendq.Contents() == [] || con.sendBuffer.Length - con.sendLen <= 64
      ensures Drained(|old(Held())| + 5 * |queued|, |Held()|, least)
      ensures con.recvLen + |wireIn.inFlight| == old(con.recvLen) + |old(wireIn.inFlight)|
      ensures |wireIn.inFlight| <= |old(wireIn.inFlight)|
      ensures old(con.recvLen) < con.recvBuffer.Length ==> Drained(|old(wireIn.inFlight)|, |wireIn.inFlight|, least)
      ensures queued != [] <==> old(sendq.Contents()) == [] && now > old(lastSend) + keepalive
      ensures lastSend == if queued != [] || old(sendq.Contents()) != [] then now else old(lastSend)
    {
      hide EncodeAll, NetConnection.Outgoing, NetConnection.Incoming, NetConnection.Held, NetConnection.SendOk, NetConnection.RecvOk,
           NetConnection.Valid, NetConnection.RecvRepr;
      Exchange(wireOut, wireIn, least);
      queued := KeepAlive(now, wireOut, wireIn);
      SendQueued(wireOut, wireIn, least);
      Tidy(wireOut, wireIn);
    }

    /** The receiving half of Run. */
    method RunReceiving(now: int, wireOut: Wire, wireIn: Wire, least: nat) returns (ret: Option<Message>)
      requires Valid() && wireOut != wireIn && error == 0
      modifies Repr(), wireOut, wireIn
      ensures Valid() && fresh(Repr() - old(Repr())) && lastSend == old(lastSend) && keepalive == old(keepalive)
      ensures Outgoing(wireOut) == old(Outgoing(wireOut))
      ensures EncodeOpt(ret) + Incoming(wireIn) == old(Incoming(wireIn))
      ensures ret.Some? ==> Sendable(ret.value)
      ensures error in {0, -1, -3} && (error == -1 ==> BadHeader(Incoming(wireIn)))
      ensures |Held()| <= |old(Held())| && ToRead(LoadOf(wireIn)) <= old(ToRead(LoadOf(wireIn)))
      ensures error == 0 && ToRead(LoadOf(wireIn)) == old(ToRead(LoadOf(wireIn))) ==>
                Starved(Load(0, 0, old(con.recvLen), |old(Partial())|))
      ensures error == -3 <==> ret.None? && now > old(lastRecv) + keepalive * 3
      ensures lastRecv == if ret.Some? then now else old(lastRecv)
    {
      hide BadHeader, EncodeOpt, Sendable, NetConnection.Outgoing, NetConnection.Incoming, NetConnection.Held, NetConnection.SendOk,
           NetConnection.Partial, NetConnection.RecvOk, NetConnection.Valid, NetConnection.SendRepr;
      ret := ReceiveFrom(wireOut, wireIn);
      Exchange(wireOut, wireIn, least);
      NoteArrival(now, ret.Some?, wireOut, wireIn);
    }

    /** Nothing received for three keepalive times breaks the connection. */
    method NoteArrival(now: int, arrived: bool, ghost wireOut: Wire, ghost wireIn: Wire)
      requires Valid()
      modifies this`error, this`lastRecv
      ensures Valid() && Outgoing(wireOut) == old(Outgoing(wireOut)) && Incoming(wireIn) == old(Incoming(wireIn))
      ensures Held() == old(Held()) && Partial() == old(Partial())
      ensures error == if !arrived && now > old(lastRecv) + keepalive * 3 then -3 else old(error)
      ensures lastRecv == if arrived then now else old(lastRecv)
    {
      hide NetConnection.Held, NetConnection.Partial, NetConnection.Outgoing, NetConnection.Incoming;
      if arrived {
        lastRecv := now;
      } else if now > lastRecv + keepalive * 3 {
        error := -3;
      }
    }

    method ReceiveFrom(ghost wireOut: Wire, ghost wireIn: Wire) returns (ret: Option<Message>)
      requires Valid() && error == 0
      modifies this`headerSeen, this`recvmsg, this`error, con`recvLen, RecvRepr()
      ensures Valid() && fresh(RecvRepr() - old(RecvRepr()))
      ensures Outgoing(wireOut) == old(Outgoing(wireOut))
      ensures EncodeOpt(ret) + Incoming(wireIn) == old(Incoming(wireIn))
      ensures ret.Some? ==> Sendable(ret.value)
      ensures error in {0, -1} && (error == -1 ==> BadHeader(Incoming(wireIn)))
      ensures Held() == old(Held()) && con.recvLen <= old(con.recvLen)
      ensures error == 0 && con.recvLen == old(con.recvLen) ==> Starved(Load(0, 0, old(con.recvLen), |old(Partial())|))
    {
      hide Ring, Connection.ToSend, Connection.Received, UnsentOf, Encode, EncodeOpt, BadHeader, Sendable, NetConnection.Partial;
      ret := Receive();
      NothingEncoded(ret);
      Regroup(EncodeOpt(ret), Partial(), con.Received());
      Regroup(EncodeOpt(ret), Partial() + con.Received(), wireIn.inFlight);
      if error != 0 {
        StillBad(con.Received(), wireIn.inFlight);
      }
    }

    /** A Run while the connection is open: sends, then receives. */
    method RunOpen(now: int, wireOut: Wire, wireIn: Wire, least: nat) returns (ret: Option<Message>, queued: seq<Message>)
      requires Valid() && wireOut != wireIn && error == 0
      modifies Repr(), wireOut, wireIn
      ensures Valid() && fresh(Repr() - old(Repr()))
      ensures queued == [] || queued == [KEEPALIVE]
      ensures Outgoing(wireOut) == old(Outgoing(wireOut)) + EncodeAll(queued)
      ensures EncodeOpt(ret) + Incoming(wireIn) == old(Incoming(wireIn))
      ensures ret.Some? ==> Sendable(ret.value)
      ensures error in {0, -1, -3} && (error == -1 ==> BadHeader(Incoming(wireIn)))
      ensures Progressed(old(LoadOf(wireIn)), LoadOf(wireIn), 5 * |queued|, least, error == 0 && con.recvBuffer.Length >= HEADER_SIZE)
      ensures Ticked(old(ClockOf()), ClockOf(), now, old(sendq.Contents()) != [], queued != [], ret.Some?)
    {
      hide Encode, EncodeAll, EncodeOpt, BadHeader, Sendable, NetConnection.Outgoing, NetConnection.Incoming, NetConnection.Held,
           NetConnection.Partial, NetConnection.SendOk, NetConnection.RecvOk, NetConnection.Valid,
           Connection.Valid, NetMessage.Valid, Queue.Valid, Queue.Contents;
      IncomingLength(wireIn);
      queued := RunSending(now, wireOut, wireIn, least);
      IncomingLength(wireIn);
      ret := RunReceiving(now, wireOut, wireIn, least);
    }

    lemma IncomingLength(wireIn: Wire)
      requires con.Valid() && RecvOk()
      ensures |Incoming(wireIn)| == |Partial()| + con.recvLen + |wireIn.inFlight|
    {
      hide NetConnection.Partial;
    }

    /** Sends what the connection takes, hands over at most one message, and may queue a keepalive;
        in `least` bytes at a time or more, everything gets nearer to where it goes. */
    method Run(now: int, wireOut: Wire, wireIn: Wire, least: nat) returns (ret: Option<Message>, queued: seq<Message>)
      requires Valid() && wireOut != wireIn
      modifies Repr(), wireOut, wireIn
      ensures Valid() && fresh(Repr() - old(Repr()))
      ensures queued == [] || queued == [KEEPALIVE]
      ensures Outgoing(wireOut) == old(Outgoing(wireOut)) + EncodeAll(queued)
      ensures EncodeOpt(ret) + Incoming(wireIn) == old(Incoming(wireIn))
      ensures ret.Some? ==> Sendable(ret.value)
      ensures old(error) != 0 ==> ClockOf() == old(ClockOf()) && LoadOf(wireIn) == old(LoadOf(wireIn)) && ret.None? && queued == []
      ensures old(error) == 0 ==> error in {0, -1, -3} && (error == -1 ==> BadHeader(Incoming(wireIn)))
      ensures old(error) == 0 ==>
        Progressed(old(LoadOf(wireIn)), LoadOf(wireIn), 5 * |queued|, least, error == 0 && con.recvBuffer.Length >= HEADER_SIZE)
      ensures old(error) == 0 ==> Ticked(old(ClockOf()), ClockOf(), now, old(sendq.Contents()) != [], queued != [], ret.Some?)
    {
      ret, queued := None, [];
      if error != 0 {
        return;
      }
      ret, queued := RunOpen(now, wireOut, wireIn, least);
    }
  }

  function UnsentOf(ms: seq<Message>, pos: int): seq<Byte>
    requires pos >= 0 ==> ms != [] && pos <= |ms[0].data|
  {
    if pos < 0 then EncodeAll(ms) else ms[0].data[pos..] + EncodeAll(ms[1..])
  }

  lemma QueuedBehind(ms: seq<Message>, pos: int, m: Message)
    requires pos >= 0 ==> ms != [] && pos <= |ms[0].data|
    ensures UnsentOf(ms + [m], pos) == UnsentOf(ms, pos) + Encode(m)
  {
    hide Encode;
    assert EncodeAll([m]) == Encode(m);
    EncodeAllAppend(ms, [m]);
    if pos >= 0 {
      assert (ms + [m])[1..] == ms[1..] + [m];
      EncodeAllAppend(ms[1..], [m]);
    }
  }

  lemma HeaderFirst(ms: seq<Message>)
    requires ms != []
    ensures UnsentOf(ms, -1) == Header(ms[0].mtype, |ms[0].data|) + UnsentOf(ms, 0)
  {
    hide Header;
  }

  lemma PieceFirst(ms: seq<Message>, pos: nat, sz: nat)
    requires ms != [] && pos + sz <= |ms[0].data|
    ensures UnsentOf(ms, pos) == ms[0].data[pos..pos + sz] + UnsentOf(ms, pos + sz)
  {
  }

  lemma NextFirst(ms: seq<Message>)
    requires ms != []
    ensures UnsentOf(ms, |ms[0].data|) == UnsentOf(ms[1..], -1)
  {
    hide EncodeAll;
  }

  /** The header is judged on the bytes peeked at. */
  lemma SameHeader(received: seq<Byte>, buf: seq<Byte>)
    requires |buf| == Min(PEEK_SIZE, |received|) && buf == received[..|buf|]
    ensures BadHeader(buf) == BadHeader(received) && (|buf| < HEADER_SIZE <==> |received| < HEADER_SIZE)
    ensures |buf| < HEADER_SIZE ==> !BadHeader(received)
  {
  }

  lemma Regrouped(partial: seq<Byte>, received: seq<Byte>, buf: seq<Byte>, used: nat, n: nat, begun: seq<Byte>, now: seq<Byte>)
    requires buf <= received && used + n <= |buf|
    requires partial + buf[..used] == begun && now == begun + buf[used..used + n]
    ensures now + received[used + n..] == partial + received
  {
    assert buf[..used] + buf[used..used + n] == received[..used + n];
    assert partial + received == partial + (received[..used + n] + received[used + n..]);
  }

  lemma NothingEncoded(ret: Option<Message>)
    ensures |EncodeOpt(ret)| == if ret.Some? then HEADER_SIZE + |ret.value.data| else 0
  {
    hide Encode;
  }

  lemma StillBad(received: seq<Byte>, later: seq<Byte>)
    requires BadHeader(received)
    ensures BadHeader([] + received + later)
  {
  }
}
