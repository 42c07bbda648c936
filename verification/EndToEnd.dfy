/** Two ends of a connection, any schedule of sends and runs, and any behaviour of the socket in
    between: what one end's Run returns is what the other end sent. */
module EndToEnd {
  import opened Sequences
  import opened Bytes
  import opened Connections
  import opened HeapBufs
  import opened NetMessages
  import opened Options
  import opened NetConnections

  datatype Action =
    | Send(left: bool, m: Message)
    | Run(left: bool, now: int, least: nat) // the socket moves `least` bytes, if there are as many

  datatype Outcome =
    | Sent(left: bool, m: Message, ok: bool)
    | Ran(left: bool, ret: Option<Message>, queued: seq<Message>)

  predicate Answers(o: Outcome, act: Action) {
    match act
    case Send(left, m) => o.Sent? && o.left == left && o.m == m
    case Run(left, _, _) => o.Ran? && o.left == left && (o.queued == [] || o.queued == [KEEPALIVE])
  }

  /** The messages one end took for sending, its keepalives among them. */
  function SentBy(os: seq<Outcome>, left: bool): seq<Message> {
    if os == [] then []
    else
      var o := os[|os| - 1];
      SentBy(os[..|os| - 1], left) +
      if o.left != left then [] else if o.Ran? then o.queued else if o.ok then [o.m] else []
  }

  /** The messages one end's Run returned. */
  function GotBy(os: seq<Outcome>, left: bool): seq<Message> {
    if os == [] then []
    else
      var o := os[|os| - 1];
      GotBy(os[..|os| - 1], left) + if o.left == left && o.Ran? && o.ret.Some? then [o.ret.value] else []
  }

  /** Every byte sent is either part of a message returned, or on its way, in order. */
  ghost predicate Flow(sent: seq<Message>, got: seq<Message>, onItsWay: seq<Byte>) {
    AllSendable(sent) && AllSendable(got) && EncodeAll(sent) == EncodeAll(got) + onItsWay
  }

  /** So what was returned is what was sent first; all of it, when nothing is on its way. */
  lemma FlowIsPrefix(sent: seq<Message>, got: seq<Message>, onItsWay: seq<Byte>)
    requires Flow(sent, got, onItsWay)
    ensures got <= sent && (onItsWay == [] ==> got == sent)
  {
    hide Encode;
    UniqueReading(got, onItsWay, sent);
    if onItsWay == [] {
      NothingLeft(sent[|got|..]);
      assert sent == got + sent[|got|..];
    }
  }

  lemma NothingLeft(ms: seq<Message>)
    requires EncodeAll(ms) == []
    ensures ms == []
  {
  }

  /** What waits at the receiver is read as the next messages sent: no header is refused. */
  lemma NeverRefused(sent: seq<Message>, got: seq<Message>, waiting: seq<Byte>, behind: seq<Byte>)
    requires Flow(sent, got, waiting + behind)
    ensures !BadHeader(waiting)
  {
    hide Encode, SizeIn;
    if |waiting| >= HEADER_SIZE {
      UniqueReading(got, waiting + behind, sent);
      var ms := sent[|got|..];
      assert ms != [];
      RefusedIffUnsendable(ms[0], EncodeAll(ms[1..]));
      assert waiting + behind == Encode(ms[0]) + EncodeAll(ms[1..]);
      SameFirstBytes(waiting, behind);
    }
  }

  lemma SameFirstBytes(h: seq<Byte>, later: seq<Byte>)
    requires |h| >= HEADER_SIZE
    ensures BadHeader(h + later) == BadHeader(h)
  {
  }

  ghost predicate Apart(x: NetConnection, y: NetConnection, xy: Wire, yx: Wire)
    reads x, y, x.sendq.hb, y.sendq.hb
    reads if x.recvmsg != null then {x.recvmsg, x.recvmsg.hb} else {}
    reads if y.recvmsg != null then {y.recvmsg, y.recvmsg.hb} else {}
  {
    x.Repr() !! y.Repr() && xy != yx && {xy, yx} !! (x.Repr() + y.Repr())
  }

  /** The bytes between x's callers and y's, oldest first. */
  ghost function OnItsWay(x: NetConnection, xy: Wire, y: NetConnection): seq<Byte>
    requires x.Valid() && y.Valid()
    reads x, x.con, x.SendRepr(), x.sendq.hb, x.Repr(), xy, y, y.con, y.SendRepr(), y.sendq.hb, y.Repr()
    reads if x.recvmsg != null then {x.recvmsg, x.recvmsg.hb} else {}
    reads if y.recvmsg != null then {y.recvmsg, y.recvmsg.hb} else {}
  {
    y.Arrived() + x.Outgoing(xy)
  }

  /** How many moves it takes at most, a byte at a time, until everything sent is read: a byte that
      is queued has three to go, one that is on the wire two, one that was received one. */
  ghost function Way(x: NetConnection, xy: Wire, y: NetConnection): nat
    requires x.con.Valid() && x.SendOk() && y.con.Valid()
    reads x, x.con, x.con.sendBuffer, x.sendq, x.sendq.hb, x.sendq.hb.buf, xy, y, y.con
  {
    3 * |x.Held()| + 2 * |xy.inFlight| + y.con.recvLen
  }

  /** What a Run of one end brings nearer, of what it sends and of what it reads. */
  predicate Nearer(held: nat, held': nat, load: Load, out: nat, out': nat, back: nat, back': nat, added: nat, ok: bool) {
    && held' <= held + added && out' <= out + 3 * added && back' <= back
    && (ok && held + added > 0 ==> out' < out + 3 * added)
    && (ok ==> back' < back || Starved(load))
  }

  lemma RunIsNearer(was: Load, now: Load, added: nat, least: nat, ok: bool, wire: nat, wire': nat, ring: nat, held: nat)
    requires Progressed(was, now, added, least, ok) && wire' + now.held == wire + was.held + added
    ensures Nearer(was.held, now.held, was, 3 * was.held + 2 * wire + ring, 3 * now.held + 2 * wire' + ring,
                   3 * held + ToRead(was), 3 * held + ToRead(now), added, ok && least > 0)
  {
  }

  /** One end queues a message; the other end itself is not touched. */
  method SendApart(x: NetConnection, y: NetConnection, xy: Wire, yx: Wire, m: Message, ghost other: set<object>)
    returns (ok: bool)
    requires other == y.Repr()
    requires x.Valid() && y.Valid() && Apart(x, y, xy, yx)
    modifies x.Repr()
    ensures x.Valid() && y.Valid() && Apart(x, y, xy, yx) && fresh(x.Repr() - old(x.Repr())) && y.Repr() == old(y.Repr())
    ensures x.Outgoing(xy) == old(x.Outgoing(xy)) + (if ok then Encode(m) else []) && x.Arrived() == old(x.Arrived())
    ensures y.Arrived() == old(y.Arrived()) && y.Outgoing(yx) == old(y.Outgoing(yx)) && y.error == old(y.error)
    ensures x.error == if ok then old(x.error) else -2
  {
    hide Encode, Connection.Valid, NetConnection.SendOk, NetConnection.RecvOk, NetConnection.Arrived, NetConnection.Held, NetMessage.Valid;
    var res := x.Send(m, xy);
    assert fresh(x.Repr() - old(x.Repr()));
    hide NetConnection.Repr, NetConnection.SendRepr, NetConnection.RecvRepr;
    assert unchanged(other);
    y.Untouched(yx);
    ok := res == 0;
  }

  /** One end queues a message. */
  method SendAt(x: NetConnection, y: NetConnection, xy: Wire, yx: Wire, m: Message) returns (ok: bool)
    requires x.Valid() && y.Valid() && Apart(x, y, xy, yx)
    modifies x.Repr()
    ensures x.Valid() && y.Valid() && Apart(x, y, xy, yx) && fresh(x.Repr() - old(x.Repr())) && y.Repr() == old(y.Repr())
    ensures OnItsWay(x, xy, y) == old(OnItsWay(x, xy, y)) + if ok then Encode(m) else []
    ensures OnItsWay(y, yx, x) == old(OnItsWay(y, yx, x))
    ensures x.error == (if ok then old(x.error) else -2) && y.error == old(y.error)
  {
    hide Encode, Connection.Valid, NetConnection.SendOk, NetConnection.RecvOk, NetConnection.Arrived, NetConnection.Outgoing,
         NetMessage.Valid, Queue.Valid, Apart, NetConnection.Repr;
    Regroup(y.Arrived(), x.Outgoing(xy), Encode(m));
    Regroup(y.Arrived(), x.Outgoing(xy), []);
    ok := SendApart(x, y, xy, yx, m, y.Repr());
  }

  /** A broken connection stays as it is. */
  predicate Timely(was: Clock, now: Clock, time: int, waiting: bool, queued: bool, returned: bool) {
    if was.error == 0 then Ticked(was, now, time, waiting, queued, returned) && now.error in {0, -1, -3}
    else now == was && !queued && !returned
  }

  /** One end runs; the other end itself is not touched. */
  method RunApart(x: NetConnection, y: NetConnection, xy: Wire, yx: Wire, now: int, least: nat, ghost other: set<object>)
    returns (ret: Option<Message>, queued: seq<Message>)
    requires other == y.Repr()
    requires x.Valid() && y.Valid() && Apart(x, y, xy, yx)
    modifies x.Repr(), xy, yx
    ensures x.Valid() && y.Valid() && Apart(x, y, xy, yx) && fresh(x.Repr() - old(x.Repr())) && y.Repr() == old(y.Repr())
    ensures x.Outgoing(xy) == old(x.Outgoing(xy)) + EncodeAll(queued)
    ensures EncodeOpt(ret) + x.Incoming(yx) == old(x.Incoming(yx))
    ensures (queued == [] || queued == [KEEPALIVE]) && (ret.Some? ==> Sendable(ret.value))
    ensures x.error == -1 && old(x.error) != -1 ==> BadHeader(x.Incoming(yx))
    ensures y.Arrived() == old(y.Arrived()) && y.Held() == old(y.Held())
    ensures y.con.recvLen == old(y.con.recvLen) && y.ClockOf() == old(y.ClockOf())
    ensures Timely(old(x.ClockOf()), x.ClockOf(), now, old(x.sendq.Contents()) != [], queued != [], ret.Some?)
    ensures old(x.error) == 0 ==>
      Progressed(old(x.LoadOf(yx)), x.LoadOf(yx), 5 * |queued|, least, x.error == 0 && x.con.recvBuffer.Length >= HEADER_SIZE)
  {
    hide Encode, EncodeAll, EncodeOpt, BadHeader, Sendable, Connection.Valid, NetConnection.SendOk, NetConnection.RecvOk,
         NetConnection.Arrived, NetConnection.Held, NetConnection.Outgoing, NetConnection.Incoming, NetMessage.Valid, Queue.Valid,
         NetConnection.Repr, NetConnection.SendRepr, NetConnection.RecvRepr;
    ret, queued := x.Run(now, xy, yx, least);
    assert unchanged(other);
    y.Untouched(yx);
    assert x.Repr() !! other;
  }

  /** One end runs: it may queue a keepalive and hand over a message. */
  method RunAt(x: NetConnection, y: NetConnection, xy: Wire, yx: Wire, now: int, least: nat)
    returns (ret: Option<Message>, queued: seq<Message>, ghost waiting: seq<Byte>, ghost behind: seq<Byte>)
    requires x.Valid() && y.Valid() && Apart(x, y, xy, yx)
    modifies x.Repr(), xy, yx
    ensures x.Valid() && y.Valid() && Apart(x, y, xy, yx) && fresh(x.Repr() - old(x.Repr())) && y.Repr() == old(y.Repr())
    ensures OnItsWay(x, xy, y) == old(OnItsWay(x, xy, y)) + EncodeAll(queued)
    ensures EncodeOpt(ret) + OnItsWay(y, yx, x) == old(OnItsWay(y, yx, x))
    ensures (queued == [] || queued == [KEEPALIVE]) && (ret.Some? ==> Sendable(ret.value))
    ensures OnItsWay(y, yx, x) == waiting + behind
    ensures x.error == -1 && old(x.error) != -1 ==> BadHeader(waiting)
    ensures y.ClockOf() == old(y.ClockOf()) && y.Held() == old(y.Held())
    ensures Timely(old(x.ClockOf()), x.ClockOf(), now, old(x.sendq.Contents()) != [], queued != [], ret.Some?)
    ensures old(x.error) == 0 ==>
      Nearer(|old(x.Held())|, |x.Held()|, old(x.LoadOf(yx)), old(Way(x, xy, y)), Way(x, xy, y), old(Way(y, yx, x)), Way(y, yx, x),
             5 * |queued|, least > 0 && x.error == 0 && x.con.recvBuffer.Length >= HEADER_SIZE)
  {
    hide Encode, EncodeAll, EncodeOpt, BadHeader, Sendable, Connection.Valid, NetConnection.SendOk, NetConnection.RecvOk,
         NetConnection.Arrived, NetConnection.Held, NetMessage.Valid, Queue.Valid, Apart, NetConnection.Repr;
    behind := y.Held();
    Regroup(x.Arrived(), yx.inFlight, behind);
    Regroup(y.Arrived(), x.Outgoing(xy), []);
    ghost var arrived, outgoing := y.Arrived(), x.Outgoing(xy);
    ghost var load, out, held := x.LoadOf(yx), |xy.inFlight|, |y.Held()|;
    OutgoingLength(x, xy);
    ret, queued := RunApart(x, y, xy, yx, now, least, y.Repr());
    OutgoingLength(x, xy);
    KeepalivesEncoded(queued);
    if old(x.error) == 0 {
      RunIsNearer(load, x.LoadOf(yx), 5 * |queued|, least, x.error == 0 && x.con.recvBuffer.Length >= HEADER_SIZE,
                  out, |xy.inFlight|, y.con.recvLen, held);
    }
    Regroup(arrived, outgoing, EncodeAll(queued));
    waiting := x.Incoming(yx);
    Regroup(x.Arrived(), yx.inFlight, behind);
    Regroup(EncodeOpt(ret), waiting, behind);
  }

  lemma KeepalivesEncoded(queued: seq<Message>)
    requires queued == [] || queued == [KEEPALIVE]
    ensures |EncodeAll(queued)| == 5 * |queued|
  {
    hide Header;
  }

  lemma OutgoingLength(x: NetConnection, xy: Wire)
    requires x.con.Valid() && x.SendOk()
    ensures |x.Outgoing(xy)| == |xy.inFlight| + |x.Held()|
  {
    hide NetConnection.Held;
  }

  lemma FlowGrows(sent: seq<Message>, got: seq<Message>, was: seq<Byte>, now: seq<Byte>, more: seq<Message>, ret: Option<Message>)
    requires Flow(sent, got, was) && AllSendable(more) && (ret.Some? ==> Sendable(ret.value))
    requires EncodeOpt(ret) + now == was + EncodeAll(more)
    ensures Flow(sent + more, got + (if ret.Some? then [ret.value] else []), now)
  {
    hide Encode;
    EncodeAllAppend(sent, more);
    Regroup(EncodeAll(got), was, EncodeAll(more));
    var last := if ret.Some? then [ret.value] else [];
    EncodeAllAppend(got, last);
    OneEncoded(ret);
    Regroup(EncodeAll(got), EncodeOpt(ret), now);
  }

  lemma OneEncoded(ret: Option<Message>)
    ensures EncodeAll(if ret.Some? then [ret.value] else []) == EncodeOpt(ret)
  {
    hide Encode;
  }

  /** A schedule whose messages may be sent. */
  predicate Fair(schedule: seq<Action>) {
    forall i :: 0 <= i < |schedule| && schedule[i].Send? ==> Sendable(schedule[i].m)
  }

  /** One action at one end, with the flow from x to y and back. */
  method Act(x: NetConnection, y: NetConnection, xy: Wire, yx: Wire, act: Action, ghost os: seq<Outcome>)
    returns (o: Outcome)
    requires x.Valid() && y.Valid() && Apart(x, y, xy, yx) && (act.Send? ==> Sendable(act.m))
    requires Flow(SentBy(os, act.left), GotBy(os, !act.left), OnItsWay(x, xy, y))
    requires Flow(SentBy(os, !act.left), GotBy(os, act.left), OnItsWay(y, yx, x))
    requires x.error != -1
    modifies x.Repr(), xy, yx
    ensures x.Valid() && y.Valid() && Apart(x, y, xy, yx) && fresh(x.Repr() - old(x.Repr())) && y.Repr() == old(y.Repr())
    ensures Answers(o, act) && x.error != -1
    ensures act.Send? ==> y.error == old(y.error)
    ensures act.Run? ==>
      && y.ClockOf() == old(y.ClockOf()) && y.Held() == old(y.Held()) && o.Ran?
      && Timely(old(x.ClockOf()), x.ClockOf(), act.now, old(x.sendq.Contents()) != [], o.queued != [], o.ret.Some?)
      && (old(x.error) == 0 ==>
            Nearer(|old(x.Held())|, |x.Held()|, old(x.LoadOf(yx)), old(Way(x, xy, y)), Way(x, xy, y), old(Way(y, yx, x)), Way(y, yx, x),
                   5 * |o.queued|, act.least > 0 && x.error == 0 && x.con.recvBuffer.Length >= HEADER_SIZE))
    ensures Flow(SentBy(os + [o], act.left), GotBy(os + [o], !act.left), OnItsWay(x, xy, y))
    ensures Flow(SentBy(os + [o], !act.left), GotBy(os + [o], act.left), OnItsWay(y, yx, x))
  {
    hide Encode, Connection.Valid, NetConnection.Valid, Apart, Flow, NetConnection.Repr, OnItsWay, BadHeader;
    ghost var there, back := OnItsWay(x, xy, y), OnItsWay(y, yx, x);
    match act
    case Send(left, m) =>
      var ok := SendAt(x, y, xy, yx, m);
      o := Sent(left, m, ok);
      OneEncoded(Some(m));
      Recorded(os, o, left, there, OnItsWay(x, xy, y), back, OnItsWay(y, yx, x));
    case Run(left, now, least) =>
      var ret, queued;
      ghost var waiting, behind;
      ret, queued, waiting, behind := RunAt(x, y, xy, yx, now, least);
      o := Ran(left, ret, queued);
      Recorded(os, o, left, there, OnItsWay(x, xy, y), back, OnItsWay(y, yx, x));
      NeverRefused(SentBy(os + [o], !left), GotBy(os + [o], left), waiting, behind);
  }

  function Taken(o: Outcome): seq<Message> {
    if o.Ran? then o.queued else if o.ok then [o.m] else []
  }

  function Returned(o: Outcome): Option<Message> {
    if o.Ran? then o.ret else None
  }

  lemma Recorded(os: seq<Outcome>, o: Outcome, left: bool, there: seq<Byte>, there': seq<Byte>, back: seq<Byte>, back': seq<Byte>)
    requires o.left == left && AllSendable(Taken(o)) && (Returned(o).Some? ==> Sendable(Returned(o).value))
    requires Flow(SentBy(os, left), GotBy(os, !left), there) && Flow(SentBy(os, !left), GotBy(os, left), back)
    requires there' == there + EncodeAll(Taken(o)) && EncodeOpt(Returned(o)) + back' == back
    ensures Flow(SentBy(os + [o], left), GotBy(os + [o], !left), there')
    ensures Flow(SentBy(os + [o], !left), GotBy(os + [o], left), back')
  {
    hide Encode, Flow;
    assert (os + [o])[..|os|] == os;
    FlowGrows(SentBy(os, left), GotBy(os, !left), there, there', Taken(o), None);
    FlowGrows(SentBy(os, !left), GotBy(os, left), back, back', [], Returned(o));
    assert GotBy(os, !left) + [] == GotBy(os, !left) && SentBy(os, !left) + [] == SentBy(os, !left);
  }

  /** Whatever the schedule, and however the socket takes and gives bytes: the messages one
      end's Run returns are the first messages the other end took for sending, byte for byte
      and in order; all of them, once nothing is on its way. No message is refused. */
  method Converse(a: NetConnection, b: NetConnection, ab: Wire, ba: Wire, schedule: seq<Action>)
    returns (os: seq<Outcome>)
    requires a.Valid() && b.Valid() && Apart(a, b, ab, ba) && Fair(schedule)
    requires OnItsWay(a, ab, b) == [] && OnItsWay(b, ba, a) == [] && a.error == 0 == b.error
    modifies a.Repr(), b.Repr(), ab, ba
    ensures |os| == |schedule| && forall i :: 0 <= i < |os| ==> Answers(os[i], schedule[i])
    ensures a.Valid() && b.Valid() && Apart(a, b, ab, ba)
    ensures forall r :: r in a.Repr() + b.Repr() ==> r in old(a.Repr() + b.Repr()) || fresh(r)
    ensures Flow(SentBy(os, true), GotBy(os, false), OnItsWay(a, ab, b))
    ensures Flow(SentBy(os, false), GotBy(os, true), OnItsWay(b, ba, a))
    ensures GotBy(os, false) <= SentBy(os, true) && GotBy(os, true) <= SentBy(os, false)
    ensures OnItsWay(a, ab, b) == [] ==> GotBy(os, false) == SentBy(os, true)
    ensures OnItsWay(b, ba, a) == [] ==> GotBy(os, true) == SentBy(os, false)
    ensures a.error != -1 && b.error != -1
  {
    hide Encode, Connection.Valid, NetConnection.Valid, Flow, NetConnection.Repr, OnItsWay, Sendable, Answers,
         SentBy, GotBy, EncodeAll, NetConnection.SendRepr, NetConnection.RecvRepr;
    os := [];
    NothingYet();
    for i := 0 to |schedule|
      invariant |os| == i && forall k :: 0 <= k < i ==> Answers(os[k], schedule[k])
      invariant a.Valid() && b.Valid() && Apart(a, b, ab, ba) && a.error != -1 && b.error != -1
      invariant forall r :: r in a.Repr() + b.Repr() ==> r in old(a.Repr() + b.Repr()) || fresh(r)
      invariant Flow(SentBy(os, true), GotBy(os, false), OnItsWay(a, ab, b))
      invariant Flow(SentBy(os, false), GotBy(os, true), OnItsWay(b, ba, a))
    {
      var act := schedule[i];
      var o;
      label Turn:
      if act.left {
        o := Act(a, b, ab, ba, act, os);
      } else {
        o := Act(b, a, ba, ab, act, os);
      }
      forall r | r in a.Repr() + b.Repr()
        ensures r in old(a.Repr() + b.Repr()) || fresh(r)
      {
        if r !in old@Turn(a.Repr() + b.Repr()) {
          assert fresh@Turn(r);
        }
      }
      os := os + [o];
    }
    FlowIsPrefix(SentBy(os, true), GotBy(os, false), OnItsWay(a, ab, b));
    FlowIsPrefix(SentBy(os, false), GotBy(os, true), OnItsWay(b, ba, a));
  }

  lemma NothingYet()
    ensures Flow(SentBy([], true), GotBy([], false), []) && Flow(SentBy([], false), GotBy([], true), [])
  {
  }
}
