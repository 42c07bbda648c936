/** Nothing stays on its way: when both ends keep running, the socket moves at least one byte
    whenever it can, and nothing more is sent, every message sent is returned. */
module Delivery {
  import opened Bytes
  import opened Connections
  import opened NetMessages
  import opened NetConnections
  import opened EndToEnd

  /** Both ends run once, at these times, and the socket moves this many bytes at least. */
  datatype Round = Round(atLeft: int, atRight: int, leastLeft: nat, leastRight: nat)

  predicate Lively(rounds: seq<Round>) {
    forall i :: 0 <= i < |rounds| ==> rounds[i].leastLeft > 0 && rounds[i].leastRight > 0
  }

  /** No keepalive was queued at this end. */
  predicate Quiet(os: seq<Outcome>, left: bool) {
    forall i :: 0 <= i < |os| && os[i].Ran? && os[i].left == left ==> os[i].queued == []
  }

  /** A message that was begun lacks some of its data, and less than a header is no message:
      when nothing more can be read and nothing else is on its way, nothing is. */
  lemma NothingHalf(sent: seq<Message>, got: seq<Message>, mtype: int, size: nat, parsed: seq<Byte>, received: seq<Byte>, begun: bool)
    requires begun ==> received == [] && |parsed| < size <= NET_MESSAGE_MAX_SIZE
    requires !begun ==> |received| < HEADER_SIZE
    requires Flow(sent, got, (if begun then Header(mtype, size) + parsed else []) + received)
    ensures !begun && received == []
  {
    hide Encode;
    var rest := (if begun then Header(mtype, size) + parsed else []) + received;
    UniqueReading(got, rest, sent);
    var ms := sent[|got|..];
    if ms != [] {
      RefusedIffUnsendable(ms[0], EncodeAll(ms[1..]));
      assert rest == Encode(ms[0]) + EncodeAll(ms[1..]);
      SizeReadsBack(mtype, if begun then size else 0);
    }
  }

  /** When x holds nothing back and y can read nothing, nothing is on its way. */
  lemma Settled(x: NetConnection, xy: Wire, y: NetConnection, sent: seq<Message>, got: seq<Message>)
    requires x.Valid() && y.Valid() && Flow(sent, got, OnItsWay(x, xy, y))
    requires x.Held() == [] && Starved(y.LoadOf(xy))
    ensures OnItsWay(x, xy, y) == [] && Way(x, xy, y) == 0
  {
    hide Flow, Ring, Header, NetConnection.Held;
    var begun := y.recvmsg != null && y.headerSeen;
    var parsed := if begun then y.recvmsg.Parsed() else [];
    var received := y.con.Received();
    assert y.Partial() == if begun then Header(y.recvmsg.mtype, y.recvmsg.hb.size) + parsed else [];
    assert OnItsWay(x, xy, y) == y.Partial() + received;
    NothingHalf(sent, got, if begun then y.recvmsg.mtype else 0, if begun then y.recvmsg.hb.size else 0, parsed, received, begun);
  }

  lemma WayBound(x: NetConnection, xy: Wire, y: NetConnection)
    requires x.Valid() && y.Valid()
    ensures Way(x, xy, y) <= 3 * |OnItsWay(x, xy, y)|
    ensures Way(x, xy, y) == 0 ==> x.Held() == [] && Starved(y.LoadOf(xy))
  {
    hide NetConnection.Held, NetConnection.Partial;
  }

  /** What a Run at some time does to the clock of its end. */
  predicate Punctual(was: Clock, now: Clock, time: int, queued: bool) {
    && (was.error != 0 ==> now == was)
    && (was.error == 0 && time <= was.lastSend + was.keepalive && time <= was.lastRecv + was.keepalive * 3 ==>
          && !queued && now.error == 0 && now.keepalive == was.keepalive
          && now.lastSend in {was.lastSend, time} && now.lastRecv in {was.lastRecv, time})
  }

  /** One end runs: what it sends gets nearer, if it holds any; so does what it reads, unless the
      other end holds it all. */
  method RunOne(x: NetConnection, y: NetConnection, xy: Wire, yx: Wire, left: bool, time: int, least: nat, ghost os: seq<Outcome>)
    returns (o: Outcome)
    requires x.Valid() && y.Valid() && Apart(x, y, xy, yx) && x.error != -1
    requires Flow(SentBy(os, left), GotBy(os, !left), OnItsWay(x, xy, y))
    requires Flow(SentBy(os, !left), GotBy(os, left), OnItsWay(y, yx, x))
    modifies x.Repr(), xy, yx
    ensures x.Valid() && y.Valid() && Apart(x, y, xy, yx) && x.error != -1
    ensures fresh(x.Repr() - old(x.Repr())) && y.Repr() == old(y.Repr())
    ensures o.Ran? && o.left == left
    ensures Flow(SentBy(os + [o], left), GotBy(os + [o], !left), OnItsWay(x, xy, y))
    ensures Flow(SentBy(os + [o], !left), GotBy(os + [o], left), OnItsWay(y, yx, x))
    ensures Punctual(old(x.ClockOf()), x.ClockOf(), time, o.queued != [])
    ensures y.ClockOf() == old(y.ClockOf()) && y.Held() == old(y.Held())
    ensures least > 0 && x.error == 0 && x.con.recvBuffer.Length >= HEADER_SIZE ==>
      && (o.queued == [] ==> Way(x, xy, y) < old(Way(x, xy, y)) ||
                             (Way(x, xy, y) == old(Way(x, xy, y)) && old(x.Held()) == [] && x.Held() == []))
      && (Way(y, yx, x) < old(Way(y, yx, x)) || (Way(y, yx, x) == old(Way(y, yx, x)) && y.Held() != []) || Way(y, yx, x) == 0)
  {
    hide Flow, NetConnection.Valid, Apart, OnItsWay, Way, SentBy, GotBy, NetConnection.Repr, NetConnection.LoadOf, NetConnection.Held;
    if y.Held() == [] && Starved(x.LoadOf(yx)) {
      Settled(y, yx, x, SentBy(os, !left), GotBy(os, left));
    }
    o := Act(x, y, xy, yx, Run(left, time, least), os);
  }

  /** Both ends run once: what is sent gets nearer, until nothing is on its way. */
  method BothRun(a: NetConnection, b: NetConnection, ab: Wire, ba: Wire, r: Round, ghost os: seq<Outcome>)
    returns (o: Outcome, p: Outcome)
    requires a.Valid() && b.Valid() && Apart(a, b, ab, ba) && a.error != -1 && b.error != -1
    requires Flow(SentBy(os, true), GotBy(os, false), OnItsWay(a, ab, b))
    requires Flow(SentBy(os, false), GotBy(os, true), OnItsWay(b, ba, a))
    modifies a.Repr(), b.Repr(), ab, ba
    ensures a.Valid() && b.Valid() && Apart(a, b, ab, ba) && a.error != -1 && b.error != -1
    ensures forall r :: r in a.Repr() + b.Repr() ==> r in old(a.Repr() + b.Repr()) || fresh(r)
    ensures o.Ran? && o.left && p.Ran? && !p.left
    ensures Flow(SentBy(os + [o] + [p], true), GotBy(os + [o] + [p], false), OnItsWay(a, ab, b))
    ensures Flow(SentBy(os + [o] + [p], false), GotBy(os + [o] + [p], true), OnItsWay(b, ba, a))
    ensures Punctual(old(a.ClockOf()), a.ClockOf(), r.atLeft, o.queued != [])
    ensures Punctual(old(b.ClockOf()), b.ClockOf(), r.atRight, p.queued != [])
    ensures r.leastLeft > 0 && r.leastRight > 0 && a.error == 0 == b.error
            && a.con.recvBuffer.Length >= HEADER_SIZE && b.con.recvBuffer.Length >= HEADER_SIZE ==>
      && (o.queued == [] ==> Way(a, ab, b) < old(Way(a, ab, b)) || Way(a, ab, b) == 0)
      && (p.queued == [] ==> Way(b, ba, a) < old(Way(b, ba, a)) || Way(b, ba, a) == 0)
  {
    hide Flow, NetConnection.Valid, OnItsWay, Way, SentBy, GotBy, NetConnection.Repr, NetConnection.LoadOf, NetConnection.Held;
    o := RunOne(a, b, ab, ba, true, r.atLeft, r.leastLeft, os);
    label Middle:
    p := RunOne(b, a, ba, ab, false, r.atRight, r.leastRight, os + [o]);
    forall r | r in a.Repr() + b.Repr()
      ensures r in old(a.Repr() + b.Repr()) || fresh(r)
    {
      if r !in old@Middle(a.Repr() + b.Repr()) {
        assert fresh@Middle(r);
      }
    }
  }

  function At(r: Round, left: bool): int {
    if left then r.atLeft else r.atRight
  }

  /** Every Run comes before a keepalive is due, and before the connection is given up. */
  predicate InTime(c: Clock, rounds: seq<Round>, left: bool) {
    && c.error == 0
    && (forall i :: 0 <= i < |rounds| ==>
          At(rounds[i], left) <= c.lastSend + c.keepalive && At(rounds[i], left) <= c.lastRecv + c.keepalive * 3)
    && (forall i, j :: 0 <= i < j < |rounds| ==>
          At(rounds[j], left) <= At(rounds[i], left) + c.keepalive && At(rounds[j], left) <= At(rounds[i], left) + c.keepalive * 3)
  }

  lemma StillInTime(was: Clock, now: Clock, rounds: seq<Round>, left: bool, queued: bool)
    requires rounds != [] && InTime(was, rounds, left) && Punctual(was, now, At(rounds[0], left), queued)
    ensures !queued && InTime(now, rounds[1..], left)
  {
    var rest := rounds[1..];
    forall i | 0 <= i < |rest|
      ensures At(rest[i], left) <= now.lastSend + now.keepalive && At(rest[i], left) <= now.lastRecv + now.keepalive * 3
    {
      assert rest[i] == rounds[i + 1];
    }
  }

  /** In time so far, with no keepalive. */
  predicate Keeping(os: seq<Outcome>, left: bool, rounds: seq<Round>, i: nat, first: Clock, now: Clock)
    requires i <= |rounds|
  {
    InTime(first, rounds, left) ==> Quiet(os, left) && InTime(now, rounds[i..], left) && now.error == 0
  }

  lemma StillKeeping(os: seq<Outcome>, o: Outcome, p: Outcome, left: bool, rounds: seq<Round>, i: nat, first: Clock, was: Clock, now: Clock)
    requires i < |rounds| && Keeping(os, left, rounds, i, first, was) && o.Ran? && o.left && p.Ran? && !p.left
    requires Punctual(was, now, At(rounds[i], left), (if left then o else p).queued != [])
    ensures Keeping(os + [o, p], left, rounds, i + 1, first, now)
  {
    hide InTime, Quiet, Punctual;
    assert rounds[i..][1..] == rounds[i + 1..];
    QuietGrows(os, o, p, left);
    if InTime(first, rounds, left) {
      StillInTime(was, now, rounds[i..], left, (if left then o else p).queued != []);
    }
  }

  /** Each round is one move nearer at least. */
  predicate Nearing(os: seq<Outcome>, left: bool, ok: bool, first: nat, now: nat, i: nat) {
    ok && Quiet(os, left) ==> now == 0 || now + i <= first
  }

  lemma StillNearing(os: seq<Outcome>, o: Outcome, p: Outcome, left: bool, a: Clock, a': Clock, b: Clock, b': Clock, r: Round,
                     first: nat, was: nat, now: nat, i: nat)
    requires Nearing(os, left, a.error == 0 == b.error, first, was, i) && o.Ran? && o.left && p.Ran? && !p.left
    requires Punctual(a, a', r.atLeft, o.queued != []) && Punctual(b, b', r.atRight, p.queued != [])
    requires a'.error == 0 == b'.error && (if left then o else p).queued == [] ==> now < was || now == 0
    ensures Nearing(os + [o, p], left, a'.error == 0 == b'.error, first, now, i + 1)
  {
    hide Quiet;
    QuietGrows(os, o, p, left);
  }

  lemma NoneQueued(rounds: seq<Round>, a: Clock, b: Clock)
    ensures Keeping([], true, rounds, 0, a, a) && Keeping([], false, rounds, 0, b, b)
  {
    assert rounds[0..] == rounds;
  }

  /** Nothing more is sent, both ends keep running, and the socket moves a byte whenever it can:
      after three rounds for each byte on its way nothing is, and what was returned is exactly what
      was sent. Neither end sends a keepalive or gives up as long as the rounds are in time. */
  method Settle(a: NetConnection, b: NetConnection, ab: Wire, ba: Wire, rounds: seq<Round>, ghost before: seq<Outcome>)
    returns (os: seq<Outcome>)
    requires a.Valid() && b.Valid() && Apart(a, b, ab, ba) && a.error != -1 && b.error != -1
    requires a.con.recvBuffer.Length >= HEADER_SIZE && b.con.recvBuffer.Length >= HEADER_SIZE && Lively(rounds)
    requires Flow(SentBy(before, true), GotBy(before, false), OnItsWay(a, ab, b))
    requires Flow(SentBy(before, false), GotBy(before, true), OnItsWay(b, ba, a))
    modifies a.Repr(), b.Repr(), ab, ba
    ensures a.Valid() && b.Valid() && (forall o :: o in os ==> o.Ran?)
    ensures a.error == 0 == b.error && Quiet(os, true) && |rounds| >= 3 * |old(OnItsWay(a, ab, b))| ==>
              OnItsWay(a, ab, b) == [] && GotBy(before + os, false) == SentBy(before + os, true)
    ensures a.error == 0 == b.error && Quiet(os, false) && |rounds| >= 3 * |old(OnItsWay(b, ba, a))| ==>
              OnItsWay(b, ba, a) == [] && GotBy(before + os, true) == SentBy(before + os, false)
    ensures InTime(old(a.ClockOf()), rounds, true) ==> a.error == 0 && Quiet(os, true)
    ensures InTime(old(b.ClockOf()), rounds, false) ==> b.error == 0 && Quiet(os, false)
  {
    hide Flow, NetConnection.Valid, OnItsWay, Way, SentBy, GotBy, NetConnection.Repr, Quiet, InTime, Punctual;
    WayBound(a, ab, b);
    WayBound(b, ba, a);
    os := [];
    assert before + os == before;
    NoneQueued(rounds, a.ClockOf(), b.ClockOf());
    for i := 0 to |rounds|
      invariant a.Valid() && b.Valid() && Apart(a, b, ab, ba) && a.error != -1 && b.error != -1
      invariant forall r :: r in a.Repr() + b.Repr() ==> r in old(a.Repr() + b.Repr()) || fresh(r)
      invariant forall o :: o in os ==> o.Ran?
      invariant Flow(SentBy(before + os, true), GotBy(before + os, false), OnItsWay(a, ab, b))
      invariant Flow(SentBy(before + os, false), GotBy(before + os, true), OnItsWay(b, ba, a))
      invariant Nearing(os, true, a.error == 0 == b.error, old(Way(a, ab, b)), Way(a, ab, b), i)
      invariant Nearing(os, false, a.error == 0 == b.error, old(Way(b, ba, a)), Way(b, ba, a), i)
      invariant Keeping(os, true, rounds, i, old(a.ClockOf()), a.ClockOf())
      invariant Keeping(os, false, rounds, i, old(b.ClockOf()), b.ClockOf())
    {
      var o, p;
      label Turn:
      o, p := BothRun(a, b, ab, ba, rounds[i], before + os);
      forall r | r in a.Repr() + b.Repr()
        ensures r in old(a.Repr() + b.Repr()) || fresh(r)
      {
        if r !in old@Turn(a.Repr() + b.Repr()) {
          assert fresh@Turn(r);
        }
      }
      StillKeeping(os, o, p, true, rounds, i, old(a.ClockOf()), old@Turn(a.ClockOf()), a.ClockOf());
      StillKeeping(os, o, p, false, rounds, i, old(b.ClockOf()), old@Turn(b.ClockOf()), b.ClockOf());
      StillNearing(os, o, p, true, old@Turn(a.ClockOf()), a.ClockOf(), old@Turn(b.ClockOf()), b.ClockOf(), rounds[i],
                   old(Way(a, ab, b)), old@Turn(Way(a, ab, b)), Way(a, ab, b), i);
      StillNearing(os, o, p, false, old@Turn(a.ClockOf()), a.ClockOf(), old@Turn(b.ClockOf()), b.ClockOf(), rounds[i],
                   old(Way(b, ba, a)), old@Turn(Way(b, ba, a)), Way(b, ba, a), i);
      assert before + os + [o] + [p] == before + (os + [o, p]);
      os := os + [o, p];
    }
    if Way(a, ab, b) == 0 {
      NoneLeft(a, ab, b, SentBy(before + os, true), GotBy(before + os, false));
    }
    if Way(b, ba, a) == 0 {
      NoneLeft(b, ba, a, SentBy(before + os, false), GotBy(before + os, true));
    }
  }

  lemma QuietGrows(os: seq<Outcome>, o: Outcome, p: Outcome, left: bool)
    requires o.Ran? && o.left && p.Ran? && !p.left
    ensures Quiet(os + [o, p], left) <==> Quiet(os, left) && (if left then o else p).queued == []
  {
    var all := os + [o, p];
    assert all[|os|] == o && all[|os| + 1] == p;
    assert forall i :: 0 <= i < |os| ==> all[i] == os[i];
  }

  lemma NoneLeft(x: NetConnection, xy: Wire, y: NetConnection, sent: seq<Message>, got: seq<Message>)
    requires x.Valid() && y.Valid() && Flow(sent, got, OnItsWay(x, xy, y)) && Way(x, xy, y) == 0
    ensures OnItsWay(x, xy, y) == [] && got == sent
  {
    hide Flow, NetConnection.Valid, OnItsWay, Way;
    WayBound(x, xy, y);
    Settled(x, xy, y, sent, got);
    FlowIsPrefix(sent, got, OnItsWay(x, xy, y));
  }

  lemma OnItsWayBound(sent: seq<Message>, got: seq<Message>, onItsWay: seq<Byte>)
    requires Flow(sent, got, onItsWay)
    ensures |onItsWay| <= |EncodeAll(sent)|
  {
    hide Encode;
  }

  /** From a fresh connection: whatever is said and whenever the ends run, once they have run three
      times more for each byte sent, each end was handed all the messages the other one sent. */
  method Deliver(a: NetConnection, b: NetConnection, ab: Wire, ba: Wire, schedule: seq<Action>, rounds: seq<Round>)
    returns (os: seq<Outcome>, more: seq<Outcome>)
    requires a.Valid() && b.Valid() && Apart(a, b, ab, ba) && Fair(schedule) && Lively(rounds)
    requires a.con.recvBuffer.Length >= HEADER_SIZE && b.con.recvBuffer.Length >= HEADER_SIZE
    requires OnItsWay(a, ab, b) == [] && OnItsWay(b, ba, a) == [] && a.error == 0 == b.error
    modifies a.Repr(), b.Repr(), ab, ba
    ensures |os| == |schedule| && (forall i :: 0 <= i < |os| ==> Answers(os[i], schedule[i])) && forall o :: o in more ==> o.Ran?
    ensures a.error == 0 == b.error && Quiet(more, true) && |rounds| >= 3 * |EncodeAll(SentBy(os, true))| ==>
              GotBy(os + more, false) == SentBy(os + more, true)
    ensures a.error == 0 == b.error && Quiet(more, false) && |rounds| >= 3 * |EncodeAll(SentBy(os, false))| ==>
              GotBy(os + more, true) == SentBy(os + more, false)
  {
    hide Flow, NetConnection.Valid, OnItsWay, SentBy, GotBy, NetConnection.Repr, NetConnection.LoadOf, EncodeAll;
    os := Converse(a, b, ab, ba, schedule);
    OnItsWayBound(SentBy(os, true), GotBy(os, false), OnItsWay(a, ab, b));
    OnItsWayBound(SentBy(os, false), GotBy(os, true), OnItsWay(b, ba, a));
    more := Settle(a, b, ab, ba, rounds, os);
  }
}
