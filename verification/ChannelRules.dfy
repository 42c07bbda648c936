/** What arrivals, silences, mode changes and swaps do to one channel's three places, and that what
    is queued plays (njclient.cpp). */
module ChannelRules {
  import opened IntervalTag
  import opened Options
  import opened Channels
  import opened Sequences

  // ----- one event -----

  /** A download goes behind what is queued, and replaces the last one when both places are taken;
      one that cannot be decoded empties its place, and so does a silence. */
  lemma ArrivalRule(c: Channel, d: Option<Decode>)
    requires !c.session
    ensures var r := Arrived(c, d);
            && r.ds == c.ds && r.hold == c.hold
            && if c.next0.None? then r.next0 == d && r.next1 == c.next1 else r.next0 == c.next0 && r.next1 == d
    ensures !c.live ==> Silenced(c) == Arrived(c, None)
    ensures c.live ==> Silenced(c) == c
  {
  }

  /** A session channel queues nothing. */
  lemma SessionRule(c: Channel, d: Option<Decode>)
    requires c.session
    ensures Arrived(c, d) == c && Silenced(c) == c
  {
  }

  /** A change between voice chat, session mode and interval mode drops everything; coming from
      voice chat to interval mode, the channel must find its place again. */
  lemma ModeRule(c: Channel, live: bool, session: bool, videoOnly: bool)
    ensures var r := Announced(c, live, session, videoOnly);
            && r.live == live && r.session == session && r.videoOnly == videoOnly
            && if c.live == live && c.session == session then r.Queue() == c.Queue() && r.hold == c.hold && r.rejoin == c.rejoin
               else r.Queue() == [] && r.hold == 0 && (r.rejoin > 0 <==> c.live && !live && !session)
  {
  }

  /** The END of a download is noted in every place that plays it, and nowhere else. */
  lemma EndRule(c: Channel, g: Guid, t: real)
    ensures var r, q := Ended(c, g, t).Queue(), c.Queue();
            && |r| == |q|
            && forall i :: 0 <= i < |q| ==> r[i] == if q[i].guid == g then Decode(g, q[i].beginMs, t) else q[i]
  {
  }

  /** A swap: a held channel goes on waiting; a late user's channel is silent and keeps its queue;
      else the queue moves up, unheard when the channel is not subscribed. */
  lemma SwapRule(c: Channel, playable: bool, late: bool)
    requires !c.live && !c.session
    ensures var r := Swapped(c, playable, late);
            if c.hold > 0 then r == c.(hold := c.hold - 1)
            else if late && !c.videoOnly then r == c.(ds := None)
            else r.next0 == c.next1 && r.next1 == None && r.hold == 0 && r.ds == if playable then c.next0 else None
  {
  }

  /** Voice chat and session mode do not move at swaps. */
  lemma NoSwapRule(c: Channel, playable: bool, late: bool)
    requires c.live || c.session
    ensures Swapped(c, playable, late) == c
  {
  }

  /** The guard against late starts: as configured, in milliseconds, but at most a quarter of the
      interval, when its length is known. */
  lemma GuardRule(configMs: real, length: nat, srate: int)
    ensures var g := LateStartGuard(configMs, IntervalMs(length, srate));
            && (configMs <= 0.0 ==> g == 0.0)
            && (configMs > 0.0 && (srate <= 0 || length == 0) ==> g == configMs)
            && (configMs > 0.0 && srate > 0 && length > 0 ==>
                  g == if configMs * 4.0 * srate as real <= length as real * 1000.0 then configMs
                       else length as real * 1000.0 / srate as real / 4.0)
  {
    if configMs > 0.0 && srate > 0 && length > 0 {
      Quarter(configMs, length as real * 1000.0, srate as real);
    }
  }

  lemma Quarter(x: real, a: real, r: real)
    requires r > 0.0 && a > 0.0
    ensures a / r > 0.0 && (a / r * 0.25 < x <==> !(x * 4.0 * r <= a))
  {
    var q := a / r;
    assert q * r == a;
    var d := x * 4.0 - q;
    assert d * r == x * 4.0 * r - a;
    SignOf(d, r);
    SignOf(q, r);
  }

  lemma SignOf(d: real, r: real)
    requires r > 0.0
    ensures d > 0.0 <==> d * r > 0.0
  {
  }

  // ----- alignment that does nothing -----

  /** Channels of different sessions are not aligned. */
  lemma OtherSessionsStay(u: User, joined: set<int>, i: nat, j: nat)
    requires i < |u.chs| && j < |u.chs| && Tagged(u, i) && Tagged(u, j)
    requires !SameSession(u.chs[i].ds.value.guid, u.chs[j].ds.value.guid)
    ensures Aligned(u, joined) == u
  {
    hide Tagged, Lowest, Highest, SkipsForward, MovedTo, Numbers;
    var list := Aligning(u, |u.chs|);
    assert i in list && j in list;
  }

  // ----- what is queued plays -----

  datatype Turn = Comes(d: Decode) | Swap(late: bool)

  function Turned(c: Channel, t: Turn): Channel {
    match t
    case Comes(d) => Arrived(c, Some(d))
    case Swap(late) => Swapped(c, true, late)
  }

  function After(c: Channel, ts: seq<Turn>): Channel {
    if ts == [] then c else Turned(After(c, ts[..|ts| - 1]), ts[|ts| - 1])
  }

  function Came(ts: seq<Turn>): seq<Decode> {
    if ts == [] then []
    else Came(ts[..|ts| - 1]) + if ts[|ts| - 1].Comes? then [ts[|ts| - 1].d] else []
  }

  /** What starts to play, swap by swap: what plays afterwards, unless it was held and goes on waiting. */
  function Begins(c: Channel, ts: seq<Turn>): seq<Decode> {
    if ts == [] then []
    else
      var front := ts[..|ts| - 1];
      Begins(c, front) + if ts[|ts| - 1].Swap? && After(c, front).hold == 0 then One(After(c, ts).ds) else []
  }

  /** No download comes when both places are taken. */
  predicate RoomFor(c: Channel, ts: seq<Turn>) {
    forall i :: 0 <= i < |ts| && ts[i].Comes? ==> After(c, ts[..i]).next1.None?
  }

  function Waiting(c: Channel): seq<Decode> {
    One(c.next0) + One(c.next1)
  }

  predicate Queues(c: Channel) {
    !c.live && !c.session && (c.next1.Some? ==> c.next0.Some?)
  }

  /** Every download that came has started or is queued, in order, each once: on a subscribed channel,
      whatever swaps are late or held. */
  lemma {:induction false} AllStartOrWait(c: Channel, ts: seq<Turn>)
    requires Queues(c) && Waiting(c) == [] && RoomFor(c, ts)
    ensures Queues(After(c, ts)) && Came(ts) == Begins(c, ts) + Waiting(After(c, ts))
  {
    if ts != [] {
      var z := |ts| - 1;
      var front := ts[..z];
      assert RoomFor(c, front) by {
        assert forall i :: 0 <= i < z ==> front[..i] == ts[..i] && front[i] == ts[i];
      }
      AllStartOrWait(c, front);
      TurnMoves(After(c, front), ts[z]);
    }
  }

  lemma TurnMoves(c: Channel, t: Turn)
    requires Queues(c) && (t.Comes? ==> c.next1.None?)
    ensures Queues(Turned(c, t))
    ensures t.Comes? ==> Waiting(Turned(c, t)) == Waiting(c) + [t.d]
    ensures t.Swap? ==> (if c.hold == 0 then One(Turned(c, t).ds) else []) + Waiting(Turned(c, t)) == Waiting(c)
  {
  }

  /** Two swaps that are not late, with no hold, and everything that came has started. */
  lemma AllStart(c: Channel, ts: seq<Turn>)
    requires Queues(c) && Waiting(c) == [] && RoomFor(c, ts) && After(c, ts).hold == 0
    ensures Begins(c, ts + [Swap(false), Swap(false)]) == Came(ts)
  {
    hide Came, Begins, After, Swapped, Queues, RoomFor, One;
    AllStartOrWait(c, ts);
    IntervalModeStays(c, ts);
    var m := After(c, ts);
    var once := ts + [Swap(false)];
    OneMoreSwap(c, ts);
    OneMoreSwap(c, once);
    SwapRule(m, true, false);
    SwapRule(After(c, once), true, false);
    assert once + [Swap(false)] == ts + [Swap(false), Swap(false)];
    Regroup(Begins(c, ts), One(m.next0), One(m.next1));
  }

  lemma IntervalModeStays(c: Channel, ts: seq<Turn>)
    requires Queues(After(c, ts))
    ensures !After(c, ts).live && !After(c, ts).session
    ensures !Swapped(After(c, ts), true, false).live && !Swapped(After(c, ts), true, false).session
  {
    hide After;
  }

  lemma OneMoreSwap(c: Channel, ts: seq<Turn>)
    ensures var more := ts + [Swap(false)];
            && After(c, more) == Swapped(After(c, ts), true, false)
            && Begins(c, more) == Begins(c, ts) + if After(c, ts).hold == 0 then One(After(c, more).ds) else []
  {
    hide Swapped;
    assert (ts + [Swap(false)])[..|ts|] == ts;
  }

  // ----- rejoining is tried at every swap -----

  /** Each channel has its turn, lowest first, exactly when it is marked. */
  lemma {:induction false} EachTries(u: User, k: nat, intervalMs: real, aligns: bool, i: nat)
    requires i < k <= |u.chs|
    ensures var before := RejoinedAll(u, i, intervalMs, aligns);
            && before.chs[i] == u.chs[i]
            && RejoinedAll(u, k, intervalMs, aligns).chs[i] ==
               if u.chs[i].rejoin == 0 then u.chs[i] else Rejoined(before, i, intervalMs, aligns)
    decreases k
  {
    hide Rejoined;
    if i < k - 1 {
      EachTries(u, k - 1, intervalMs, aligns, i);
    } else {
      NotYetTried(u, i, intervalMs, aligns, i);
    }
  }

  lemma {:induction false} NotYetTried(u: User, k: nat, intervalMs: real, aligns: bool, i: nat)
    requires k <= i < |u.chs|
    ensures RejoinedAll(u, k, intervalMs, aligns).chs[i] == u.chs[i]
    decreases k
  {
    hide Rejoined;
    if k > 0 {
      NotYetTried(u, k - 1, intervalMs, aligns, i);
    }
  }

  /** So after a swap no marked channel is left untried. */
  lemma SwapTries(u: User, late: bool, aligns: bool, intervalMs: real, i: nat)
    requires i < |u.chs| && Swapped(u.chs[i], u.Playable(i), late).rejoin > 0
    ensures var v := AllSwapped(u, late);
            var w := if aligns then Aligned(v, Joining(u, late)) else v;
            AfterSwap(u, late, aligns, intervalMs).chs[i] == Rejoined(RejoinedAll(w, i, intervalMs, aligns), i, intervalMs, aligns)
  {
    hide Rejoined, RejoinedAll, Aligned;
    var v := AllSwapped(u, late);
    var w := if aligns then Aligned(v, Joining(u, late)) else v;
    AlignedKeepsMarks(v, Joining(u, late), i);
    EachTries(w, |w.chs|, intervalMs, aligns, i);
  }

  lemma AlignedKeepsMarks(v: User, joined: set<int>, i: nat)
    requires i < |v.chs|
    ensures |Aligned(v, joined).chs| == |v.chs| && Aligned(v, joined).chs[i].rejoin == v.chs[i].rejoin
  {
    hide Tagged, Lowest, Highest, SkipsForward, Numbers, Aligning, AlignedOne;
    forall j: nat, number, target | j < |v.chs|
      ensures AlignedOne(v.chs[j], number, target).rejoin == v.chs[j].rejoin
    {
      AlignedOneKeepsMark(v.chs[j], number, target);
    }
  }

  lemma AlignedOneKeepsMark(c: Channel, number: int, target: int)
    ensures AlignedOne(c, number, target).rejoin == c.rejoin
  {
    DroppedKeepsMark(c, target);
  }

  lemma {:induction false} DroppedKeepsMark(c: Channel, target: int)
    ensures DropOlder(c, target).rejoin == c.rejoin
    decreases Size(c)
  {
    if c.ds.Some? && IntervalOf(c.ds.value.guid).Some? && Ahead(IntervalOf(c.ds.value.guid).value, target) < 0 {
      DroppedKeepsMark(c.Advanced(), target);
    }
  }
}
