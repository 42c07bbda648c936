/** Whole runs of a remote user's channels: any interleaving of arrivals, silences, mode
    changes, subscriptions and interval swaps. */
module ChannelRuns {
  import opened IntervalTag
  import opened Options
  import opened Channels

  datatype Event =
    | Arrive(ch: nat, d: Option<Decode>)
    | Silence(ch: nat)
    | Info(ch: nat, live: bool, session: bool, videoOnly: bool, autosubscribe: bool)
    | Remove(ch: nat)
    | Subscribe(ch: nat, on: bool)
    | End(ch: nat, guid: Guid, at: real)
    | LiveAdvance(ch: nat) // the mixer takes the next download of a voice-chat or session channel
    | Swap(now: real, configMs: real, aligns: bool, intervalMs: real) // configMs: the late-start guard set

  function Update(u: User, ch: nat, c: Channel): User
    requires ch < |u.chs|
  {
    u.(chs := u.chs[ch := c])
  }

  predicate OnChannel(e: Event, n: nat) {
    e.Swap? || e.ch < n
  }

  /** This swap finds a download too young to start. */
  predicate LateAt(u: User, e: Event)
    requires e.Swap?
  {
    IsLate(u, e.now, LateStartGuard(e.configMs, e.intervalMs))
  }

  function Step(u: User, e: Event): (r: User)
    requires OnChannel(e, |u.chs|)
    ensures |r.chs| == |u.chs|
  {
    match e
    case Arrive(ch, d) => Update(u, ch, Arrived(u.chs[ch], d))
    case Silence(ch) => Update(u, ch, Silenced(u.chs[ch]))
    case Info(ch, live, session, videoOnly, auto) =>
      Update(u, ch, Announced(u.chs[ch], live, session, videoOnly))
        .(present := u.present + {ch}, sub := u.sub + if auto then {ch} else {})
    case Remove(ch) =>
      Update(u, ch, u.chs[ch].Flushed().(rejoin := 0)).(present := u.present - {ch}, sub := u.sub - {ch})
    case Subscribe(ch, on) =>
      if ch !in u.present || (ch in u.sub) == on then u
      else if on then Update(u, ch, u.chs[ch].(rejoin := 1, hold := 0)).(sub := u.sub + {ch})
      else Update(u, ch, u.chs[ch].Flushed().(rejoin := 0)).(sub := u.sub - {ch})
    case End(ch, g, t) => Update(u, ch, Ended(u.chs[ch], g, t))
    case LiveAdvance(ch) => if u.chs[ch].IntervalMode() then u else Update(u, ch, u.chs[ch].Advanced())
    case Swap(_, _, aligns, intervalMs) =>
      var late := LateAt(u, e);
      AlignedSize(AllSwapped(u, late), Joining(u, late));
      AfterSwap(u, late, aligns, intervalMs)
  }

  lemma AlignedSize(u: User, joined: set<int>)
    ensures |Aligned(u, joined).chs| == |u.chs|
  {
  }

  // ----- each interval plays at most once, in order -----

  /** The channels, the numbers each has played so far, and the last number that arrived. */
  datatype History = History(u: User, played: seq<seq<int>>, latest: seq<int>)

  ghost predicate Sized(h: History) {
    |h.played| == |h.latest| == |h.u.chs|
  }

  /** The interval this channel plays until the next swap. */
  function PlayedNow(c: Channel, num: Numbering): seq<int> {
    if c.IntervalMode() && Sounds(c) then [num(c.ds.value.guid)] else []
  }

  /** Arrivals on a channel come in the sender's order. */
  ghost predicate InOrder(h: History, e: Event, num: Numbering)
    requires Sized(h)
  {
    OnChannel(e, |h.u.chs|) && (e.Arrive? && e.d.Some? ==> num(e.d.value.guid) > h.latest[e.ch])
  }

  ghost function Record(h: History, e: Event, num: Numbering): (r: History)
    requires Sized(h) && OnChannel(e, |h.u.chs|)
    ensures Sized(r)
  {
    var v := Step(h.u, e);
    match e
    case Arrive(ch, Some(d)) => History(v, h.played, h.latest[ch := num(d.guid)])
    case Swap(_, _, _, _) =>
      History(v, seq(|h.played|, i requires 0 <= i < |h.played| => h.played[i] + PlayedNow(v.chs[i], num)), h.latest)
    case _ => History(v, h.played, h.latest)
  }

  ghost predicate Rising(s: seq<int>) {
    forall a, b :: 0 <= a < b < |s| ==> s[a] < s[b]
  }

  ghost predicate AllBelow(s: seq<int>, x: int) {
    forall a :: 0 <= a < |s| ==> s[a] < x
  }

  function Num(o: Option<Decode>, num: Numbering): int
    requires o.Some?
  {
    num(o.value.guid)
  }

  /** What every step keeps of one channel. */
  ghost predicate Ordered(c: Channel, played: seq<int>, latest: int, num: Numbering) {
    && c.hold <= 1 && (c.hold > 0 ==> c.ds.Some? && c.IntervalMode()) && (c.next1.Some? ==> c.next0.Some?)
    && Rising(played) && AllBelow(played, latest + 1)
    && (c.ds.Some? ==> AllBelow(played, Num(c.ds, num) + 1) && Num(c.ds, num) <= latest)
    && (c.ds.Some? && c.hold > 0 ==> AllBelow(played, Num(c.ds, num)))
    && (c.next0.Some? ==> AllBelow(played, Num(c.next0, num)) && Num(c.next0, num) <= latest)
    && (c.next1.Some? ==> Num(c.next0, num) < Num(c.next1, num) <= latest)
    && (c.ds.Some? && c.next0.Some? ==> Num(c.ds, num) < Num(c.next0, num))
  }

  /** At a swap, before anything plays: an interval in ds has not played yet. */
  ghost predicate Fresh(c: Channel, played: seq<int>, latest: int, num: Numbering) {
    && Ordered(c, played, latest, num)
    && (c.IntervalMode() && c.ds.Some? ==> AllBelow(played, Num(c.ds, num)))
  }

  lemma SwappedFresh(c: Channel, playable: bool, late: bool, played: seq<int>, latest: int, num: Numbering)
    requires Ordered(c, played, latest, num)
    ensures Fresh(Swapped(c, playable, late), played, latest, num)
  {
  }

  lemma AdvancedFresh(c: Channel, played: seq<int>, latest: int, num: Numbering)
    requires Fresh(c, played, latest, num) && c.hold == 0
    ensures Fresh(c.Advanced(), played, latest, num) && c.Advanced().hold == 0
  {
  }

  lemma {:induction false} DropFresh(c: Channel, target: int, played: seq<int>, latest: int, num: Numbering)
    requires Fresh(c, played, latest, num) && c.hold == 0
    ensures Fresh(DropOlder(c, target), played, latest, num)
    decreases Size(c)
  {
    hide IntervalOf, Ahead, Fresh;
    if c.ds.Some? && IntervalOf(c.ds.value.guid).Some? && Ahead(IntervalOf(c.ds.value.guid).value, target) < 0 {
      AdvancedFresh(c, played, latest, num);
      assert Size(c.Advanced()) < Size(c);
      DropFresh(c.Advanced(), target, played, latest, num);
    }
  }

  lemma AlignedOneFresh(c: Channel, number: int, target: int, played: seq<int>, latest: int, num: Numbering)
    requires Fresh(c, played, latest, num) && c.hold == 0 && c.ds.Some? && c.IntervalMode()
    ensures Fresh(AlignedOne(c, number, target), played, latest, num)
  {
    hide DropOlder, Ahead;
    DropFresh(c, target, played, latest, num);
  }

  ghost predicate AllFresh(u: User, h: History, num: Numbering) {
    && |u.chs| == |h.played| == |h.latest|
    && (forall i :: 0 <= i < |u.chs| ==> Fresh(u.chs[i], h.played[i], h.latest[i], num))
  }

  lemma AlignedFresh(u: User, joined: set<int>, h: History, num: Numbering)
    requires AllFresh(u, h, num)
    ensures AllFresh(Aligned(u, joined), h, num)
  {
    hide Fresh, AlignedOne, IntervalOf, Numbers, SkipsForward, OneSession, Lowest, Highest;
    var v := Aligned(u, joined);
    forall i | 0 <= i < |u.chs| && Tagged(u, i)
      ensures forall t :: Fresh(AlignedOne(u.chs[i], Number(u, i), t), h.played[i], h.latest[i], num)
    {
      forall t
        ensures Fresh(AlignedOne(u.chs[i], Number(u, i), t), h.played[i], h.latest[i], num)
      {
        AlignedOneFresh(u.chs[i], Number(u, i), t, h.played[i], h.latest[i], num);
      }
    }
  }

  lemma RejoinedFresh(u: User, ch: int, intervalMs: real, aligns: bool, played: seq<int>, latest: int, num: Numbering)
    requires 0 <= ch < |u.chs| && Fresh(u.chs[ch], played, latest, num)
    ensures Fresh(Rejoined(u, ch, intervalMs, aligns), played, latest, num)
  {
    hide SiblingPosition, Reference, IntervalOf;
  }

  lemma {:induction false} RejoinedAllFresh(u: User, k: nat, intervalMs: real, aligns: bool, h: History, num: Numbering)
    requires k <= |u.chs| && AllFresh(u, h, num)
    ensures AllFresh(RejoinedAll(u, k, intervalMs, aligns), h, num)
  {
    hide Fresh, Rejoined;
    if k > 0 {
      RejoinedAllFresh(u, k - 1, intervalMs, aligns, h, num);
      var v := RejoinedAll(u, k - 1, intervalMs, aligns);
      RejoinedFresh(v, k - 1, intervalMs, aligns, h.played[k - 1], h.latest[k - 1], num);
    }
  }

  ghost predicate AllOrdered(h: History, num: Numbering) {
    Sized(h) && forall i :: 0 <= i < |h.u.chs| ==> Ordered(h.u.chs[i], h.played[i], h.latest[i], num)
  }

  lemma AfterSwapFresh(h: History, late: bool, aligns: bool, intervalMs: real, num: Numbering)
    requires AllOrdered(h, num)
    ensures AllFresh(AfterSwap(h.u, late, aligns, intervalMs), h, num)
  {
    hide Fresh, Ordered, Swapped, Aligned, RejoinedAll, Joining;
    var v := AllSwapped(h.u, late);
    forall i | 0 <= i < |v.chs|
      ensures Fresh(v.chs[i], h.played[i], h.latest[i], num)
    {
      SwappedFresh(h.u.chs[i], h.u.Playable(i), late, h.played[i], h.latest[i], num);
    }
    AlignedFresh(v, Joining(h.u, late), h, num);
    var w := if aligns then Aligned(v, Joining(h.u, late)) else v;
    RejoinedAllFresh(w, |w.chs|, intervalMs, aligns, h, num);
  }

  lemma PlayingKeepsOrder(c: Channel, played: seq<int>, latest: int, num: Numbering)
    requires Fresh(c, played, latest, num)
    ensures Ordered(c, played + PlayedNow(c, num), latest, num)
  {
  }

  lemma ArrivedOrdered(c: Channel, d: Option<Decode>, played: seq<int>, latest: int, num: Numbering)
    requires Ordered(c, played, latest, num) && (d.Some? ==> num(d.value.guid) > latest)
    ensures Ordered(Arrived(c, d), played, if d.Some? then num(d.value.guid) else latest, num)
  {
  }

  lemma QuietEventsOrdered(c: Channel, live: bool, session: bool, videoOnly: bool, rejoin: nat,
                           played: seq<int>, latest: int, num: Numbering)
    requires Ordered(c, played, latest, num)
    ensures Ordered(Silenced(c), played, latest, num)
    ensures Ordered(Announced(c, live, session, videoOnly), played, latest, num)
    ensures Ordered(c.Flushed().(rejoin := rejoin), played, latest, num)
    ensures Ordered(c.(rejoin := rejoin, hold := 0), played, latest, num)
  {
  }

  lemma EndedOrdered(c: Channel, g: Guid, t: real, played: seq<int>, latest: int, num: Numbering)
    requires Ordered(c, played, latest, num)
    ensures Ordered(Ended(c, g, t), played, latest, num)
  {
  }

  lemma LiveAdvanceOrdered(c: Channel, played: seq<int>, latest: int, num: Numbering)
    requires Ordered(c, played, latest, num) && !c.IntervalMode()
    ensures Ordered(c.Advanced(), played, latest, num)
  {
  }

  lemma QueueEventOrdered(u: User, e: Event, played: seq<int>, latest: int, num: Numbering)
    requires OnChannel(e, |u.chs|) && !e.Swap?
    requires Ordered(u.chs[e.ch], played, latest, num)
    requires e.Arrive? && e.d.Some? ==> num(e.d.value.guid) > latest
    ensures Ordered(Step(u, e).chs[e.ch], played, if e.Arrive? && e.d.Some? then num(e.d.value.guid) else latest, num)
    ensures forall i :: 0 <= i < |u.chs| && i != e.ch ==> Step(u, e).chs[i] == u.chs[i]
  {
    hide Ordered, Arrived, Silenced, Announced, Ended;
    var c := u.chs[e.ch];
    match e
    case Arrive(ch, d) => ArrivedOrdered(c, d, played, latest, num);
    case Silence(ch) => QuietEventsOrdered(c, false, false, false, 0, played, latest, num);
    case Info(ch, live, session, videoOnly, auto) => QuietEventsOrdered(c, live, session, videoOnly, 0, played, latest, num);
    case Remove(ch) => QuietEventsOrdered(c, false, false, false, 0, played, latest, num);
    case Subscribe(ch, on) => QuietEventsOrdered(c, false, false, false, if on then 1 else 0, played, latest, num);
    case End(ch, g, t) => EndedOrdered(c, g, t, played, latest, num);
    case LiveAdvance(ch) =>
      if !c.IntervalMode() {
        LiveAdvanceOrdered(c, played, latest, num);
      }
  }

  lemma StepKeepsOrder(h: History, e: Event, num: Numbering)
    requires AllOrdered(h, num) && InOrder(h, e, num)
    ensures AllOrdered(Record(h, e, num), num)
  {
    hide Ordered, Fresh, PlayedNow;
    if e.Swap? {
      hide AfterSwap, LateAt;
      AfterSwapFresh(h, LateAt(h.u, e), e.aligns, e.intervalMs, num);
      var v := Step(h.u, e);
      forall i | 0 <= i < |v.chs|
        ensures Ordered(v.chs[i], h.played[i] + PlayedNow(v.chs[i], num), h.latest[i], num)
      {
        PlayingKeepsOrder(v.chs[i], h.played[i], h.latest[i], num);
      }
    } else {
      hide Step;
      QueueEventOrdered(h.u, e, h.played[e.ch], h.latest[e.ch], num);
    }
  }

  /** The history after a run that starts with idle channels. */
  ghost function After(es: seq<Event>, num: Numbering): (h: History)
    requires forall e :: e in es ==> OnChannel(e, MAX_CHANNELS)
    ensures Sized(h) && |h.u.chs| == MAX_CHANNELS
  {
    if es == [] then
      History(User(seq(MAX_CHANNELS, _ => IDLE), {}, {}), seq(MAX_CHANNELS, _ => []), seq(MAX_CHANNELS, _ => -1))
    else Record(After(es[..|es| - 1], num), es[|es| - 1], num)
  }

  ghost predicate RunInOrder(es: seq<Event>, num: Numbering)
    requires forall e :: e in es ==> OnChannel(e, MAX_CHANNELS)
  {
    forall k :: 0 <= k < |es| ==> InOrder(After(es[..k], num), es[k], num)
  }

  lemma {:induction false} RunKeepsOrder(es: seq<Event>, num: Numbering)
    requires (forall e :: e in es ==> OnChannel(e, MAX_CHANNELS)) && RunInOrder(es, num)
    ensures AllOrdered(After(es, num), num)
  {
    hide Ordered, Record;
    if es == [] {
      NothingYet(num);
    } else {
      var z := |es| - 1;
      forall k | 0 <= k < z
        ensures InOrder(After(es[..z][..k], num), es[..z][k], num)
      {
        assert es[..z][..k] == es[..k];
      }
      RunKeepsOrder(es[..z], num);
      StepKeepsOrder(After(es[..z], num), es[z], num);
    }
  }

  lemma NothingYet(num: Numbering)
    ensures AllOrdered(After([], num), num)
  {
  }

  /** Over any run with arrivals in order, the intervals a channel plays strictly increase, a
      hold never exceeds one swap, and the queue never has a gap. */
  lemma EachIntervalPlaysOnce(es: seq<Event>, num: Numbering, ch: nat)
    requires (forall e :: e in es ==> OnChannel(e, MAX_CHANNELS)) && RunInOrder(es, num) && ch < MAX_CHANNELS
    ensures Rising(After(es, num).played[ch])
    ensures After(es, num).u.chs[ch].hold <= 1
    ensures After(es, num).u.chs[ch].next1.Some? ==> After(es, num).u.chs[ch].next0.Some?
  {
    hide After, RunInOrder;
    RunKeepsOrder(es, num);
    assert Ordered(After(es, num).u.chs[ch], After(es, num).played[ch], After(es, num).latest[ch], num);
  }
}
