/** When a remote channel's queue loses an interval: an arrival or silence takes the place of
    one that is still queued. */
module QueueLosses {
  import opened IntervalTag
  import opened Options
  import opened Channels
  import opened ChannelRuns

  // ----- holds never lose an interval of an untagged sender -----

  function Queued(c: Channel): nat {
    |One(c.next0)| + |One(c.next1)|
  }

  predicate Bare(o: Option<Decode>) {
    o.Some? ==> IntervalOf(o.value.guid).None?
  }

  predicate Untagged(c: Channel) {
    Bare(c.ds) && Bare(c.next0) && Bare(c.next1)
  }

  /** The late-start guard is off, the sender's downloads carry no tag, and an interval-mode
      channel sees at most one queue event between two swaps. */
  predicate OnePerSwap(u: User, touched: set<int>, e: Event)
  {
    && OnChannel(e, |u.chs|)
    && (e.Arrive? ==> Bare(e.d))
    && (e.Swap? ==> e.configMs <= 0.0)
    && ((e.Arrive? || e.Silence?) && u.chs[e.ch].IntervalMode() ==> e.ch !in touched)
  }

  function Touch(touched: set<int>, e: Event): set<int> {
    if e.Swap? then {}
    else if e.Arrive? || e.Silence? then touched + {e.ch}
    else touched
  }

  /** The whole run stays within OnePerSwap. */
  predicate SlowRun(u: User, touched: set<int>, es: seq<Event>)
    decreases |es|
  {
    es == [] || (OnePerSwap(u, touched, es[0]) && SlowRun(Step(u, es[0]), Touch(touched, es[0]), es[1..]))
  }

  /** An arrival or silence takes the place of a queued interval. */
  predicate Overwrites(u: User, e: Event)
    requires OnChannel(e, |u.chs|)
  {
    (e.Arrive? || e.Silence?) && u.chs[e.ch].IntervalMode() && u.chs[e.ch].next1.Some?
  }

  /** No arrival or silence takes the place of a queued interval, and after every swap the
      queued intervals plus the hold are at most one. */
  predicate LosesNothing(u: User, es: seq<Event>)
    decreases |es|
  {
    es == [] ||
    (&& OnChannel(es[0], |u.chs|)
     && !Overwrites(u, es[0])
     && (es[0].Swap? ==> forall i :: 0 <= i < |u.chs| && Step(u, es[0]).chs[i].IntervalMode() ==>
           Queued(Step(u, es[0]).chs[i]) + Step(u, es[0]).chs[i].hold <= 1)
     && LosesNothing(Step(u, es[0]), es[1..]))
  }

  predicate Roomy(c: Channel, touched: bool) {
    && (c.IntervalMode() ==>
          && Queued(c) + c.hold <= (if touched then 2 else 1)
          && (c.next1.Some? ==> c.next0.Some?))
    && (!c.IntervalMode() ==> c.hold == 0)
    && Untagged(c)
  }

  predicate AllRoomy(u: User, touched: set<int>) {
    forall i :: 0 <= i < |u.chs| ==> Roomy(u.chs[i], i in touched)
  }

  lemma RoomyChannelStep(u: User, touched: set<int>, e: Event)
    requires OnePerSwap(u, touched, e) && !e.Swap? && Roomy(u.chs[e.ch], e.ch in touched)
    ensures Roomy(Step(u, e).chs[e.ch], e.ch in Touch(touched, e))
    ensures !Overwrites(u, e)
    ensures forall i :: 0 <= i < |u.chs| && i != e.ch ==> Step(u, e).chs[i] == u.chs[i]
  {
    hide IntervalOf, Roomy, Arrived, Silenced, Announced, Ended;
    var c, t := u.chs[e.ch], e.ch in touched;
    match e
    case Arrive(ch, d) => ArrivedRoomy(c, d, t);
    case Silence(ch) => ArrivedRoomy(c, None, t);
    case Info(ch, live, session, videoOnly, auto) => EmptiedRoomy(c, live, session, videoOnly, 0, t);
    case Remove(ch) => EmptiedRoomy(c, false, false, false, 0, t);
    case Subscribe(ch, on) => EmptiedRoomy(c, false, false, false, if on then 1 else 0, t);
    case End(ch, g, at) => EndedStaysRoomy(c, g, at, t);
    case LiveAdvance(ch) =>
      if !c.IntervalMode() {
        LiveAdvanceRoomy(c, t);
      }
  }

  lemma ArrivedRoomy(c: Channel, d: Option<Decode>, touched: bool)
    requires Roomy(c, touched) && (c.IntervalMode() ==> !touched)
    ensures Bare(d) ==> Roomy(Arrived(c, d), true)
    ensures Roomy(Silenced(c), true)
    ensures c.IntervalMode() ==> c.next1.None?
  {
    hide IntervalOf;
  }

  lemma EmptiedRoomy(c: Channel, live: bool, session: bool, videoOnly: bool, rejoin: nat, touched: bool)
    requires Roomy(c, touched)
    ensures Roomy(Announced(c, live, session, videoOnly), touched)
    ensures Roomy(c.Flushed().(rejoin := rejoin), touched)
    ensures Roomy(c.(rejoin := rejoin, hold := 0), touched)
  {
    hide IntervalOf;
  }

  lemma LiveAdvanceRoomy(c: Channel, touched: bool)
    requires Roomy(c, touched) && !c.IntervalMode()
    ensures Roomy(c.Advanced(), touched)
  {
    hide IntervalOf;
  }

  lemma EndedStaysRoomy(c: Channel, g: Guid, t: real, touched: bool)
    requires Roomy(c, touched)
    ensures Roomy(Ended(c, g, t), touched)
  {
    hide IntervalOf;
  }

  lemma SwappedRoomy(c: Channel, playable: bool, touched: bool)
    requires Roomy(c, touched)
    ensures Roomy(Swapped(c, playable, false), false)
  {
    hide IntervalOf;
  }

  lemma NothingToAlign(u: User, joined: set<int>, k: nat)
    requires k <= |u.chs| && forall i :: 0 <= i < |u.chs| ==> Untagged(u.chs[i])
    ensures Aligning(u, k) == [] && Aligned(u, joined) == u
    decreases |u.chs| - k, k
  {
    hide IntervalOf, Numbers, OneSession, SkipsForward;
    NobodyTagged(u, k);
    NobodyTagged(u, |u.chs|);
  }

  lemma {:induction false} NobodyTagged(u: User, k: nat)
    requires k <= |u.chs| && forall i :: 0 <= i < |u.chs| ==> Untagged(u.chs[i])
    ensures Aligning(u, k) == []
  {
    hide IntervalOf;
    if k > 0 {
      NobodyTagged(u, k - 1);
    }
  }

  lemma RejoinedRoomy(u: User, ch: int, intervalMs: real, aligns: bool)
    requires 0 <= ch < |u.chs| && Roomy(u.chs[ch], false)
    ensures Roomy(Rejoined(u, ch, intervalMs, aligns), false)
  {
    hide IntervalOf, SiblingPosition, Reference;
  }

  lemma {:induction false} RejoinedAllRoomy(u: User, k: nat, intervalMs: real, aligns: bool)
    requires k <= |u.chs| && AllRoomy(u, {})
    ensures AllRoomy(RejoinedAll(u, k, intervalMs, aligns), {})
  {
    hide Roomy, Rejoined;
    if k > 0 {
      RejoinedAllRoomy(u, k - 1, intervalMs, aligns);
      var v := RejoinedAll(u, k - 1, intervalMs, aligns);
      RejoinedRoomy(v, k - 1, intervalMs, aligns);
    }
  }

  lemma SwapRoomy(u: User, touched: set<int>, aligns: bool, intervalMs: real)
    requires AllRoomy(u, touched)
    ensures AllRoomy(AfterSwap(u, false, aligns, intervalMs), {})
  {
    hide Roomy, Swapped, Aligned, RejoinedAll, Joining;
    var v := AllSwapped(u, false);
    forall i | 0 <= i < |v.chs|
      ensures Roomy(v.chs[i], false) && Untagged(v.chs[i])
    {
      SwappedRoomy(u.chs[i], u.Playable(i), i in touched);
      RoomyUntagged(v.chs[i], false);
    }
    NothingToAlign(v, Joining(u, false), 0);
    RejoinedAllRoomy(v, |v.chs|, intervalMs, aligns);
  }

  lemma RoomyUntagged(c: Channel, touched: bool)
    requires Roomy(c, touched)
    ensures Untagged(c)
  {
  }

  /** Holding a channel never makes a later arrival overwrite a queued interval, when nothing
      arrives twice between two swaps. */
  lemma {:induction false} HoldsLoseNothing(u: User, touched: set<int>, es: seq<Event>)
    requires SlowRun(u, touched, es) && AllRoomy(u, touched)
    ensures LosesNothing(u, es)
    decreases |es|
  {
    hide Roomy, AfterSwap;
    if es != [] {
      var e := es[0];
      if e.Swap? {
        assert !LateAt(u, e);
        SwapRoomy(u, touched, e.aligns, e.intervalMs);
        SwapLeavesRoom(u, e);
      } else {
        hide Step;
        RoomyChannelStep(u, touched, e);
      }
      HoldsLoseNothing(Step(u, e), Touch(touched, e), es[1..]);
    }
  }

  lemma SwapLeavesRoom(u: User, e: Event)
    requires e.Swap? && AllRoomy(Step(u, e), {})
    ensures forall i :: 0 <= i < |u.chs| && Step(u, e).chs[i].IntervalMode() ==>
              Queued(Step(u, e).chs[i]) + Step(u, e).chs[i].hold <= 1
  {
    hide AfterSwap, Untagged;
  }

  /** A channel that starts idle. */
  lemma IdleIsRoomy(u: User)
    requires forall i :: 0 <= i < |u.chs| ==> u.chs[i] == IDLE
    ensures AllRoomy(u, {})
  {
  }
}
