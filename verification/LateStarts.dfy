/** Exactly when a channel's queue loses an interval, with the late-start guard on: an interval
    is lost where downloads run two ahead of the swaps that advance the channel. */
module LateStarts {
  import opened IntervalTag
  import opened Options
  import opened Channels
  import opened ChannelRuns
  import opened QueueLosses

  ghost function Ran(u: User, es: seq<Event>): (r: User)
    requires forall e :: e in es ==> OnChannel(e, |u.chs|)
    ensures |r.chs| == |u.chs|
  {
    if es == [] then u else Step(Ran(u, es[..|es| - 1]), es[|es| - 1])
  }

  /** The downloads of the run carry no tag. */
  predicate UntaggedRun(u: User, es: seq<Event>) {
    forall e :: e in es ==> OnChannel(e, |u.chs|) && (e.Arrive? ==> Bare(e.d))
  }

  /** This swap takes the next download of the channel: it is neither held nor late. */
  predicate Advances(u: User, e: Event, ch: nat)
    requires e.Swap? && ch < |u.chs|
  {
    u.chs[ch].hold == 0 && (u.chs[ch].videoOnly || !LateAt(u, e))
  }

  /** One more for a download that arrives on the channel, one less for a swap that advances it. */
  function Weight(u: User, e: Event, ch: nat): int
    requires ch < |u.chs|
  {
    match e
    case Arrive(c, d) => if c == ch && d.Some? then 1 else 0
    case Swap(_, _, _, _) => if Advances(u, e, ch) then -1 else 0
    case _ => 0
  }

  /** The channel is in interval mode and stays subscribed to. */
  predicate Quiet(u: User, e: Event, ch: nat)
    requires ch < |u.chs|
  {
    u.chs[ch].IntervalMode() &&
    match e
    case Info(c, live, session, _, _) => c == ch ==> !live && !session
    case Remove(c) => c != ch
    case Subscribe(c, on) => c == ch ==> on || c !in u.present || c !in u.sub
    case _ => true
  }

  /** Nothing but arrivals, silences and swaps happens to the channel's queue from i to j. */
  ghost predicate Stretch(u: User, es: seq<Event>, i: nat, j: nat, ch: nat)
    requires UntaggedRun(u, es) && i <= j <= |es| && ch < |u.chs|
  {
    forall k :: i <= k < j ==> Quiet(Ran(u, es[..k]), es[k], ch)
  }

  /** By how much the downloads outnumber the swaps that advance the channel, from i to j. */
  ghost function Surplus(u: User, es: seq<Event>, i: nat, j: nat, ch: nat): int
    requires UntaggedRun(u, es) && i <= j <= |es| && ch < |u.chs|
    decreases j
  {
    if i == j then 0 else Surplus(u, es, i, j - 1, ch) + Weight(Ran(u, es[..j - 1]), es[j - 1], ch)
  }

  /** Event j brings a download or a silence to the channel, in interval mode. */
  ghost predicate Places(u: User, es: seq<Event>, j: nat, ch: nat)
    requires UntaggedRun(u, es) && j < |es| && ch < |u.chs|
  {
    (es[j].Arrive? || es[j].Silence?) && es[j].ch == ch && Ran(u, es[..j]).chs[ch].IntervalMode()
  }

  /** Event j takes the place of an interval queued on the channel. */
  ghost predicate LosesAt(u: User, es: seq<Event>, j: nat, ch: nat)
    requires UntaggedRun(u, es) && j < |es| && ch < |u.chs|
  {
    es[j] in es && Overwrites(Ran(u, es[..j]), es[j]) && es[j].ch == ch
  }

  /** Event j comes when the downloads are two ahead over some stretch before it. */
  ghost predicate TwoAhead(u: User, es: seq<Event>, i: nat, j: nat, ch: nat)
    requires UntaggedRun(u, es) && i <= j < |es| && ch < |u.chs|
  {
    Places(u, es, j, ch) && Stretch(u, es, i, j, ch) && Surplus(u, es, i, j, ch) >= 2
  }

  // ----- one event -----

  ghost predicate AllBare(u: User) {
    forall i :: 0 <= i < |u.chs| ==> Untagged(u.chs[i])
  }

  predicate SameQueue(c: Channel, d: Channel) {
    d.next0 == c.next0 && d.next1 == c.next1 && d.ds == c.ds && d.live == c.live && d.session == c.session && d.videoOnly == c.videoOnly
  }

  lemma {:induction false} RejoinedSameQueue(u: User, k: nat, intervalMs: real, aligns: bool)
    requires k <= |u.chs|
    ensures forall i :: 0 <= i < |u.chs| ==> SameQueue(u.chs[i], RejoinedAll(u, k, intervalMs, aligns).chs[i])
  {
    hide SiblingPosition, Reference, IntervalOf;
    if k > 0 {
      RejoinedSameQueue(u, k - 1, intervalMs, aligns);
    }
  }

  lemma SwapQueues(u: User, e: Event)
    requires e.Swap? && AllBare(u)
    ensures AllBare(Step(u, e))
    ensures forall i :: 0 <= i < |u.chs| ==> SameQueue(Swapped(u.chs[i], u.Playable(i), LateAt(u, e)), Step(u, e).chs[i])
  {
    hide Aligned, RejoinedAll, Joining, LateAt, IntervalOf;
    var v := AllSwapped(u, LateAt(u, e));
    NothingToAlign(v, Joining(u, LateAt(u, e)), 0);
    RejoinedSameQueue(v, |v.chs|, e.intervalMs, e.aligns);
  }

  lemma EventBare(u: User, e: Event)
    requires OnChannel(e, |u.chs|) && !e.Swap? && AllBare(u) && (e.Arrive? ==> Bare(e.d))
    ensures AllBare(Step(u, e))
  {
    hide IntervalOf;
  }

  lemma {:induction false} RunBare(u: User, es: seq<Event>)
    requires AllBare(u) && UntaggedRun(u, es)
    ensures AllBare(Ran(u, es))
  {
    hide AllBare;
    if es != [] {
      var z := |es| - 1;
      RunBare(u, es[..z]);
      if es[z].Swap? {
        SwapQueues(Ran(u, es[..z]), es[z]);
      } else {
        EventBare(Ran(u, es[..z]), es[z]);
      }
    }
  }

  predicate NoGap(c: Channel) {
    c.next1.Some? ==> c.next0.Some?
  }

  /** What an event that loses nothing makes of a channel's queue. */
  predicate QueueFollows(c: Channel, d: Channel, quiet: bool, weight: int) {
    && (d.IntervalMode() ==> NoGap(d))
    && (quiet ==> d.IntervalMode() && Queued(d) == if Queued(c) + weight < 0 then 0 else Queued(c) + weight)
    && (!quiet && d.IntervalMode() ==> Queued(d) == 0)
  }

  lemma QueueStep(u: User, e: Event, ch: nat)
    requires OnChannel(e, |u.chs|) && ch < |u.chs| && AllBare(u) && (u.chs[ch].IntervalMode() ==> NoGap(u.chs[ch]))
    requires !(Overwrites(u, e) && e.ch == ch)
    ensures QueueFollows(u.chs[ch], Step(u, e).chs[ch], Quiet(u, e, ch), Weight(u, e, ch))
  {
    if e.Swap? {
      SwapQueues(u, e);
      hide Step, LateAt;
      assert SameQueue(Swapped(u.chs[ch], u.Playable(ch), LateAt(u, e)), Step(u, e).chs[ch]);
    } else {
      EventQueue(u, e, ch);
    }
  }

  lemma EventQueue(u: User, e: Event, ch: nat)
    requires OnChannel(e, |u.chs|) && !e.Swap? && ch < |u.chs| && (u.chs[ch].IntervalMode() ==> NoGap(u.chs[ch]))
    requires !(Overwrites(u, e) && e.ch == ch)
    ensures QueueFollows(u.chs[ch], Step(u, e).chs[ch], Quiet(u, e, ch), Weight(u, e, ch))
  {
  }

  // ----- whole runs -----

  /** The queue is the greatest surplus of any stretch that ends here. */
  ghost predicate IsPeak(u: User, es: seq<Event>, j: nat, ch: nat)
    requires UntaggedRun(u, es) && j <= |es| && ch < |u.chs|
  {
    var c := Ran(u, es[..j]).chs[ch];
    && (forall i :: 0 <= i <= j && Stretch(u, es, i, j, ch) ==> Surplus(u, es, i, j, ch) <= Queued(c))
    && (c.IntervalMode() ==> exists i :: 0 <= i <= j && Stretch(u, es, i, j, ch) && Surplus(u, es, i, j, ch) == Queued(c))
  }

  ghost predicate Idle(u: User) {
    forall i :: 0 <= i < |u.chs| ==> u.chs[i] == IDLE
  }

  lemma Unrolled(u: User, es: seq<Event>, j: nat)
    requires UntaggedRun(u, es) && j < |es|
    ensures OnChannel(es[j], |u.chs|) && Ran(u, es[..j + 1]) == Step(Ran(u, es[..j]), es[j])
  {
    assert es[..j + 1][..j] == es[..j];
    assert es[j] in es;
  }

  lemma PeakStep(u: User, es: seq<Event>, j: nat, ch: nat)
    requires UntaggedRun(u, es) && j < |es| && ch < |u.chs| && AllBare(Ran(u, es[..j]))
    requires Ran(u, es[..j]).chs[ch].IntervalMode() ==> NoGap(Ran(u, es[..j]).chs[ch])
    requires IsPeak(u, es, j, ch) && !LosesAt(u, es, j, ch)
    ensures IsPeak(u, es, j + 1, ch)
    ensures Ran(u, es[..j + 1]).chs[ch].IntervalMode() ==> NoGap(Ran(u, es[..j + 1]).chs[ch])
  {
    hide Step, Weight, Quiet, Ran, AllBare;
    var v, e := Ran(u, es[..j]), es[j];
    Unrolled(u, es, j);
    QueueStep(v, e, ch);
    var d := Ran(u, es[..j + 1]).chs[ch];
    var n := j + 1;
    forall i | 0 <= i <= n && Stretch(u, es, i, n, ch)
      ensures Surplus(u, es, i, n, ch) <= Queued(d)
    {
      if i <= j {
        assert Stretch(u, es, i, j, ch) && Quiet(Ran(u, es[..j]), es[j], ch);
      }
    }
    if d.IntervalMode() {
      assert Stretch(u, es, j + 1, j + 1, ch) && Surplus(u, es, j + 1, j + 1, ch) == 0;
      if Quiet(v, e, ch) && Queued(d) > 0 {
        QuietIsInterval(v, e, ch);
        var i :| 0 <= i <= j && Stretch(u, es, i, j, ch) && Surplus(u, es, i, j, ch) == Queued(v.chs[ch]);
        assert Stretch(u, es, i, j + 1, ch) && Surplus(u, es, i, j + 1, ch) == Queued(d);
      }
    }
  }

  lemma QuietIsInterval(u: User, e: Event, ch: nat)
    requires ch < |u.chs| && Quiet(u, e, ch)
    ensures u.chs[ch].IntervalMode()
  {
  }

  lemma {:induction false} PeakSoFar(u: User, es: seq<Event>, j: nat, ch: nat)
    requires Idle(u) && UntaggedRun(u, es) && j <= |es| && ch < |u.chs|
    requires forall k :: 0 <= k < j ==> !LosesAt(u, es, k, ch)
    ensures IsPeak(u, es, j, ch)
    ensures Ran(u, es[..j]).chs[ch].IntervalMode() ==> NoGap(Ran(u, es[..j]).chs[ch])
  {
    if j == 0 {
      assert es[..0] == [];
      assert Stretch(u, es, 0, 0, ch) && Surplus(u, es, 0, 0, ch) == 0;
    } else {
      PeakSoFar(u, es, j - 1, ch);
      IdleIsBare(u);
      RunBare(u, es[..j - 1]);
      PeakStep(u, es, j - 1, ch);
    }
  }

  lemma IdleIsBare(u: User)
    requires Idle(u)
    ensures AllBare(u)
  {
  }

  /** With nothing lost before, event j takes the place of a queued interval exactly when the
      downloads are two ahead over some stretch before it. */
  lemma LosesHere(u: User, es: seq<Event>, j: nat, ch: nat)
    requires Idle(u) && UntaggedRun(u, es) && j < |es| && ch < |u.chs|
    requires forall k :: 0 <= k < j ==> !LosesAt(u, es, k, ch)
    ensures LosesAt(u, es, j, ch) <==> exists i :: 0 <= i <= j && TwoAhead(u, es, i, j, ch)
  {
    hide Ran, Stretch, Surplus, Idle;
    PeakSoFar(u, es, j, ch);
    InRun(u, es, j);
    var c := Ran(u, es[..j]).chs[ch];
    if LosesAt(u, es, j, ch) {
      var i :| 0 <= i <= j && Stretch(u, es, i, j, ch) && Surplus(u, es, i, j, ch) == Queued(c);
      assert TwoAhead(u, es, i, j, ch);
    }
  }

  lemma InRun(u: User, es: seq<Event>, j: nat)
    requires UntaggedRun(u, es) && j < |es|
    ensures es[j] in es && OnChannel(es[j], |u.chs|)
  {
  }

  /** An untagged channel loses a queued interval in a run, guard on or off, exactly when over
      some stretch the downloads are two ahead of the swaps that advanced the channel and
      another one, or a silence, comes. */
  lemma {:induction false} LosesIffTwoAhead(u: User, es: seq<Event>, n: nat, ch: nat)
    requires Idle(u) && UntaggedRun(u, es) && n <= |es| && ch < |u.chs|
    ensures (exists j :: 0 <= j < n && LosesAt(u, es, j, ch)) <==>
            (exists i, j :: 0 <= i <= j < n && TwoAhead(u, es, i, j, ch))
  {
    hide LosesAt, TwoAhead, Idle, UntaggedRun;
    if n > 0 {
      LosesIffTwoAhead(u, es, n - 1, ch);
      if forall k :: 0 <= k < n - 1 ==> !LosesAt(u, es, k, ch) {
        LosesHere(u, es, n - 1, ch);
      }
    }
  }

  // ----- a user with one channel -----

  /** Swaps come at least an interval apart, and a download begins before every swap that
      follows its arrival. */
  ghost predicate OnTempo(es: seq<Event>, last: real)
    decreases |es|
  {
    es != [] ==>
      match es[0]
      case Swap(now, _, _, intervalMs) => now - last >= intervalMs > 0.0 && OnTempo(es[1..], now)
      case Arrive(_, d) => (d.Some? ==> BeforeSwaps(d.value, es[1..])) && OnTempo(es[1..], last)
      case _ => OnTempo(es[1..], last)
  }

  ghost predicate BeforeSwaps(d: Decode, es: seq<Event>) {
    forall j :: 0 <= j < |es| && es[j].Swap? ==> d.beginMs <= es[j].now
  }

  /** All downloads are on channel a, at most one (or one silence) between two swaps. */
  predicate SoloRun(u: User, a: nat, touched: bool, es: seq<Event>)
    requires a < |u.chs|
    decreases |es|
  {
    es != [] ==>
      && OnChannel(es[0], |u.chs|)
      && (es[0].Arrive? ==> es[0].ch == a)
      && ((es[0].Arrive? || es[0].Silence?) && es[0].ch == a && u.chs[a].IntervalMode() ==> !touched)
      && SoloRun(Step(u, es[0]), a, !es[0].Swap? && (touched || ((es[0].Arrive? || es[0].Silence?) && es[0].ch == a)), es[1..])
  }

  predicate NothingQueued(c: Channel) {
    c.ds.None? && c.next0.None? && c.next1.None? && c.hold == 0
  }

  ghost predicate QueuedBefore(c: Channel, es: seq<Event>) {
    (c.next0.Some? ==> BeforeSwaps(c.next0.value, es)) && (c.next1.Some? ==> BeforeSwaps(c.next1.value, es))
  }

  /** What is kept of the one channel: a second queued download means the first began before
      the last swap. */
  predicate SoloRoom(c: Channel, touched: bool, last: real) {
    && c.hold == 0
    && (c.IntervalMode() ==>
          && NoGap(c) && Queued(c) <= (if touched then 2 else 1)
          && (c.next0.Some? && (!touched || c.next1.Some?) ==> c.next0.value.beginMs <= last))
  }

  predicate OthersEmpty(u: User, a: nat) {
    forall i :: 0 <= i < |u.chs| && i != a ==> NothingQueued(u.chs[i])
  }

  lemma {:induction false} OnlyOneAligns(u: User, a: nat, k: nat)
    requires a < |u.chs| && OthersEmpty(u, a) && k <= |u.chs|
    ensures |Aligning(u, k)| <= if a < k then 1 else 0
  {
    hide IntervalOf;
    if k > 0 {
      OnlyOneAligns(u, a, k - 1);
    }
  }

  lemma NobodyToFollow(u: User, a: nat, k: nat, intervalMs: real, aligns: bool)
    requires a < |u.chs| && OthersEmpty(u, a) && k < |u.chs| && u.chs[a].hold == 0
    ensures var r := Rejoined(u, k, intervalMs, aligns); SameQueue(u.chs[k], r) && r.hold == 0
  {
    hide SiblingPosition, IntervalOf;
  }

  lemma {:induction false} NobodyRejoins(u: User, a: nat, k: nat, intervalMs: real, aligns: bool)
    requires a < |u.chs| && OthersEmpty(u, a) && k <= |u.chs| && u.chs[a].hold == 0
    ensures OthersEmpty(RejoinedAll(u, k, intervalMs, aligns), a)
    ensures RejoinedAll(u, k, intervalMs, aligns).chs[a].hold == 0 && SameQueue(u.chs[a], RejoinedAll(u, k, intervalMs, aligns).chs[a])
  {
    hide Rejoined;
    if k > 0 {
      NobodyRejoins(u, a, k - 1, intervalMs, aligns);
      NobodyToFollow(RejoinedAll(u, k - 1, intervalMs, aligns), a, k - 1, intervalMs, aligns);
    }
  }

  lemma SoloSwap(u: User, a: nat, e: Event)
    requires e.Swap? && a < |u.chs| && OthersEmpty(u, a) && u.chs[a].hold == 0
    ensures OthersEmpty(Step(u, e), a) && Step(u, e).chs[a].hold == 0
    ensures SameQueue(Swapped(u.chs[a], u.Playable(a), LateAt(u, e)), Step(u, e).chs[a])
  {
    hide RejoinedAll, Joining, LateAt, IntervalOf, SkipsForward, OneSession, Numbers;
    var v := AllSwapped(u, LateAt(u, e));
    OnlyOneAligns(v, a, |v.chs|);
    assert Aligned(v, Joining(u, LateAt(u, e))) == v;
    NobodyRejoins(v, a, |v.chs|, e.intervalMs, e.aligns);
  }

  /** A late swap finds at most one download queued: a second one would mean that the first is
      an interval old. */
  lemma LateFindsOne(u: User, a: nat, e: Event, touched: bool, last: real)
    requires e.Swap? && a < |u.chs| && OthersEmpty(u, a) && SoloRoom(u.chs[a], touched, last)
    requires e.now - last >= e.intervalMs > 0.0 && LateAt(u, e)
    ensures u.chs[a].IntervalMode() && u.chs[a].next1.None?
  {
    var guard := LateStartGuard(e.configMs, e.intervalMs);
    var i :| 0 <= i < |u.chs| && StartsLate(u, i, e.now, guard);
    assert i == a;
  }

  lemma SoloSwapRoom(u: User, a: nat, e: Event, touched: bool, last: real, es: seq<Event>)
    requires e.Swap? && a < |u.chs| && OthersEmpty(u, a) && SoloRoom(u.chs[a], touched, last)
    requires e.now - last >= e.intervalMs > 0.0 && QueuedBefore(u.chs[a], [e] + es)
    ensures OthersEmpty(Step(u, e), a) && SoloRoom(Step(u, e).chs[a], false, e.now) && QueuedBefore(Step(u, e).chs[a], es)
  {
    hide OthersEmpty;
    SoloSwap(u, a, e);
    if LateAt(u, e) {
      LateFindsOne(u, a, e, touched, last);
    }
    assert ([e] + es)[0] == e && ([e] + es)[1..] == es;
    Later(u.chs[a], e, es);
    hide Step, LateAt;
  }

  lemma Later(c: Channel, e: Event, es: seq<Event>)
    requires QueuedBefore(c, [e] + es)
    ensures QueuedBefore(c, es)
    ensures e.Swap? ==> (c.next0.Some? ==> c.next0.value.beginMs <= e.now) && (c.next1.Some? ==> c.next1.value.beginMs <= e.now)
  {
    assert ([e] + es)[0] == e;
    assert forall j :: 0 <= j < |es| ==> ([e] + es)[j + 1] == es[j];
  }

  lemma SoloEventRoom(u: User, a: nat, e: Event, touched: bool, last: real, es: seq<Event>)
    requires OnChannel(e, |u.chs|) && !e.Swap? && a < |u.chs| && OthersEmpty(u, a) && SoloRoom(u.chs[a], touched, last)
    requires (e.Arrive? ==> e.ch == a && (e.d.Some? ==> BeforeSwaps(e.d.value, es))) && QueuedBefore(u.chs[a], es)
    requires (e.Arrive? || e.Silence?) && e.ch == a && u.chs[a].IntervalMode() ==> !touched
    ensures !Overwrites(u, e)
    ensures OthersEmpty(Step(u, e), a) && QueuedBefore(Step(u, e).chs[a], es)
    ensures SoloRoom(Step(u, e).chs[a], touched || ((e.Arrive? || e.Silence?) && e.ch == a), last)
  {
    EndBefore(u, a, e, es);
    OthersStayEmpty(u, a, e);
    hide OthersEmpty, QueuedBefore;
    RoomStays(u, a, e, touched, last);
    if (e.Arrive? || e.Silence?) && e.ch != a {
      assert NothingQueued(u.chs[e.ch]) by {
        OtherEmpty(u, a, e.ch);
      }
    }
  }

  lemma OtherEmpty(u: User, a: nat, i: nat)
    requires i < |u.chs| && i != a && OthersEmpty(u, a)
    ensures NothingQueued(u.chs[i])
  {
  }

  lemma OthersStayEmpty(u: User, a: nat, e: Event)
    requires OnChannel(e, |u.chs|) && !e.Swap? && a < |u.chs| && OthersEmpty(u, a) && (e.Arrive? ==> e.ch == a)
    ensures OthersEmpty(Step(u, e), a)
  {
  }

  lemma RoomStays(u: User, a: nat, e: Event, touched: bool, last: real)
    requires OnChannel(e, |u.chs|) && !e.Swap? && a < |u.chs| && SoloRoom(u.chs[a], touched, last)
    requires (e.Arrive? || e.Silence?) && e.ch == a && u.chs[a].IntervalMode() ==> !touched
    ensures SoloRoom(Step(u, e).chs[a], touched || ((e.Arrive? || e.Silence?) && e.ch == a), last)
  {
  }

  lemma EndBefore(u: User, a: nat, e: Event, es: seq<Event>)
    requires OnChannel(e, |u.chs|) && !e.Swap? && a < |u.chs| && QueuedBefore(u.chs[a], es)
    requires e.Arrive? && e.d.Some? ==> BeforeSwaps(e.d.value, es)
    ensures QueuedBefore(Step(u, e).chs[a], es)
  {
  }

  /** A user who sends on one channel, at a steady tempo, loses nothing, with the late-start
      guard set to anything: it is at most a quarter interval, and what it keeps back at one
      swap is older at the next. */
  lemma {:induction false} OneChannelLosesNothing(u: User, a: nat, touched: bool, es: seq<Event>, last: real)
    requires a < |u.chs| && SoloRun(u, a, touched, es) && OnTempo(es, last)
    requires OthersEmpty(u, a) && SoloRoom(u.chs[a], touched, last) && QueuedBefore(u.chs[a], es)
    ensures LosesNothing(u, es)
    decreases |es|
  {
    hide OthersEmpty, SoloRoom, QueuedBefore, BeforeSwaps;
    if es != [] {
      var e := es[0];
      assert es == [e] + es[1..];
      if e.Swap? {
        SoloSwapRoom(u, a, e, touched, last, es[1..]);
        OneChannelLosesNothing(Step(u, e), a, false, es[1..], e.now);
        SoloSwapQueues(Step(u, e), a, e.now);
      } else {
        Later(u.chs[a], e, es[1..]);
        SoloEventRoom(u, a, e, touched, last, es[1..]);
        hide Step;
        OneChannelLosesNothing(Step(u, e), a, touched || ((e.Arrive? || e.Silence?) && e.ch == a), es[1..], last);
      }
    }
  }

  lemma SoloSwapQueues(u: User, a: nat, last: real)
    requires a < |u.chs| && OthersEmpty(u, a) && SoloRoom(u.chs[a], false, last)
    ensures forall i :: 0 <= i < |u.chs| && u.chs[i].IntervalMode() ==> Queued(u.chs[i]) + u.chs[i].hold <= 1
  {
  }

  /** From the start of a session. */
  lemma OneChannelFromIdle(u: User, a: nat, es: seq<Event>, start: real)
    requires a < |u.chs| && Idle(u) && SoloRun(u, a, false, es) && OnTempo(es, start)
    ensures LosesNothing(u, es)
  {
    OneChannelLosesNothing(u, a, false, es, start);
  }

  // ----- a user with two channels -----

  function Download(beginMs: real): Option<Decode> {
    Some(Decode(ZERO_GUID, beginMs, 0.0))
  }

  function SwapAt(now: real): Event {
    Swap(now, 250.0, true, 1000.0)
  }

  /** Each swap a second after the other, each download begun less than a quarter second before
      one; no channel gets two between two swaps. */
  function TwoChannelRun(): seq<Event> {
    [Arrive(0, Download(900.0)), SwapAt(1000.0),
     Arrive(0, Download(1900.0)), Arrive(1, Download(1900.0)), SwapAt(2000.0),
     Arrive(0, Download(2900.0))]
  }

  /** The user after the run's first n events. */
  function TwoChannels(n: nat): User {
    var c, d, e := Download(900.0), Download(1900.0), if n >= 4 then Download(1900.0) else None;
    User([IDLE.(next0 := if n >= 1 then c else None, next1 := if n >= 3 then d else None), IDLE.(next0 := e)], {0, 1}, {0, 1})
  }

  /** A late swap of these channels leaves the queues as they are. */
  lemma LateKeepsQueues(n: nat, now: real)
    requires (n == 1 && now == 1000.0) || (n == 4 && now == 2000.0)
    ensures Step(TwoChannels(n), SwapAt(now)) == TwoChannels(n)
  {
    var u, e := TwoChannels(n), SwapAt(now);
    assert StartsLate(u, if n == 1 then 0 else 1, now, LateStartGuard(250.0, 1000.0));
    assert LateAt(u, e);
    hide LateAt, IntervalOf;
    var v := AllSwapped(u, true);
    assert v.chs == u.chs;
    assert Aligning(v, 0) == [] && Aligning(v, 1) == [] && Aligning(v, 2) == [];
    assert RejoinedAll(v, 0, 1000.0, true) == v;
    assert RejoinedAll(v, 1, 1000.0, true) == v;
  }

  lemma {:induction false} RanSplit(u: User, es: seq<Event>, e: Event)
    requires forall f :: f in es + [e] ==> OnChannel(f, |u.chs|)
    ensures Ran(u, es + [e]) == Step(Ran(u, es), e)
  {
    assert (es + [e])[..|es|] == es;
  }

  lemma ArrivalQueued(n: nat)
    requires n in {1, 3, 4}
    ensures Step(TwoChannels(n - 1), TwoChannelRun()[n - 1]) == TwoChannels(n)
  {
  }

  lemma {:induction false} TwoChannelStates(n: nat)
    requires n <= 5
    ensures (forall f :: f in TwoChannelRun() ==> OnChannel(f, 2)) && Ran(TwoChannels(0), TwoChannelRun()[..n]) == TwoChannels(n)
  {
    var es := TwoChannelRun();
    hide Step;
    if n == 0 {
      assert es[..0] == [];
    } else {
      TwoChannelStates(n - 1);
      hide TwoChannels;
      assert es[..n] == es[..n - 1] + [es[n - 1]];
      RanSplit(TwoChannels(0), es[..n - 1], es[n - 1]);
      hide TwoChannelRun;
      TwoChannelStep(n);
    }
  }

  lemma TwoChannelStep(n: nat)
    requires 0 < n <= 5
    ensures OnChannel(TwoChannelRun()[n - 1], |TwoChannels(n - 1).chs|)
    ensures Step(TwoChannels(n - 1), TwoChannelRun()[n - 1]) == TwoChannels(n)
  {
    hide Step;
    if n == 2 {
      LateKeepsQueues(1, 1000.0);
    } else if n == 5 {
      LateKeepsQueues(4, 2000.0);
    } else {
      ArrivalQueued(n);
    }
  }

  lemma ThirdOverwrites()
    ensures var e := TwoChannelRun()[5]; OnChannel(e, |TwoChannels(5).chs|) && Overwrites(TwoChannels(5), e) && e.ch == 0
  {
  }

  lemma TwoChannelsUntagged()
    ensures UntaggedRun(TwoChannels(0), TwoChannelRun()) && Idle(TwoChannels(0))
  {
    assert IntervalOf(ZERO_GUID).None?;
  }

  lemma TwoChannelTimes()
    ensures OnTempo(TwoChannelRun(), 0.0)
  {
    var es := TwoChannelRun();
    assert es[1..][1..] == es[2..] && es[2..][1..] == es[3..] && es[3..][1..] == es[4..] && es[4..][1..] == es[5..] && es[5..][1..] == [];
    assert OnTempo(es[5..], 2000.0);
    assert OnTempo(es[4..], 1000.0);
    assert OnTempo(es[3..], 1000.0);
    assert OnTempo(es[2..], 1000.0);
    assert OnTempo(es[1..], 0.0);
  }

  /** With two channels, the guard can cost an interval at a steady tempo: one channel's young
      download makes the second swap late, while two are queued on the other. */
  lemma TwoChannelsCanLose()
    ensures var u, es := TwoChannels(0), TwoChannelRun();
            Idle(u) && UntaggedRun(u, es) && OnTempo(es, 0.0) && LosesAt(u, es, 5, 0)
    ensures var u, es := TwoChannels(0), TwoChannelRun();
            exists i, j :: 0 <= i <= j < 6 && TwoAhead(u, es, i, j, 0)
  {
    var u, es := TwoChannels(0), TwoChannelRun();
    TwoChannelTimes();
    TwoChannelStates(5);
    TwoChannelsUntagged();
    ThirdOverwrites();
    hide Ran, OnTempo, TwoAhead, Step, UntaggedRun, Overwrites, Idle, OnChannel;
    LosesIffTwoAhead(u, es, 6, 0);
  }
}
