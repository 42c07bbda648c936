/** What a swap as a whole drops: an interval is lost to the alignment only where a channel that
    was already playing before the swap is on the latest interval (njclient.cpp). */
module SwapAlignment {
  import opened IntervalTag
  import opened Channels
  import opened Alignment

  /** A channel aligned at a swap has just joined exactly when it played nothing before. */
  lemma JoinedIffSilent(u: User, late: bool, i: nat)
    requires i < |u.chs| && Tagged(AllSwapped(u, late), i)
    ensures i in Joining(u, late) <==> u.chs[i].ds.None?
  {
    hide IntervalOf;
  }

  lemma {:induction false} RejoinKeepsQueues(u: User, k: nat, intervalMs: real, aligns: bool)
    requires k <= |u.chs|
    ensures forall i :: 0 <= i < |u.chs| ==> RejoinedAll(u, k, intervalMs, aligns).chs[i].Queue() == u.chs[i].Queue()
  {
    hide Rejoined, Channel.Queue;
    if k > 0 {
      RejoinKeepsQueues(u, k - 1, intervalMs, aligns);
      OneRejoins(RejoinedAll(u, k - 1, intervalMs, aligns), k - 1, intervalMs, aligns);
    }
  }

  lemma OneRejoins(u: User, ch: nat, intervalMs: real, aligns: bool)
    requires ch < |u.chs|
    ensures Rejoined(u, ch, intervalMs, aligns).Queue() == u.chs[ch].Queue()
  {
    hide Reference, SiblingPosition, IntervalOf;
  }

  /** Every channel on the latest interval played nothing before the swap. */
  ghost predicate LatestAreNew(u: User, v: User, num: Numbering)
    requires |v.chs| == |u.chs|
  {
    forall i :: 0 <= i < |v.chs| && Tagged(v, i) && OnLatest(v, i, num) ==> u.chs[i].ds.None?
  }

  ghost predicate OnLatest(v: User, i: nat, num: Numbering)
    requires i < |v.chs| && Tagged(v, i)
  {
    forall k :: 0 <= k < |v.chs| && Tagged(v, k) ==> Plays(v, k, num) <= Plays(v, i, num)
  }

  ghost predicate HasQueued(c: Channel, n: int, num: Numbering) {
    exists d :: d in c.Queue() && num(d.guid) == n
  }

  lemma ExtremesExist(v: User, num: Numbering) returns (lo: int, hi: int)
    requires Aligning(v, |v.chs|) != []
    ensures Extremes(v, lo, hi, num)
  {
    hide Tagged, Aligning;
    var first := Aligning(v, |v.chs|)[0];
    var a, b := first, first;
    for k := 0 to |v.chs|
      invariant 0 <= a < |v.chs| && Tagged(v, a) && 0 <= b < |v.chs| && Tagged(v, b)
      invariant forall i :: 0 <= i < k && Tagged(v, i) ==> Plays(v, a, num) <= Plays(v, i, num) <= Plays(v, b, num)
      invariant Plays(v, a, num) <= Plays(v, first, num) <= Plays(v, b, num)
    {
      if Tagged(v, k) && Plays(v, k, num) < Plays(v, a, num) {
        a := k;
      }
      if Tagged(v, k) && Plays(v, k, num) > Plays(v, b, num) {
        b := k;
      }
    }
    lo, hi := Plays(v, a, num), Plays(v, b, num);
  }

  /** Where all channels on the latest interval only start at this swap, no channel loses an
      interval: the others wait for them, or play on. */
  lemma NewcomersDropNothing(u: User, late: bool, intervalMs: real, num: Numbering)
    requires Comparable(AllSwapped(u, late), num) && LatestAreNew(u, AllSwapped(u, late), num)
    ensures var v, r := AllSwapped(u, late), AfterSwap(u, late, true, intervalMs);
            |r.chs| == |v.chs| && forall i :: 0 <= i < |v.chs| ==> r.chs[i].Queue() == v.chs[i].Queue()
  {
    hide Tagged, Comparable, Aligning, Joining, OneSession, Channel.Queue, AllSwapped, SkipsForward, TogetherOnEarliest, RejoinedAll;
    var v := AllSwapped(u, late);
    var list := Aligning(v, |v.chs|);
    var w := Aligned(v, Joining(u, late));
    if |list| >= 2 && OneSession(v, list) {
      var lo, hi := ExtremesExist(v, num);
      AlignmentOutcome(v, Joining(u, late), lo, hi, num);
      if lo < hi {
        forall i | 0 <= i < |v.chs| && Tagged(v, i) && Plays(v, i, num) == hi
          ensures i in Joining(u, late)
        {
          assert OnLatest(v, i, num);
          JoinedIffSilent(u, late, i);
        }
        WaitersKeepQueues(v, w, lo, num);
      }
    }
    RejoinKeepsQueues(w, |w.chs|, intervalMs, true);
  }

  lemma WaitersKeepQueues(v: User, w: User, lo: int, num: Numbering)
    requires |w.chs| == |v.chs| && TogetherOnEarliest(v, w, lo, num)
    requires forall i :: 0 <= i < |v.chs| && !Tagged(v, i) ==> w.chs[i] == v.chs[i]
    ensures forall i :: 0 <= i < |v.chs| ==> w.chs[i].Queue() == v.chs[i].Queue()
  {
    hide Tagged;
  }

  /** Exactly when the swap's alignment drops an interval: the numbers differ, a channel on the
      latest one played before the swap, and every other has the latest queued. */
  lemma DropsIff(u: User, late: bool, intervalMs: real, lo: int, hi: int, num: Numbering)
    requires Comparable(AllSwapped(u, late), num) && Extremes(AllSwapped(u, late), lo, hi, num)
    requires OneSession(AllSwapped(u, late), Aligning(AllSwapped(u, late), |u.chs|))
    requires |Aligning(AllSwapped(u, late), |u.chs|)| >= 2
    ensures var v, r := AllSwapped(u, late), AfterSwap(u, late, true, intervalMs);
            |r.chs| == |v.chs| &&
            ((exists i :: 0 <= i < |v.chs| && r.chs[i].Queue() != v.chs[i].Queue()) <==>
             && lo < hi
             && (exists i :: 0 <= i < |v.chs| && Tagged(v, i) && Plays(v, i, num) == hi && u.chs[i].ds.Some?)
             && (forall i :: 0 <= i < |v.chs| && Tagged(v, i) && Plays(v, i, num) != hi ==> HasQueued(v.chs[i], hi, num)))
  {
    hide Tagged, Comparable, Aligning, Joining, OneSession, Channel.Queue, AllSwapped, SkipsForward, TogetherOnEarliest, TogetherOnLatest, RejoinedAll, Aligned;
    var v := AllSwapped(u, late);
    var w := Aligned(v, Joining(u, late));
    AlignmentOutcome(v, Joining(u, late), lo, hi, num);
    RejoinKeepsQueues(w, |w.chs|, intervalMs, true);
    forall i | 0 <= i < |v.chs| && Tagged(v, i)
      ensures i in Joining(u, late) <==> u.chs[i].ds.None?
    {
      JoinedIffSilent(u, late, i);
    }
    if lo < hi {
      if CanSkip(v, Joining(u, late), hi, num) {
        SkipperLoses(v, w, lo, hi, num);
      } else {
        WaitersKeepQueues(v, w, lo, num);
      }
    }
  }

  lemma SkipperLoses(v: User, w: User, lo: int, hi: int, num: Numbering)
    requires |w.chs| == |v.chs| && TogetherOnLatest(v, w, hi, num) && lo < hi && Extremes(v, lo, hi, num)
    ensures exists i :: 0 <= i < |v.chs| && w.chs[i].Queue() != v.chs[i].Queue()
  {
    hide Channel.Queue, OnlyOlderDropped;
    var i :| 0 <= i < |v.chs| && Tagged(v, i) && Plays(v, i, num) == lo;
    FirstPlays(v.chs[i]);
    FirstPlays(w.chs[i]);
  }

  lemma FirstPlays(c: Channel)
    requires c.ds.Some?
    ensures c.Queue() != [] && c.Queue()[0] == c.ds.value
  {
  }
}
