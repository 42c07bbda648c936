/** What aligning a user's channels achieves (docs/CHANNEL_ALIGNMENT.md section 3), under
    the wrap-around comparison of interval numbers. */
module Alignment {
  import opened Bytes
  import opened IntervalTag
  import opened Options
  import opened Channels

  /** A channel's queue is tagged, in order and without a gap. */
  ghost predicate WellQueued(c: Channel, num: Numbering) {
    && (c.next1.Some? ==> c.next0.Some?)
    && (forall d :: d in c.Queue() ==> IntervalOf(d.guid) == Some(num(d.guid) % TWO_32))
    && (forall a, b :: 0 <= a < b < |c.Queue()| ==> num(c.Queue()[a].guid) < num(c.Queue()[b].guid))
  }

  ghost predicate Near(c: Channel, e: Channel, num: Numbering) {
    forall d, f :: d in c.Queue() && f in e.Queue() ==> num(d.guid) - num(f.guid) < TWO_31
  }

  /** What the comparison needs: the numbers in play span less than half the range. */
  ghost predicate Comparable(u: User, num: Numbering) {
    && (forall i :: 0 <= i < |u.chs| && Tagged(u, i) ==> WellQueued(u.chs[i], num))
    && (forall i, j :: 0 <= i < |u.chs| && 0 <= j < |u.chs| && Tagged(u, i) && Tagged(u, j) ==>
          Near(u.chs[i], u.chs[j], num))
  }

  ghost function Plays(u: User, i: int, num: Numbering): int
    requires 0 <= i < |u.chs| && Tagged(u, i)
  {
    num(PlayingGuid(u, i))
  }

  // ----- the scans find the true extremes -----

  ghost predicate Residues(iv: seq<int>, ns: seq<int>) {
    && |iv| == |ns|
    && (forall j :: 0 <= j < |iv| ==> iv[j] == ns[j] % TWO_32)
    && (forall j, k :: 0 <= j < |iv| && 0 <= k < |iv| ==> ns[j] - ns[k] < TWO_31)
  }

  lemma Compare(m: int, n: int)
    requires -TWO_31 < m - n < TWO_31
    ensures Ahead(m % TWO_32, n % TWO_32) == m - n
  {
    AheadIsDistance(m, n);
  }

  /** Two of the numbers compare as they should. */
  lemma ComparesRight(iv: seq<int>, ns: seq<int>, j: nat, k: nat)
    requires Residues(iv, ns) && j < |iv| && k < |iv|
    ensures Ahead(iv[j], iv[k]) == ns[j] - ns[k]
  {
    assert ns[j] - ns[k] < TWO_31 && ns[k] - ns[j] < TWO_31;
    hide Ahead;
    Compare(ns[j], ns[k]);
  }

  /** The scan over one number, and one further. */
  lemma Scanned(iv: seq<int>, n: nat)
    requires 0 < n <= |iv|
    ensures n == 1 ==> Lowest(iv[..n]) == Highest(iv[..n]) == iv[0]
    ensures n > 1 ==>
              && Lowest(iv[..n]) == (if Ahead(iv[n - 1], Lowest(iv[..n - 1])) < 0 then iv[n - 1] else Lowest(iv[..n - 1]))
              && Highest(iv[..n]) == if Ahead(iv[n - 1], Highest(iv[..n - 1])) > 0 then iv[n - 1] else Highest(iv[..n - 1])
  {
    hide Ahead;
    assert iv[..n][..n - 1] == iv[..n - 1];
  }

  lemma {:induction false} LowestOfFirst(iv: seq<int>, ns: seq<int>, n: nat) returns (m: nat)
    requires 0 < n <= |iv| == |ns| && Residues(iv, ns)
    ensures m < n && Lowest(iv[..n]) == iv[m]
    ensures forall k :: 0 <= k < n ==> ns[m] <= ns[k]
  {
    hide Residues, Ahead, Lowest, Highest;
    Scanned(iv, n);
    m := n - 1;
    if n > 1 {
      m := LowestOfFirst(iv, ns, n - 1);
      ComparesRight(iv, ns, n - 1, m);
      if Ahead(iv[n - 1], iv[m]) < 0 {
        m := n - 1;
      }
    }
  }

  lemma {:induction false} HighestOfFirst(iv: seq<int>, ns: seq<int>, n: nat) returns (m: nat)
    requires 0 < n <= |iv| == |ns| && Residues(iv, ns)
    ensures m < n && Highest(iv[..n]) == iv[m]
    ensures forall k :: 0 <= k < n ==> ns[m] >= ns[k]
  {
    hide Residues, Ahead, Lowest, Highest;
    Scanned(iv, n);
    m := n - 1;
    if n > 1 {
      m := HighestOfFirst(iv, ns, n - 1);
      ComparesRight(iv, ns, n - 1, m);
      if Ahead(iv[n - 1], iv[m]) > 0 {
        m := n - 1;
      }
    }
  }

  lemma LowestIsMinimum(iv: seq<int>, ns: seq<int>) returns (m: nat)
    requires |iv| > 0 && Residues(iv, ns)
    ensures m < |iv| && Lowest(iv) == iv[m]
    ensures forall k :: 0 <= k < |ns| ==> ns[m] <= ns[k]
  {
    hide Lowest;
    m := LowestOfFirst(iv, ns, |iv|);
    assert iv[..|iv|] == iv;
  }

  lemma HighestIsMaximum(iv: seq<int>, ns: seq<int>) returns (m: nat)
    requires |iv| > 0 && Residues(iv, ns)
    ensures m < |iv| && Highest(iv) == iv[m]
    ensures forall k :: 0 <= k < |ns| ==> ns[m] >= ns[k]
  {
    hide Highest;
    m := HighestOfFirst(iv, ns, |iv|);
    assert iv[..|iv|] == iv;
  }

  // ----- dropping -----

  lemma AdvancedQueue(c: Channel, num: Numbering)
    requires WellQueued(c, num) && c.ds.Some?
    ensures c.Queue() != [] && c.Queue()[0] == c.ds.value
    ensures c.Advanced().Queue() == c.Queue()[1..] && c.Advanced().hold == c.hold
    ensures c.Advanced().ds.None? ==> c.Queue()[1..] == []
    ensures WellQueued(c.Advanced(), num)
  {
    hide IntervalOf;
    var e := c.Advanced();
    assert e.Queue() == c.Queue()[1..];
    forall d | d in e.Queue()
      ensures d in c.Queue()
    {
    }
  }

  lemma TagInQueue(c: Channel, num: Numbering)
    requires WellQueued(c, num) && c.Queue() != []
    ensures IntervalOf(c.Queue()[0].guid) == Some(num(c.Queue()[0].guid) % TWO_32)
  {
    hide IntervalOf;
    assert c.Queue()[0] in c.Queue();
  }

  /** What was dropped is a prefix of the queue, all of it older than the target. */
  lemma {:induction false} DropsOlderPrefix(c: Channel, target: int, num: Numbering) returns (k: nat)
    requires WellQueued(c, num)
    requires forall d :: d in c.Queue() ==> -TWO_31 < num(d.guid) - target < TWO_31
    ensures k <= |c.Queue()|
    ensures DropOlder(c, target % TWO_32).Queue() == c.Queue()[k..]
    ensures DropOlder(c, target % TWO_32).hold == c.hold
    ensures forall a :: 0 <= a < k ==> num(c.Queue()[a].guid) < target
    ensures c.ds.Some? && k < |c.Queue()| ==>
              DropOlder(c, target % TWO_32).ds == Some(c.Queue()[k]) && num(c.Queue()[k].guid) >= target
    decreases Size(c)
  {
    hide IntervalOf, Ahead, Channel.Queue, Channel.Advanced, WellQueued;
    k := 0;
    if c.ds.Some? {
      AdvancedQueue(c, num);
      TagInQueue(c, num);
      var n := num(c.ds.value.guid);
      assert c.Queue()[0] in c.Queue();
      Compare(n, target);
      if n < target {
        var e := c.Advanced();
        forall d | d in e.Queue()
          ensures d in c.Queue()
        {
        }
        var j := DropsOlderPrefix(e, target, num);
        k := if e.ds.Some? then j + 1 else 1;
        DropStep(c, target, n);
      } else {
        DropStop(c, target, n);
      }
    } else {
      DropStop(c, target, target);
    }
  }

  lemma DropStep(c: Channel, target: int, n: int)
    requires c.ds.Some? && IntervalOf(c.ds.value.guid) == Some(n % TWO_32)
    requires Ahead(n % TWO_32, target % TWO_32) < 0
    ensures DropOlder(c, target % TWO_32) == DropOlder(c.Advanced(), target % TWO_32)
    ensures c.Advanced().ds.None? ==> DropOlder(c, target % TWO_32) == c.Advanced()
  {
    hide IntervalOf, Ahead;
  }

  lemma DropStop(c: Channel, target: int, n: int)
    requires c.ds.Some? ==> IntervalOf(c.ds.value.guid) == Some(n % TWO_32) && Ahead(n % TWO_32, target % TWO_32) >= 0
    ensures DropOlder(c, target % TWO_32) == c
  {
    hide IntervalOf, Ahead;
  }

  // ----- the outcome -----

  /** Every aligned channel plays the latest interval now. */
  ghost predicate TogetherOnLatest(u: User, v: User, hi: int, num: Numbering)
    requires |v.chs| == |u.chs|
  {
    forall i :: 0 <= i < |u.chs| && Tagged(u, i) ==>
      && v.chs[i].ds.Some? && num(v.chs[i].ds.value.guid) == hi && v.chs[i].hold == 0
      && OnlyOlderDropped(u.chs[i], v.chs[i], hi, num)
  }

  ghost predicate OnlyOlderDropped(c: Channel, e: Channel, hi: int, num: Numbering) {
    exists k :: 0 <= k <= |c.Queue()| && e.Queue() == c.Queue()[k..] &&
      forall a :: 0 <= a < k ==> num(c.Queue()[a].guid) < hi
  }

  /** Nothing was dropped, and every aligned channel is on the earliest interval, waits, or
      has a full queue. */
  ghost predicate TogetherOnEarliest(u: User, v: User, lo: int, num: Numbering)
    requires |v.chs| == |u.chs|
  {
    forall i :: 0 <= i < |u.chs| && Tagged(u, i) ==> WaitsForEarliest(u.chs[i], v.chs[i], Plays(u, i, num) == lo)
  }

  ghost predicate WaitsForEarliest(c: Channel, e: Channel, onIt: bool) {
    e == c.(hold := e.hold) && (e.hold == 0 || e.hold == 1) && (e.hold == 0 <==> onIt || c.next1.Some?)
  }

  /** Every channel behind the latest interval has it queued, and some channel already
      playing before this swap is on it. */
  ghost predicate CanSkip(u: User, joined: set<int>, hi: int, num: Numbering) {
    && (exists i :: 0 <= i < |u.chs| && Tagged(u, i) && Plays(u, i, num) == hi && i !in joined)
    && (forall i :: 0 <= i < |u.chs| && Tagged(u, i) && Plays(u, i, num) != hi ==>
          exists d :: d in u.chs[i].Queue() && num(d.guid) == hi)
  }

  ghost predicate Extremes(u: User, lo: int, hi: int, num: Numbering) {
    && (exists i :: 0 <= i < |u.chs| && Tagged(u, i) && Plays(u, i, num) == lo)
    && (exists i :: 0 <= i < |u.chs| && Tagged(u, i) && Plays(u, i, num) == hi)
    && (forall i :: 0 <= i < |u.chs| && Tagged(u, i) ==> lo <= Plays(u, i, num) <= hi)
  }

  lemma PlayingInQueue(u: User, i: int)
    requires 0 <= i < |u.chs| && Tagged(u, i)
    ensures u.chs[i].Queue() != [] && u.chs[i].Queue()[0] == u.chs[i].ds.value
    ensures u.chs[i].ds.value in u.chs[i].Queue()
  {
    hide IntervalOf;
  }

  /** Channel i compared with what channel w plays. */
  lemma Distances(u: User, i: int, w: int, num: Numbering)
    requires Comparable(u, num)
    requires 0 <= i < |u.chs| && Tagged(u, i) && 0 <= w < |u.chs| && Tagged(u, w)
    ensures Number(u, i) == Plays(u, i, num) % TWO_32 && Number(u, w) == Plays(u, w, num) % TWO_32
    ensures Ahead(Number(u, i), Number(u, w)) == Plays(u, i, num) - Plays(u, w, num)
    ensures Number(u, i) == Number(u, w) <==> Plays(u, i, num) == Plays(u, w, num)
    ensures forall d :: d in u.chs[i].Queue() ==>
              -TWO_31 < num(d.guid) - Plays(u, w, num) < TWO_31 &&
              (IntervalOf(d.guid) == Some(Number(u, w)) <==> num(d.guid) == Plays(u, w, num))
  {
    hide IntervalOf, Ahead, Tagged;
    PlayingInQueue(u, i);
    PlayingInQueue(u, w);
    assert WellQueued(u.chs[i], num) && WellQueued(u.chs[w], num);
    assert Near(u.chs[i], u.chs[w], num) && Near(u.chs[w], u.chs[i], num);
    forall d | d in u.chs[i].Queue()
      ensures -TWO_31 < num(d.guid) - Plays(u, w, num) < TWO_31
      ensures IntervalOf(d.guid) == Some(Number(u, w)) <==> num(d.guid) == Plays(u, w, num)
    {
      SameNumber(num(d.guid), Plays(u, w, num));
    }
    SameNumber(Plays(u, i, num), Plays(u, w, num));
    Compare(Plays(u, i, num), Plays(u, w, num));
  }

  lemma SameNumber(m: int, n: int)
    requires -TWO_31 < m - n < TWO_31
    ensures m % TWO_32 == n % TWO_32 <==> m == n
  {
  }

  lemma MovedBack(u: User, w: int, num: Numbering)
    requires Comparable(u, num) && 0 <= w < |u.chs| && Tagged(u, w)
    requires forall i :: 0 <= i < |u.chs| && Tagged(u, i) ==> Plays(u, w, num) <= Plays(u, i, num)
    ensures TogetherOnEarliest(u, MovedTo(u, Number(u, w), |u.chs|), Plays(u, w, num), num)
  {
    hide Tagged, Comparable, Ahead, DropOlder;
    forall i | 0 <= i < |u.chs| && Tagged(u, i)
      ensures Ahead(Number(u, i), Number(u, w)) == Plays(u, i, num) - Plays(u, w, num)
      ensures u.chs[i].hold == 0
    {
      Distances(u, i, w, num);
      TaggedIsFree(u, i);
    }
  }

  lemma TaggedIsFree(u: User, i: int)
    requires 0 <= i < |u.chs| && Tagged(u, i)
    ensures u.chs[i].hold == 0 && u.chs[i].ds.Some?
  {
  }

  /** One channel that has the target queued, or plays it. */
  lemma SkipsToTarget(u: User, i: int, w: int, num: Numbering)
    requires Comparable(u, num)
    requires 0 <= i < |u.chs| && Tagged(u, i) && 0 <= w < |u.chs| && Tagged(u, w)
    requires Plays(u, i, num) <= Plays(u, w, num)
    requires exists d :: d in u.chs[i].Queue() && num(d.guid) == Plays(u, w, num)
    ensures var e := AlignedOne(u.chs[i], Number(u, i), Number(u, w));
            && e.ds.Some? && num(e.ds.value.guid) == Plays(u, w, num) && e.hold == 0
            && OnlyOlderDropped(u.chs[i], e, Plays(u, w, num), num)
  {
    hide Tagged, Ahead, DropOlder, IntervalOf, Channel.Queue, OnlyOlderDropped;
    var c, t := u.chs[i], Plays(u, w, num);
    Distances(u, i, w, num);
    TaggedIsFree(u, i);
    PlayingInQueue(u, i);
    if Plays(u, i, num) == t {
      NothingDropped(c, t, num);
    } else {
      assert WellQueued(c, num);
      hide Comparable, WellQueued;
      DropsToTarget(c, t, num);
    }
  }

  lemma NothingDropped(c: Channel, t: int, num: Numbering)
    ensures OnlyOlderDropped(c, c, t, num)
  {
    assert c.Queue() == c.Queue()[0..];
  }

  lemma DropsToTarget(c: Channel, t: int, num: Numbering)
    requires WellQueued(c, num) && c.ds.Some? && exists d :: d in c.Queue() && num(d.guid) == t
    requires forall d :: d in c.Queue() ==> -TWO_31 < num(d.guid) - t < TWO_31
    ensures var e := DropOlder(c, t % TWO_32);
            && e.ds.Some? && num(e.ds.value.guid) == t && e.hold == c.hold && OnlyOlderDropped(c, e, t, num)
  {
    hide DropOlder, Channel.Queue, WellQueued;
    var k := DropsOlderPrefix(c, t, num);
    var d :| d in c.Queue() && num(d.guid) == t;
    var a :| 0 <= a < |c.Queue()| && c.Queue()[a] == d;
    assert k <= a;
    TargetFirst(c, k, a, t, num);
  }

  /** The first entry not older than the target is the target, if the queue holds it. */
  lemma TargetFirst(c: Channel, k: nat, a: nat, t: int, num: Numbering)
    requires WellQueued(c, num) && k <= a < |c.Queue()| && num(c.Queue()[a].guid) == t
    requires num(c.Queue()[k].guid) >= t
    ensures num(c.Queue()[k].guid) == t
  {
  }

  lemma MovedForward(u: User, w: int, num: Numbering)
    requires Comparable(u, num) && 0 <= w < |u.chs| && Tagged(u, w)
    requires forall i :: 0 <= i < |u.chs| && Tagged(u, i) ==> Plays(u, i, num) <= Plays(u, w, num)
    requires forall i :: 0 <= i < |u.chs| && Tagged(u, i) && Plays(u, i, num) != Plays(u, w, num) ==>
               exists d :: d in u.chs[i].Queue() && num(d.guid) == Plays(u, w, num)
    ensures TogetherOnLatest(u, MovedTo(u, Number(u, w), |u.chs|), Plays(u, w, num), num)
  {
    hide Tagged, Comparable, Ahead, AlignedOne, Channel.Queue;
    var v := MovedTo(u, Number(u, w), |u.chs|);
    forall i | 0 <= i < |u.chs| && Tagged(u, i)
      ensures v.chs[i].ds.Some? && num(v.chs[i].ds.value.guid) == Plays(u, w, num) && v.chs[i].hold == 0
      ensures OnlyOlderDropped(u.chs[i], v.chs[i], Plays(u, w, num), num)
    {
      PlayingInQueue(u, i);
      SkipsToTarget(u, i, w, num);
    }
  }

  /** A tag found in the queue behind is the wanted interval itself. */
  lemma QueuedIsTheNumber(u: User, i: int, w: int, num: Numbering)
    requires Comparable(u, num)
    requires 0 <= i < |u.chs| && Tagged(u, i) && 0 <= w < |u.chs| && Tagged(u, w)
    requires Plays(u, i, num) != Plays(u, w, num)
    ensures QueuedBehind(u.chs[i], Number(u, w)) <==>
            exists d :: d in u.chs[i].Queue() && num(d.guid) == Plays(u, w, num)
  {
    hide Tagged, Comparable, Ahead, IntervalOf;
    var c, t := u.chs[i], Plays(u, w, num);
    Distances(u, i, w, num);
    TaggedIsFree(u, i);
    if QueuedBehind(c, Number(u, w)) {
      var d := if HasNumber(c.next0, Number(u, w)) then c.next0.value else c.next1.value;
      assert d in c.Queue();
    }
    if d :| d in c.Queue() && num(d.guid) == t {
      assert d != c.ds.value;
      assert Some(d) == c.next0 || Some(d) == c.next1;
    }
  }

  lemma SkipCondition(u: User, joined: set<int>, w: int, num: Numbering)
    requires Comparable(u, num) && 0 <= w < |u.chs| && Tagged(u, w)
    ensures SkipsForward(u, Aligning(u, |u.chs|), joined, Number(u, w)) <==> CanSkip(u, joined, Plays(u, w, num), num)
  {
    hide Tagged, Comparable, Ahead, Aligning, QueuedBehind, Channel.Queue;
    var list, hi := Aligning(u, |u.chs|), Number(u, w);
    forall i | 0 <= i < |u.chs| && Tagged(u, i)
      ensures Number(u, i) == hi <==> Plays(u, i, num) == Plays(u, w, num)
      ensures Number(u, i) != hi ==>
                (QueuedBehind(u.chs[i], hi) <==> exists d :: d in u.chs[i].Queue() && num(d.guid) == Plays(u, w, num))
      ensures exists j :: 0 <= j < |list| && list[j] == i
    {
      Distances(u, i, w, num);
      if Number(u, i) != hi {
        QueuedIsTheNumber(u, i, w, num);
      }
      assert i in list;
    }
  }

  lemma ScanResults(u: User, lo: int, hi: int, num: Numbering) returns (a: int, b: int)
    requires Comparable(u, num) && |Aligning(u, |u.chs|)| >= 2
    requires Extremes(u, lo, hi, num)
    ensures 0 <= a < |u.chs| && Tagged(u, a) && Plays(u, a, num) == lo
    ensures 0 <= b < |u.chs| && Tagged(u, b) && Plays(u, b, num) == hi
    ensures Lowest(Numbers(u, Aligning(u, |u.chs|))) == Number(u, a)
    ensures Highest(Numbers(u, Aligning(u, |u.chs|))) == Number(u, b)
  {
    hide Tagged, Comparable, Ahead, Lowest, Highest, Aligning;
    var list := Aligning(u, |u.chs|);
    var iv := Numbers(u, list);
    var ns := seq(|list|, j requires 0 <= j < |list| => Plays(u, list[j], num));
    forall j, k | 0 <= j < |list| && 0 <= k < |list|
      ensures ns[j] - ns[k] < TWO_31 && iv[j] == ns[j] % TWO_32
    {
      Distances(u, list[j], list[k], num);
      PlayingInQueue(u, list[j]);
    }
    var j := LowestIsMinimum(iv, ns);
    var k := HighestIsMaximum(iv, ns);
    a, b := list[j], list[k];
    var i :| 0 <= i < |u.chs| && Tagged(u, i) && Plays(u, i, num) == lo;
    assert i in list;
    var i' :| 0 <= i' < |u.chs| && Tagged(u, i') && Plays(u, i', num) == hi;
    assert i' in list;
  }

  /** The alignment ends with every aligned channel on the latest interval, or with every one
      on the earliest, held, or with a full queue; it drops intervals only in the first
      case, which is exactly the case where everything behind can skip.  Other channels are
      left alone. */
  lemma AlignmentOutcome(u: User, joined: set<int>, lo: int, hi: int, num: Numbering)
    requires Comparable(u, num) && OneSession(u, Aligning(u, |u.chs|)) && |Aligning(u, |u.chs|)| >= 2
    requires Extremes(u, lo, hi, num)
    ensures |Aligned(u, joined).chs| == |u.chs|
    ensures lo == hi ==> Aligned(u, joined) == u
    ensures lo < hi && CanSkip(u, joined, hi, num) ==> TogetherOnLatest(u, Aligned(u, joined), hi, num)
    ensures lo < hi && !CanSkip(u, joined, hi, num) ==> TogetherOnEarliest(u, Aligned(u, joined), lo, num)
    ensures forall i :: 0 <= i < |u.chs| && !Tagged(u, i) ==> Aligned(u, joined).chs[i] == u.chs[i]
  {
    hide Tagged, Comparable, Ahead, Lowest, Highest, Aligning, SkipsForward, CanSkip, TogetherOnLatest, TogetherOnEarliest;
    var a, b := ScanResults(u, lo, hi, num);
    Distances(u, a, b, num);
    SkipCondition(u, joined, b, num);
    if lo < hi {
      if CanSkip(u, joined, hi, num) {
        Followers(u, joined, hi, num);
        MovedForward(u, b, num);
      } else {
        MovedBack(u, a, num);
      }
    }
  }

  lemma Followers(u: User, joined: set<int>, hi: int, num: Numbering)
    requires CanSkip(u, joined, hi, num)
    ensures forall i :: 0 <= i < |u.chs| && Tagged(u, i) && Plays(u, i, num) != hi ==>
              exists d :: d in u.chs[i].Queue() && num(d.guid) == hi
  {
  }
}
