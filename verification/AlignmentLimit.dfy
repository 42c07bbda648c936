/** Why the alignment needs its numbers within half the range. */
module AlignmentLimit {
  import opened Bytes
  import Division
  import opened IntervalTag
  import opened Options
  import opened Channels
  import opened Alignment

  function TagFor(high: Byte): Guid {
    [0, 0, 0, 0, 0, 0, 0, 0, high, 0, 0, 0, 'N' as int, 'Z' as int, 1, 0]
  }

  function PlayingTag(high: Byte): Channel {
    IDLE.(ds := Some(Decode(TagFor(high), 1.0, 0.0)))
  }

  lemma Tags()
    ensures IntervalOf(TagFor(0)) == Some(0) && IntervalOf(TagFor(128)) == Some(TWO_31)
    ensures SameSession(TagFor(0), TagFor(128)) && SameSession(TagFor(0), TagFor(0))
    ensures Ahead(TWO_31, 0) == -TWO_31 && Ahead(0, TWO_31) == -TWO_31
  {
  }

  lemma BothTagged(u: User)
    requires u == User([PlayingTag(0), PlayingTag(128)], {0, 1}, {0, 1})
    ensures Tagged(u, 0) && Number(u, 0) == 0 && Tagged(u, 1) && Number(u, 1) == TWO_31
    ensures OneSession(u, [0, 1])
  {
    hide IntervalOf, TagFor, SameSession;
    Tags();
  }

  lemma Setting(u: User)
    requires u == User([PlayingTag(0), PlayingTag(128)], {0, 1}, {0, 1})
    ensures Tagged(u, 0) && Number(u, 0) == 0 && Tagged(u, 1) && Number(u, 1) == TWO_31
    ensures Aligning(u, 2) == [0, 1] && OneSession(u, [0, 1])
    ensures Numbers(u, [0, 1]) == [0, TWO_31]
    ensures !SkipsForward(u, [0, 1], {}, 0)
  {
    BothTagged(u);
    hide IntervalOf, TagFor, SameSession, Tagged, OneSession, Number;
    BothListed(u);
    assert Number(u, [0, 1][1]) != 0 && !QueuedBehind(u.chs[1], 0);
  }

  lemma BothListed(u: User)
    requires |u.chs| == 2 && Tagged(u, 0) && Tagged(u, 1)
    ensures Aligning(u, 2) == [0, 1]
  {
    hide Tagged;
    assert Aligning(u, 0) == [];
    assert Aligning(u, 1) == [0];
  }

  lemma Scan()
    ensures Lowest([0, TWO_31]) == TWO_31 && Highest([0, TWO_31]) == 0
  {
    hide Ahead;
    Tags();
    assert [0, TWO_31][..1] == [0];
    assert Lowest([0]) == 0 && Highest([0]) == 0;
  }

  /** Two channels exactly 2^31 intervals apart, nothing queued: each looks behind the other,
      and one loses the interval it plays. */
  lemma HalfRangeApartDropsAudio(u: User)
    requires u == User([PlayingTag(0), PlayingTag(128)], {0, 1}, {0, 1})
    ensures Aligned(u, {}).chs[0].ds.None? && u.chs[0].ds.Some?
  {
    hide IntervalOf, TagFor, SameSession, Ahead, Lowest, Highest, Aligning, SkipsForward, OneSession, Tagged, Numbers;
    Tags();
    Setting(u);
    Scan();
    assert Aligned(u, {}).chs[0] == DropOlder(u.chs[0], TWO_31);
    assert DropOlder(u.chs[0], TWO_31) == DropOlder(u.chs[0].Advanced(), TWO_31);
  }

  // ----- which distances fail -----

  /** Channel k is aligned, with nothing queued behind what it plays. */
  ghost predicate Alone(u: User, k: int, num: Numbering) {
    && 0 <= k < |u.chs| && Tagged(u, k) && Number(u, k) == Plays(u, k, num) % TWO_32
    && u.chs[k].next0.None? && u.chs[k].next1.None?
  }

  /** Channels i and j, of one session, are the aligned ones. */
  ghost predicate TwoAlone(u: User, i: int, j: int, num: Numbering) {
    Alone(u, i, num) && Alone(u, j, num) && Aligning(u, |u.chs|) == [i, j] && OneSession(u, [i, j])
  }

  lemma TwoScan(x: int, y: int)
    ensures Lowest([x, y]) == if Ahead(y, x) < 0 then y else x
    ensures Highest([x, y]) == if Ahead(y, x) > 0 then y else x
  {
    hide Ahead;
    assert [x, y][..1] == [x];
    assert Lowest([x]) == x && Highest([x]) == x;
  }

  /** The signed difference of two numbers, both ways, by their true distance. */
  lemma AheadBothWays(m: int, n: int)
    requires m < n
    ensures var r := (n - m) % TWO_32;
            && (r == 0 <==> m % TWO_32 == n % TWO_32)
            && Ahead(n % TWO_32, m % TWO_32) == (if r < TWO_31 then r else r - TWO_32)
            && Ahead(m % TWO_32, n % TWO_32) == if r == 0 then 0 else if r <= TWO_31 then -r else TWO_32 - r
  {
    var x, y, r := m % TWO_32, n % TWO_32, (n - m) % TWO_32;
    ResidueOfDifference(n, m);
    assert y - x == r || y - x == r - TWO_32;
    hide ToInt32;
    Signed(y - x, r);
    Signed(x - y, if r == 0 then 0 else TWO_32 - r);
  }

  /** The difference of the residues is that of the numbers, or one range off. */
  lemma ResidueOfDifference(n: int, m: int)
    ensures n % TWO_32 - m % TWO_32 == (n - m) % TWO_32 || n % TWO_32 - m % TWO_32 == (n - m) % TWO_32 - TWO_32
  {
    var d := n / TWO_32 - m / TWO_32;
    var z := n % TWO_32 - m % TWO_32;
    assert n - m == d * TWO_32 + z;
    Division.Unique(n - m, TWO_32, if z >= 0 then d else d - 1, if z >= 0 then z else z + TWO_32);
  }

  lemma Signed(d: int, r: int)
    requires 0 <= r < TWO_32 && (d == r || d == r - TWO_32)
    ensures ToInt32(d) == if r < TWO_31 then r else r - TWO_32
  {
    Division.Unique(d, TWO_32, if d == r then 0 else -1, r);
  }

  lemma TwoDoNotSkip(u: User, joined: set<int>, i: int, j: int, num: Numbering)
    requires TwoAlone(u, i, j, num) && Number(u, i) != Number(u, j)
    ensures !SkipsForward(u, [i, j], joined, Number(u, i)) && !SkipsForward(u, [i, j], joined, Number(u, j))
  {
    hide Aligning, OneSession, Tagged, IntervalOf;
    var l := [i, j];
    assert l[0] == i && l[1] == j;
    assert !QueuedBehind(u.chs[i], Number(u, j)) && !QueuedBehind(u.chs[j], Number(u, i));
  }

  /** What the scan takes for the earlier number. */
  function Earlier(x: int, y: int): int {
    if Ahead(y, x) < 0 then y else x
  }

  lemma TwoMoved(u: User, joined: set<int>, i: int, j: int, num: Numbering)
    requires TwoAlone(u, i, j, num)
    ensures var x, y := Number(u, i), Number(u, j);
            Aligned(u, joined) == if x == y then u else MovedTo(u, Earlier(x, y), |u.chs|)
  {
    hide Ahead, Lowest, Highest, Aligning, OneSession, Tagged, IntervalOf, MovedTo, SkipsForward;
    var x, y := Number(u, i), Number(u, j);
    TwoScan(x, y);
    TwoDiffer(x, y);
    assert Numbers(u, [i, j]) == [x, y];
    if x != y {
      TwoDoNotSkip(u, joined, i, j, num);
    }
  }

  lemma TwoDiffer(x: int, y: int)
    ensures Ahead(x, x) == 0
    ensures 0 <= x < TWO_32 && 0 <= y < TWO_32 && x != y ==> Ahead(x, y) != 0 && Ahead(y, x) != 0
  {
  }

  lemma TaggedIsOneOf(u: User, i: int, j: int, num: Numbering, k: int)
    requires TwoAlone(u, i, j, num) && 0 <= k < |u.chs| && Tagged(u, k)
    ensures k == i || k == j
  {
    hide Tagged, OneSession, Alone;
    assert k in Aligning(u, |u.chs|);
  }

  /** One of the two, moved to the number the scan found, with a signed difference of d to it. */
  lemma OneMoved(u: User, k: int, num: Numbering, target: int, onIt: bool)
    requires Alone(u, k, num)
    ensures var d := Ahead(Number(u, k), target);
            && (WaitsForEarliest(u.chs[k], MovedTo(u, target, |u.chs|).chs[k], onIt) <==> if onIt then d == 0 else d > 0)
            && (WaitsForEarliest(u.chs[k], u.chs[k], onIt) <==> onIt)
  {
    hide Ahead, IntervalOf;
    var c := u.chs[k];
    if Ahead(Number(u, k), target) < 0 {
      assert DropOlder(c, target) == DropOlder(c.Advanced(), target);
      assert DropOlder(c, target).ds.None?;
    }
  }

  /** The one behind is found to be on the target, and the other ahead of it. */
  predicate Recognized(x: int, y: int, xBehind: bool) {
    var lo := Earlier(x, y);
    x != y && (if xBehind then Ahead(x, lo) == 0 && Ahead(y, lo) > 0 else Ahead(y, lo) == 0 && Ahead(x, lo) > 0)
  }

  lemma RecognizedIff(m: int, n: int)
    requires m != n
    ensures Recognized(m % TWO_32, n % TWO_32, m < n) <==> 0 < (if m < n then n - m else m - n) % TWO_32 < TWO_31
  {
    AheadBothWays(if m < n then m else n, if m < n then n else m);
    TwoDiffer(m % TWO_32, n % TWO_32);
    TwoDiffer(n % TWO_32, m % TWO_32);
    hide Ahead;
  }

  /** Two channels, nothing queued, whoever just joined: the alignment makes the one ahead wait
      for the one behind exactly when their true distance modulo 2^32 is above 0 and below
      2^31. */
  lemma TwoAlignIffHalfRange(u: User, joined: set<int>, i: int, j: int, num: Numbering)
    requires TwoAlone(u, i, j, num) && Plays(u, i, num) != Plays(u, j, num)
    ensures var m, n := Plays(u, i, num), Plays(u, j, num);
            |Aligned(u, joined).chs| == |u.chs| &&
            (TogetherOnEarliest(u, Aligned(u, joined), if m < n then m else n, num) <==>
             0 < (if m < n then n - m else m - n) % TWO_32 < TWO_31)
  {
    hide Ahead, Aligned, Aligning, OneSession, IntervalOf, MovedTo, Tagged, TogetherOnEarliest, WaitsForEarliest, Plays, Earlier, Recognized, Number;
    var m, n, x, y := Plays(u, i, num), Plays(u, j, num), Number(u, i), Number(u, j);
    TwoMoved(u, joined, i, j, num);
    OneMoved(u, i, num, Earlier(x, y), m < n);
    OneMoved(u, j, num, Earlier(x, y), n < m);
    TwoSettled(u, Aligned(u, joined), i, j, if m < n then m else n, num);
    AloneNumber(u, i, num);
    AloneNumber(u, j, num);
    RecognizedIff(m, n);
    WhenRecognized(x, y, m < n);
  }

  lemma AloneNumber(u: User, k: int, num: Numbering)
    requires Alone(u, k, num)
    ensures Number(u, k) == Plays(u, k, num) % TWO_32
  {
  }

  lemma WhenRecognized(x: int, y: int, xBehind: bool)
    ensures Recognized(x, y, xBehind) <==>
            x != y && (if xBehind then Ahead(x, Earlier(x, y)) == 0 && Ahead(y, Earlier(x, y)) > 0
                       else Ahead(y, Earlier(x, y)) == 0 && Ahead(x, Earlier(x, y)) > 0)
  {
  }

  lemma TwoSettled(u: User, v: User, i: int, j: int, lo: int, num: Numbering)
    requires TwoAlone(u, i, j, num) && |v.chs| == |u.chs|
    ensures TogetherOnEarliest(u, v, lo, num) <==>
            WaitsForEarliest(u.chs[i], v.chs[i], Plays(u, i, num) == lo) && WaitsForEarliest(u.chs[j], v.chs[j], Plays(u, j, num) == lo)
  {
    hide WaitsForEarliest, Plays, Tagged, Aligning, OneSession;
    forall k | 0 <= k < |u.chs| && Tagged(u, k)
      ensures k == i || k == j
    {
      TaggedIsOneOf(u, i, j, num, k);
    }
  }
}
