/** What a position in a user's audio queues means for the video that waits on it: how many
    swaps later its audio plays. */
module VideoQueues {
  import opened IntervalTag
  import opened Options
  import opened Channels
  import opened VideoStreams

  /** The channels after one swap at which every channel may play and none starts late. */
  function NextSwap(chs: seq<Channel>): (r: seq<Channel>)
    ensures |r| == |chs| && forall i :: 0 <= i < |r| ==> r[i] == Swapped(chs[i], true, false)
  {
    seq(|chs|, i requires 0 <= i < |chs| => Swapped(chs[i], true, false))
  }

  /** That is what on_new_interval does before any alignment. */
  lemma NextSwapIsSwap(u: User)
    requires forall i :: 0 <= i < |u.chs| ==> u.Playable(i)
    ensures AllSwapped(u, false) == u.(chs := NextSwap(u.chs))
  {
    assert AllSwapped(u, false).chs == NextSwap(u.chs);
  }

  function AfterSwaps(chs: seq<Channel>, n: nat): seq<Channel>
    decreases n
  {
    if n == 0 then chs else AfterSwaps(NextSwap(chs), n - 1)
  }

  predicate AllQueueing(chs: seq<Channel>) {
    forall i :: 0 <= i < |chs| ==> chs[i].IntervalMode()
  }

  lemma NextOfRest(chs: seq<Channel>)
    requires chs != []
    ensures NextSwap(chs)[1..] == NextSwap(chs[1..])
  {
  }

  /** Each swap brings queued audio one position nearer. */
  lemma {:induction false} PositionCountsDown(chs: seq<Channel>, g: Guid)
    requires AllQueueing(chs) && QueuePosition(chs, g) > 0
    ensures QueuePosition(NextSwap(chs), g) == QueuePosition(chs, g) - 1
  {
    NextOfRest(chs);
    var c := chs[0];
    if c.videoOnly || !(Holds(c.ds, g) || Holds(c.next0, g) || Holds(c.next1, g)) {
      PositionCountsDown(chs[1..], g);
    }
  }

  lemma {:induction false} IntervalCountsDown(chs: seq<Channel>, session: Guid, interval: int)
    requires AllQueueing(chs) && IntervalPosition(chs, session, interval) > 0
    ensures IntervalPosition(NextSwap(chs), session, interval) == IntervalPosition(chs, session, interval) - 1
  {
    hide IsInterval;
    NextOfRest(chs);
    var c := chs[0];
    if c.videoOnly || !(IsInterval(c.ds, session, interval) || IsInterval(c.next0, session, interval) || IsInterval(c.next1, session, interval)) {
      NotNoneInterval(session, interval);
      IntervalCountsDown(chs[1..], session, interval);
    }
  }

  lemma NotNoneInterval(session: Guid, interval: int)
    ensures !IsInterval(None, session, interval)
  {
  }

  /** Position 0 is what plays now, with no hold. */
  lemma {:induction false} PositionZeroPlays(chs: seq<Channel>, g: Guid)
    requires QueuePosition(chs, g) == 0
    ensures PlaysNow(chs, g)
  {
    var c := chs[0];
    if c.videoOnly || !Holds(c.ds, g) {
      PositionZeroPlays(chs[1..], g);
      var i :| 0 <= i < |chs[1..]| && Audible(chs[1..][i]) && chs[1..][i].ds.value.guid == g;
      assert chs[i + 1] == chs[1..][i];
    } else {
      assert Audible(chs[0]);
    }
  }

  /** Audio found in a queue plays after as many swaps as its position says, and until then
      the position is above 0. */
  lemma {:induction false} PlaysAfterItsPosition(chs: seq<Channel>, g: Guid, k: nat)
    requires AllQueueing(chs) && k <= QueuePosition(chs, g)
    ensures QueuePosition(AfterSwaps(chs, k), g) == QueuePosition(chs, g) - k
    ensures k == QueuePosition(chs, g) ==> PlaysNow(AfterSwaps(chs, k), g)
    decreases k
  {
    if k == 0 {
      if QueuePosition(chs, g) == 0 {
        PositionZeroPlays(chs, g);
      }
    } else {
      PositionCountsDown(chs, g);
      StillQueueing(chs);
      PlaysAfterItsPosition(NextSwap(chs), g, k - 1);
    }
  }

  lemma StillQueueing(chs: seq<Channel>)
    requires AllQueueing(chs)
    ensures AllQueueing(NextSwap(chs))
  {
  }
}
