/** That a video interval which waits for its audio does start: it waits until its audio plays,
    whatever else happens, unless it is pushed out or its audio never plays. */
module VideoWaits {
  import opened Bytes
  import opened IntervalTag
  import opened Options
  import opened Channels
  import opened VideoBuffers
  import opened VideoStreams
  import opened VideoSync

  // ----- what a waiting interval finds in the queues -----

  /** The audio an interval waits for: the one after its marker's, by number and session, or the
      marker's own. */
  predicate Names(b: Buffer, g: Guid) {
    if b.ownInterval >= 0 then IntervalOf(g) == Some(b.ownInterval) && SameSession(g, b.audioGuid) else g == b.audioGuid
  }

  predicate NamedAt(o: Option<Decode>, b: Buffer) {
    o.Some? && Names(b, o.value.guid)
  }

  predicate NamedIn(c: Channel, b: Buffer) {
    !c.videoOnly && (NamedAt(c.ds, b) || NamedAt(c.next0, b) || NamedAt(c.next1, b))
  }

  /** Some channel has it, playing or queued. */
  predicate InQueues(chs: seq<Channel>, b: Buffer) {
    exists i :: 0 <= i < |chs| && NamedIn(chs[i], b)
  }

  /** The first channel that has it plays it. */
  predicate PlaysFirst(chs: seq<Channel>, b: Buffer) {
    exists i :: 0 <= i < |chs| && Audible(chs[i]) && NamedAt(chs[i].ds, b) && NotBefore(chs, i, b)
  }

  predicate NotBefore(chs: seq<Channel>, i: nat, b: Buffer)
    requires i <= |chs|
  {
    forall j :: 0 <= j < i ==> !NamedIn(chs[j], b)
  }

  lemma RestOfQueues(chs: seq<Channel>, b: Buffer)
    requires chs != []
    ensures InQueues(chs, b) <==> NamedIn(chs[0], b) || InQueues(chs[1..], b)
    ensures PlaysFirst(chs, b) <==>
              if NamedIn(chs[0], b) then Audible(chs[0]) && NamedAt(chs[0].ds, b) else PlaysFirst(chs[1..], b)
  {
    hide Names;
    var rest := chs[1..];
    if i :| 0 <= i < |chs| && NamedIn(chs[i], b) && i > 0 {
      assert rest[i - 1] == chs[i];
    }
    if i :| 0 <= i < |rest| && NamedIn(rest[i], b) {
      assert chs[i + 1] == rest[i];
    }
    if NamedIn(chs[0], b) {
      if Audible(chs[0]) && NamedAt(chs[0].ds, b) {
        assert NotBefore(chs, 0, b);
      }
    } else {
      if i :| 0 <= i < |chs| && Audible(chs[i]) && NamedAt(chs[i].ds, b) && NotBefore(chs, i, b) {
        assert rest[i - 1] == chs[i] && NotBefore(rest, i - 1, b);
      }
      if i :| 0 <= i < |rest| && Audible(rest[i]) && NamedAt(rest[i].ds, b) && NotBefore(rest, i, b) {
        assert chs[i + 1] == rest[i];
        forall j | 0 <= j < i + 1
          ensures !NamedIn(chs[j], b)
        {
          assert j > 0 ==> chs[j] == rest[j - 1];
        }
        assert NotBefore(chs, i + 1, b);
      }
    }
  }

  /** The position the sweep computes: none when no queue has the audio, 0 when it plays. */
  lemma {:induction false} PositionMeans(chs: seq<Channel>, b: Buffer)
    ensures AwaitPosition(b, chs) >= 0 <==> InQueues(chs, b)
    ensures AwaitPosition(b, chs) == 0 <==> PlaysFirst(chs, b)
  {
    hide InQueues, PlaysFirst, IntervalOf, SameSession;
    if chs == [] {
      NoneInQueues(b);
    } else {
      PositionMeans(chs[1..], b);
      RestOfQueues(chs, b);
    }
  }

  lemma NoneInQueues(b: Buffer)
    ensures !InQueues([], b) && !PlaysFirst([], b)
  {
  }

  // ----- it keeps waiting -----

  /** Nothing of that session, or an earlier interval of it. */
  predicate Earlier(o: Option<Decode>, b: Buffer) {
    o.Some? && IntervalOf(o.value.guid).Some? && SameSession(o.value.guid, b.audioGuid) ==>
      Ahead(IntervalOf(o.value.guid).value, b.ownInterval) < 0
  }

  /** No queue of the session has the interval's audio yet, or a later one. */
  predicate NotYet(chs: seq<Channel>, b: Buffer) {
    forall i :: 0 <= i < |chs| && !chs[i].videoOnly ==> Earlier(chs[i].ds, b) && Earlier(chs[i].next0, b) && Earlier(chs[i].next1, b)
  }

  /** The interval in `next` goes behind those that wait: its audio is held back, or queued and
      neither playing nor what played before. */
  predicate GoesBehind(s: Stream, chs: seq<Channel>) {
    && s.next.active && s.next.frames >= 1 && s.next.audioGuid != ZERO_GUID
    && ((exists i :: 0 <= i < |chs| && HoldsBack(chs[i], s.next.audioGuid)) ||
        ((exists i :: 0 <= i < |chs| && Audible(chs[i])) && !PlaysNow(chs, s.next.audioGuid) && s.prevDs != s.next.audioGuid &&
         InQueues(chs, EMPTY.(audioGuid := s.next.audioGuid))))
  }

  lemma NothingIsLater(chs: seq<Channel>, b: Buffer)
    requires b.ownInterval >= 0 && NotYet(chs, b)
    ensures !InQueues(chs, b) && !Passed(chs, b.audioGuid, b.ownInterval)
  {
    hide IntervalOf, SameSession;
    assert Ahead(b.ownInterval, b.ownInterval) == 0;
  }

  lemma HeldBackIs(chs: seq<Channel>, marker: Guid)
    ensures FirstHolding(chs, marker) < |chs| <==> exists i :: 0 <= i < |chs| && HoldsBack(chs[i], marker)
    ensures FirstHolding(chs, marker) < |chs| ==> chs[FirstHolding(chs, marker)].ds.Some?
  {
    hide IntervalOf, FollowsMarker, SameSession;
  }

  /** The waiting list after `next` was looked at. */
  ghost predicate PutBehind(s: Stream, behind: bool, awaiting: seq<Buffer>) {
    if behind then exists x :: awaiting == Await(s.awaiting, x) && SameSource(x, s.next) else awaiting == s.awaiting
  }

  lemma HeldGoesBehind(s: Stream, c: Channel)
    requires c.ds.Some?
    ensures PutBehind(s, true, WaitsForAudio(s, c).awaiting)
  {
    hide FollowsMarker, Await;
    var own := FollowsMarker(c.ds.value.guid, s.next.audioGuid);
    var slot := if own then s.next.(audioGuid := c.ds.value.guid, ownAudio := true) else s.next;
    assert WaitsForAudio(s, c).awaiting == Await(s.awaiting, slot) && SameSource(slot, s.next);
  }

  lemma LookedBehind(s: Stream, chs: seq<Channel>)
    ensures var behind := FirstAudible(chs).Some? && MatchOf(s, chs).Mismatch? && QueuePosition(chs, s.next.audioGuid) > 0;
            PutBehind(s, behind, Looked(s, chs).awaiting)
  {
    hide QueuePosition, Await, FirstAudible, MatchOf;
    assert SameSource(s.next, s.next);
  }

  lemma MismatchIs(s: Stream, chs: seq<Channel>)
    requires s.next.active && s.next.frames >= 1
    ensures FirstAudible(chs).Some? && MatchOf(s, chs).Mismatch? && QueuePosition(chs, s.next.audioGuid) > 0 <==>
            s.next.audioGuid != ZERO_GUID && (exists i :: 0 <= i < |chs| && Audible(chs[i])) && !PlaysNow(chs, s.next.audioGuid) &&
            s.prevDs != s.next.audioGuid && InQueues(chs, EMPTY.(audioGuid := s.next.audioGuid))
  {
    hide QueuePosition, InQueues, PlaysFirst, PlaysNow, FirstAudible;
    var b := EMPTY.(audioGuid := s.next.audioGuid);
    FirstAudibleIs(chs);
    PositionMeans(chs, b);
    if PlaysFirst(chs, b) {
      PlayedIs(chs, b);
    }
  }

  /** Whether `next` is put behind the others is as said. */
  lemma BehindIs(s: Stream, chs: seq<Channel>)
    requires Ready(s.next)
    ensures PutBehind(s, GoesBehind(s, chs), Evaluated(s, chs).awaiting)
  {
    hide QueuePosition, InQueues, HeardGuid, PlaysNow, MatchOf, Looked, WaitsForAudio, HoldsBack, FirstAudible, PutBehind;
    var marker := s.next.audioGuid;
    HeldBackIs(chs, marker);
    var w := FirstHolding(chs, marker);
    hide FirstHolding;
    if marker != ZERO_GUID && w < |chs| {
      HeldGoesBehind(s, chs[w]);
    } else {
      LookedBehind(s, chs);
      MismatchIs(s, chs);
    }
  }

  /** The same download. */
  predicate SameSource(a: Buffer, b: Buffer) {
    a.guid == b.guid && a.frames == b.frames && a.data == b.data
  }

  lemma PlayedIs(chs: seq<Channel>, b: Buffer)
    requires PlaysFirst(chs, b) && b.ownInterval < 0
    ensures PlaysNow(chs, b.audioGuid)
  {
  }

  /** While no queue of the session has its audio or a later one, the oldest interval waiting by
      number stays the oldest, at every swap, unless both places are taken and a third is put behind. */
  lemma WaitsUntilItsAudio(s: Stream, chs: seq<Channel>)
    requires s.awaiting != [] && s.awaiting[0].ownInterval >= 0 && NotYet(chs, s.awaiting[0])
    ensures var r := SwappedStream(s, chs).awaiting;
            if !GoesBehind(s, chs) then r == s.awaiting
            else |r| > 0 && r[|r| - 1].guid == s.next.guid && r[..|r| - 1] == if |s.awaiting| < 2 then s.awaiting else s.awaiting[1..]
  {
    hide AwaitPosition, Passed, NotYet;
    NothingIsLater(chs, s.awaiting[0]);
    PositionMeans(chs, s.awaiting[0]);
    KeepsWaiting(s, chs);
  }

  lemma KeepsWaiting(s: Stream, chs: seq<Channel>)
    requires s.awaiting != [] && StillWaits(s.awaiting[0], chs)
    ensures var r := SwappedStream(s, chs).awaiting;
            if !GoesBehind(s, chs) then r == s.awaiting
            else |r| > 0 && r[|r| - 1].guid == s.next.guid && r[..|r| - 1] == if |s.awaiting| < 2 then s.awaiting else s.awaiting[1..]
  {
    hide StillWaits, Evaluated, GoesBehind;
    var u := Unrouted(Promoted(s));
    assert Swept(u, chs) == u && u.awaiting == s.awaiting && u.next == s.next && u.prevDs == s.prevDs;
    BehindAlike(s, u, chs);
    if Ready(u.next) {
      BehindIs(u, chs);
    } else {
      NotBehind(s, chs);
    }
  }

  lemma BehindAlike(s: Stream, u: Stream, chs: seq<Channel>)
    requires u.next == s.next && u.prevDs == s.prevDs
    ensures GoesBehind(s, chs) == GoesBehind(u, chs)
  {
    hide HoldsBack, PlaysNow, InQueues;
  }

  lemma NotBehind(s: Stream, chs: seq<Channel>)
    requires !Ready(s.next)
    ensures !GoesBehind(s, chs)
  {
    hide HoldsBack, PlaysNow, InQueues;
  }

  // ----- until its audio plays -----

  predicate GuidAt(o: Option<Decode>, g: Guid) {
    o.Some? && o.value.guid == g
  }

  /** Some channel plays this audio or has it queued. */
  predicate HasGuid(chs: seq<Channel>, g: Guid) {
    exists i :: 0 <= i < |chs| && !chs[i].videoOnly && (GuidAt(chs[i].ds, g) || GuidAt(chs[i].next0, g) || GuidAt(chs[i].next1, g))
  }

  /** Audio of the session of the interval's sender. */
  predicate HasOfSession(chs: seq<Channel>, g: Guid, b: Buffer) {
    HasGuid(chs, g) && IntervalOf(g).Some? && SameSession(g, b.audioGuid)
  }

  /** The number of the swap at which an interval should start. */
  ghost function Due(b: Buffer, num: Numbering): int {
    num(b.audioGuid) + if b.ownInterval >= 0 then 1 else 0
  }

  /** Its audio is in some queue; or it waits by number, and no later audio of the session is,
      where numbers are less than half the tag range apart. */
  ghost predicate Expected(chs: seq<Channel>, b: Buffer, num: Numbering) {
    if b.ownInterval < 0 then HasGuid(chs, b.audioGuid)
    else
      && (forall g: Guid :: HasOfSession(chs, g, b) ==> -TWO_31 < num(g) - Due(b, num) < TWO_31)
      && ((exists g: Guid :: HasOfSession(chs, g, b) && num(g) == Due(b, num)) ||
          (forall g: Guid :: HasOfSession(chs, g, b) ==> num(g) < Due(b, num)))
  }

  lemma OwnTag(b: Buffer, num: Numbering, zero: seq<Byte> -> int, g: Guid)
    requires Waiting(b) && b.ownInterval >= 0 && TagsAreNumbers(num, zero) && IntervalOf(g).Some? && SameSession(g, b.audioGuid)
    ensures num(g) == Due(b, num) ==> Names(b, g)
    ensures -TWO_31 < num(g) - Due(b, num) < TWO_31 ==> Ahead(IntervalOf(g).value, b.ownInterval) == num(g) - Due(b, num)
  {
    hide IntervalOf, SessionOf, Ahead;
    var z := zero(SessionOf(g));
    var m := num(b.audioGuid) - z;
    assert IntervalOf(b.audioGuid).value == m % TWO_32 && IntervalOf(g).value == (num(g) - z) % TWO_32;
    OneMore(m);
    AheadIsDistance(num(g) - z, m + 1);
  }

  lemma OneMore(m: int)
    ensures (m % TWO_32 + 1) % TWO_32 == (m + 1) % TWO_32
  {
    assert m == m / TWO_32 * TWO_32 + m % TWO_32;
  }

  lemma ExpectedWaits(chs: seq<Channel>, b: Buffer, n: int, num: Numbering, zero: seq<Byte> -> int)
    requires Waiting(b) && Steady(chs, n, num) && TagsAreNumbers(num, zero) && -TWO_31 <= n - num(b.audioGuid) <= TWO_31
    requires Expected(chs, b, num) && n < Due(b, num)
    ensures StillWaits(b, chs)
  {
    hide AwaitPosition, Steady, TagsAreNumbers, IntervalOf, Passed, PlaysFirst, Waiting, SameSession, OwnMatch;
    PositionMeans(chs, b);
    NotAtItsAudio(chs, b, n, num, zero);
    if b.ownInterval < 0 {
      HasNamed(chs, b.audioGuid, b);
    } else if g: Guid :| HasOfSession(chs, g, b) && num(g) == Due(b, num) {
      OwnTag(b, num, zero, g);
      HasNamed(chs, g, b);
    } else {
      OnlyEarlier(chs, b, num, zero);
      NothingIsLater(chs, b);
    }
  }

  lemma NotAtItsAudio(chs: seq<Channel>, b: Buffer, n: int, num: Numbering, zero: seq<Byte> -> int)
    requires Waiting(b) && Steady(chs, n, num) && TagsAreNumbers(num, zero) && -TWO_31 <= n - num(b.audioGuid) <= TWO_31
    requires n < Due(b, num)
    ensures AwaitPosition(b, chs) != 0
  {
    hide AwaitPosition, Steady, TagsAreNumbers;
    if AwaitPosition(b, chs) == 0 {
      AtItsAudio(b, chs, n, num, zero);
    }
  }

  lemma HasNamed(chs: seq<Channel>, g: Guid, b: Buffer)
    requires HasGuid(chs, g) && Names(b, g)
    ensures InQueues(chs, b)
  {
    hide Names;
    var i :| 0 <= i < |chs| && !chs[i].videoOnly && (GuidAt(chs[i].ds, g) || GuidAt(chs[i].next0, g) || GuidAt(chs[i].next1, g));
    assert NamedIn(chs[i], b);
  }

  lemma OnlyEarlier(chs: seq<Channel>, b: Buffer, num: Numbering, zero: seq<Byte> -> int)
    requires Waiting(b) && b.ownInterval >= 0 && TagsAreNumbers(num, zero)
    requires forall g: Guid :: HasOfSession(chs, g, b) ==> -TWO_31 < num(g) - Due(b, num) < 0
    ensures NotYet(chs, b)
  {
    hide TagsAreNumbers, IntervalOf, Waiting, SameSession, Ahead;
    forall i, o: Option<Decode> | 0 <= i < |chs| && !chs[i].videoOnly && (o == chs[i].ds || o == chs[i].next0 || o == chs[i].next1)
      ensures Earlier(o, b)
    {
      if o.Some? && IntervalOf(o.value.guid).Some? && SameSession(o.value.guid, b.audioGuid) {
        assert HasOfSession(chs, o.value.guid, b);
        OwnTag(b, num, zero, o.value.guid);
      }
    }
  }

  // ----- over a run -----

  /** The same interval, of which more may have arrived. */
  predicate SameInterval(a: Buffer, b: Buffer) {
    a.guid == b.guid && a.audioGuid == b.audioGuid && a.ownAudio == b.ownAudio && a.ownInterval == b.ownInterval
  }

  predicate OldestIs(s: Stream, b: Buffer) {
    s.awaiting != [] && SameInterval(s.awaiting[0], b)
  }

  /** Both places are taken and a third interval comes to wait. */
  predicate PushedOut(s: Stream, e: Event) {
    |s.awaiting| >= 2 &&
    match e {
      case Begin(_, _) => s.next.active && s.next.frames >= 1 && s.next.audioGuid != ZERO_GUID
      case Swap(chs) => GoesBehind(s, chs)
      case _ => false
    }
  }

  lemma BeginKeepsOldest(s: Stream, guid: Guid, seqNo: int, b: Buffer)
    requires OldestIs(s, b) && !PushedOut(s, Begin(guid, seqNo))
    ensures OldestIs(Begun(s, guid, seqNo), b)
  {
    hide OwnInterval, SameInterval;
  }

  lemma PutKeepsOldest(s: Stream, slot: Slot, x: Buffer, b: Buffer)
    requires OldestIs(s, b) && (slot.Awaiting? ==> slot.i < |s.awaiting| && SameInterval(x, At(s, slot)))
    ensures OldestIs(PutAt(s, slot, x), b)
  {
  }

  lemma WriteKeepsOldest(s: Stream, guid: Guid, w: seq<Byte>, live: bool, b: Buffer)
    requires OldestIs(s, b)
    ensures OldestIs(Written(s, guid, w, live), b)
  {
    hide Appended, Completes, WriteSlot, FrameStart, PutAt, Resized, SameInterval;
    var slot := WriteSlot(s, guid);
    if !slot.Nowhere? {
      var t := Redirected(s, guid, slot);
      var x := Appended(At(t, slot), w);
      WriteSameInterval(At(t, slot), w);
      PutKeepsOldest(t, slot, x, b);
      if Completes(At(t, slot), w) {
        if live {
          PutKeepsOldest(t, slot, LiveRemoved(x), b);
        } else if slot.Accumulating? {
          PutKeepsOldest(t, slot, if x.frames == 1 then MarkerRead(x) else x, b);
        }
      }
    }
  }

  lemma WriteSameInterval(b: Buffer, w: seq<Byte>)
    ensures SameInterval(Appended(b, w), b)
    ensures Completes(b, w) ==> Appended(b, w).frames == b.frames + 1 && SameInterval(LiveRemoved(Appended(b, w)), b)
  {
    hide BodyLength, Resized;
  }

  lemma EndKeepsOldest(s: Stream, guid: Guid, b: Buffer)
    requires OldestIs(s, b)
    ensures OldestIs(Finished(s, guid), b)
  {
    hide LastCount, IsAwaiting;
  }

  /** Nothing removes the interval: its user stays, no third one pushes it out, and its audio is
      in a queue or may still come. */
  ghost predicate Undisturbed(s: Stream, e: Event, b: Buffer, num: Numbering) {
    !e.Leave? && !e.Foreground? && !PushedOut(s, e) && (e.Swap? ==> Expected(e.chs, b, num))
  }

  lemma StepKeepsOldest(s: Stream, e: Event, b: Buffer, n: int, num: Numbering, zero: seq<Byte> -> int)
    requires OldestIs(s, b) && Waiting(s.awaiting[0]) && TagsAreNumbers(num, zero) && Undisturbed(s, e, b, num)
    requires e.Swap? ==> Steady(e.chs, n, num) && Recent(s, n, num) && n < Due(b, num)
    ensures OldestIs(Step(s, e), b)
  {
    hide Begun, Written, Finished, SwappedStream, Steady, TagsAreNumbers, Waiting, PushedOut, Expected, GoesBehind;
    match e
    case Begin(guid, seqNo) => BeginKeepsOldest(s, guid, seqNo, b);
    case Data(guid, w, live) => WriteKeepsOldest(s, guid, w, live, b);
    case End(guid) => EndKeepsOldest(s, guid, b);
    case Swap(chs) =>
      var f := s.awaiting[0];
      ExpectedAlike(chs, b, f, num);
      ExpectedWaits(chs, f, n, num, zero);
      KeepsWaiting(s, chs);
      NotPushed(s, chs);
      hide StillWaits;
  }

  lemma ExpectedAlike(chs: seq<Channel>, b: Buffer, f: Buffer, num: Numbering)
    requires SameInterval(f, b) && Expected(chs, b, num)
    ensures Expected(chs, f, num) && Due(f, num) == Due(b, num)
  {
    hide HasGuid, IntervalOf, SameSession;
    assert forall g: Guid :: HasOfSession(chs, g, f) == HasOfSession(chs, g, b);
  }

  lemma NotPushed(s: Stream, chs: seq<Channel>)
    requires !PushedOut(s, Swap(chs))
    ensures GoesBehind(s, chs) ==> |s.awaiting| < 2
  {
    hide GoesBehind;
  }

  lemma {:induction false} SwapsGrow(es: seq<Event>, i: nat, k: nat)
    requires i < k <= |es| && es[i].Swap?
    ensures Swaps(es[..i]) < Swaps(es[..k])
    decreases k
  {
    assert es[..k][..k - 1] == es[..k - 1];
    if i < k - 1 {
      SwapsGrow(es, i, k - 1);
    }
  }

  lemma OneMoreStep(s: Stream, es: seq<Event>, i: nat)
    requires i < |es|
    ensures Ran(s, es[..i + 1]) == Step(Ran(s, es[..i]), es[i])
    ensures Swaps(es[..i + 1]) == Swaps(es[..i]) + if es[i].Swap? then 1 else 0
  {
    hide Step;
    assert es[..i + 1][..i] == es[..i];
  }

  /** The run so far, and the oldest waiting interval in it. */
  lemma {:induction false} StaysOldest(s: Stream, es: seq<Event>, j: nat, k: nat, first: int,
                                       num: Numbering, zero: seq<Byte> -> int, b: Buffer)
    requires Clean(s) && SteadyRun(s, es, first, num) && TagsAreNumbers(num, zero) && j <= k <= |es|
    requires OldestIs(Ran(s, es[..j]), b)
    requires forall i :: j <= i < k ==> Undisturbed(Ran(s, es[..i]), es[i], b, num)
    requires forall i :: j <= i < k && es[i].Swap? ==> first + Swaps(es[..i]) < Due(b, num)
    ensures OldestIs(Ran(s, es[..k]), b) && Waiting(Ran(s, es[..k]).awaiting[0])
    decreases k
  {
    hide Undisturbed, Steady, Recent, TagsAreNumbers, Step, Waiting, SameInterval, Due, Ran, Swaps;
    PrefixSteady(s, es, k, first, num);
    RunInStep(s, es[..k], first, num, zero);
    if j < k {
      StaysOldest(s, es, j, k - 1, first, num, zero, b);
      OneMoreStep(s, es, k - 1);
      StepKeepsOldest(Ran(s, es[..k - 1]), es[k - 1], b, first + Swaps(es[..k - 1]), num, zero);
    }
  }

  // ----- it starts -----

  /** The first channel that has the session's audio with the number due plays it. */
  ghost predicate DuePlays(chs: seq<Channel>, b: Buffer, num: Numbering) {
    exists i :: 0 <= i < |chs| && DuePlaysAt(chs, i, b, num)
  }

  ghost predicate DuePlaysAt(chs: seq<Channel>, i: nat, b: Buffer, num: Numbering)
    requires i < |chs|
  {
    && Audible(chs[i])
    && if b.ownInterval < 0 then chs[i].ds.value.guid == b.audioGuid && !HasGuid(chs[..i], b.audioGuid)
       else
         && IntervalOf(chs[i].ds.value.guid).Some? && SameSession(chs[i].ds.value.guid, b.audioGuid)
         && num(chs[i].ds.value.guid) == Due(b, num)
         && forall g: Guid :: HasOfSession(chs[..i], g, b) ==> num(g) != Due(b, num) && -TWO_31 < num(g) - Due(b, num) < TWO_31
  }

  lemma DueIsFirst(chs: seq<Channel>, b: Buffer, num: Numbering, zero: seq<Byte> -> int)
    requires Waiting(b) && TagsAreNumbers(num, zero) && DuePlays(chs, b, num)
    ensures AwaitPosition(b, chs) == 0
  {
    hide AwaitPosition, TagsAreNumbers, IntervalOf, SameSession, Waiting, NamedIn, Due, Names;
    var i :| 0 <= i < |chs| && DuePlaysAt(chs, i, b, num);
    var g := chs[i].ds.value.guid;
    if b.ownInterval >= 0 {
      OwnTag(b, num, zero, g);
    } else {
      SameGuidNamed(b, g);
    }
    forall j | 0 <= j < i
      ensures !NamedIn(chs[j], b)
    {
      NotNamedBefore(chs, i, j, b, num, zero);
    }
    assert NotBefore(chs, i, b);
    PositionMeans(chs, b);
  }

  lemma SameGuidNamed(b: Buffer, g: Guid)
    requires b.ownInterval < 0
    ensures Names(b, g) <==> g == b.audioGuid
  {
  }

  lemma NotNamedBefore(chs: seq<Channel>, i: nat, j: nat, b: Buffer, num: Numbering, zero: seq<Byte> -> int)
    requires Waiting(b) && TagsAreNumbers(num, zero) && j < i < |chs| && DuePlaysAt(chs, i, b, num)
    ensures !NamedIn(chs[j], b)
  {
    hide TagsAreNumbers, IntervalOf, SessionOf, Waiting, Due, Ahead;
    var c := chs[j];
    assert chs[..i][j] == c;
    forall o: Option<Decode> | !c.videoOnly && (o == c.ds || o == c.next0 || o == c.next1)
      ensures !NamedAt(o, b)
    {
      if NamedAt(o, b) {
        var g := o.value.guid;
        assert HasGuid(chs[..i], g);
        if b.ownInterval >= 0 {
          assert HasOfSession(chs[..i], g, b);
          OwnTag(b, num, zero, g);
          NotAheadOfItself(b.ownInterval);
        }
      }
    }
  }

  lemma NotAheadOfItself(t: int)
    ensures Ahead(t, t) == 0
  {
  }

  lemma SweptFirst(s: Stream, chs: seq<Channel>)
    requires s.awaiting != [] && AwaitPosition(s.awaiting[0], chs) == 0
    ensures OwnMatch(s.awaiting[0]) ==> Start(OwnAudio, s.awaiting[0]) in SweepStarts(s, chs)
    ensures !OwnMatch(s.awaiting[0]) ==> Swept(s, chs).pending == s.awaiting[0]
    ensures Swept(s, chs).next == s.next || OwnMatch(s.awaiting[0])
  {
    hide AwaitPosition;
  }

  /** An interval that waits by number, once it is the oldest, starts at exactly the swap at which the
      audio after its marker's starts to play, if nothing disturbs it before. */
  lemma AwaitedStarts(s: Stream, es: seq<Event>, j: nat, k: nat, first: int, num: Numbering, zero: seq<Byte> -> int, b: Buffer)
    returns (p: Buffer)
    requires Clean(s) && SteadyRun(s, es, first, num) && TagsAreNumbers(num, zero) && j <= k < |es| && es[k].Swap?
    requires OldestIs(Ran(s, es[..j]), b) && b.ownInterval >= 0
    requires forall i :: j <= i < k ==> Undisturbed(Ran(s, es[..i]), es[i], b, num)
    requires first + Swaps(es[..k]) == num(b.audioGuid) + 1 && DuePlays(es[k].chs, b, num)
    ensures SameInterval(p, b) && Start(OwnAudio, p) in VideoSync.Starts(Ran(s, es[..k]), es[k].chs)
  {
    hide Undisturbed, Steady, Recent, TagsAreNumbers, DuePlays, Waiting, Swept, LastStarts, SweepStarts, Ran, Swaps;
    BeforeDue(es, j, k, first, Due(b, num));
    StaysOldest(s, es, j, k, first, num, zero, b);
    var t, chs := Ran(s, es[..k]), es[k].chs;
    p := t.awaiting[0];
    DueAlike(chs, b, p, num);
    DueIsFirst(chs, p, num, zero);
    hide AwaitPosition;
    SweptFirst(Unrouted(Promoted(t)), chs);
  }

  lemma BeforeDue(es: seq<Event>, j: nat, k: nat, first: int, due: int)
    requires j <= k <= |es| && first + Swaps(es[..k]) == due
    ensures forall i :: j <= i < k && es[i].Swap? ==> first + Swaps(es[..i]) < due
  {
    forall i | j <= i < k && es[i].Swap?
      ensures first + Swaps(es[..i]) < due
    {
      SwapsGrow(es, i, k);
    }
  }

  lemma DueAlike(chs: seq<Channel>, b: Buffer, f: Buffer, num: Numbering)
    requires SameInterval(f, b) && DuePlays(chs, b, num)
    ensures DuePlays(chs, f, num)
  {
    hide HasGuid, IntervalOf, SameSession, Audible;
    var i :| 0 <= i < |chs| && DuePlaysAt(chs, i, b, num);
    assert forall g: Guid :: HasOfSession(chs[..i], g, f) == HasOfSession(chs[..i], g, b);
    assert DuePlaysAt(chs, i, f, num);
  }

  // ----- one swap later, by way of `pending` -----

  predicate PendingIs(s: Stream, b: Buffer) {
    Ready(s.pending) && SameInterval(s.pending, b)
  }

  /** No swap and no reset. */
  predicate BetweenSwaps(e: Event) {
    !e.Swap? && !e.Leave? && !e.Foreground?
  }

  lemma PutKeepsPending(s: Stream, slot: Slot, x: Buffer, b: Buffer)
    requires PendingIs(s, b) && (slot.Awaiting? ==> slot.i < |s.awaiting|)
    requires slot.Pending? ==> SameInterval(x, s.pending) && Ready(x)
    ensures PendingIs(PutAt(s, slot, x), b)
  {
  }

  lemma WriteKeepsPending(s: Stream, guid: Guid, w: seq<Byte>, live: bool, b: Buffer)
    requires PendingIs(s, b)
    ensures PendingIs(Written(s, guid, w, live), b)
  {
    hide Appended, Completes, WriteSlot, FrameStart, PutAt, Resized, SameInterval;
    var slot := WriteSlot(s, guid);
    if !slot.Nowhere? {
      var t := Redirected(s, guid, slot);
      var x := Appended(At(t, slot), w);
      WriteSameInterval(At(t, slot), w);
      WriteKeepsBuffer(At(t, slot), w);
      PutKeepsPending(t, slot, x, b);
      if Completes(At(t, slot), w) {
        if live {
          PutKeepsPending(t, slot, LiveRemoved(x), b);
        } else if slot.Accumulating? {
          PutKeepsPending(t, slot, if x.frames == 1 then MarkerRead(x) else x, b);
        }
      }
    }
  }

  lemma StepKeepsPending(s: Stream, e: Event, b: Buffer)
    requires PendingIs(s, b) && BetweenSwaps(e)
    ensures PendingIs(Step(s, e), b)
  {
    hide Written, LastCount, IsAwaiting, AllComplete, Await, OwnInterval, IntervalOf;
    match e
    case Begin(_, _) =>
    case Data(guid, w, live) => WriteKeepsPending(s, guid, w, live, b);
    case End(_) =>
  }

  lemma {:induction false} StaysPending(s: Stream, es: seq<Event>, j: nat, k: nat, b: Buffer)
    requires j <= k <= |es| && PendingIs(Ran(s, es[..j]), b)
    requires forall i :: j <= i < k ==> BetweenSwaps(es[i])
    ensures PendingIs(Ran(s, es[..k]), b)
    decreases k
  {
    hide PendingIs, BetweenSwaps, Step, Ran;
    if j < k {
      StaysPending(s, es, j, k - 1, b);
      OneMoreStep(s, es, k - 1);
      StepKeepsPending(Ran(s, es[..k - 1]), es[k - 1], b);
    }
  }

  /** What a swap leaves in `pending` starts at the next one. */
  lemma PendingStarts(s: Stream, es: seq<Event>, k: nat, next: nat, b: Buffer)
    returns (p: Buffer)
    requires k < next < |es| && es[next].Swap? && PendingIs(Ran(s, es[..k + 1]), b)
    requires forall i :: k < i < next ==> BetweenSwaps(es[i])
    ensures SameInterval(p, b) && Start(Promotion, p) in VideoSync.Starts(Ran(s, es[..next]), es[next].chs)
  {
    hide SweepStarts, LastStarts, Swept, Ran, BetweenSwaps;
    StaysPending(s, es, k + 1, next, b);
    p := Ran(s, es[..next]).pending;
  }

  /** The interval in `next` names audio that plays. */
  predicate NextMatches(s: Stream, chs: seq<Channel>) {
    Ready(s.next) && s.next.audioGuid != ZERO_GUID && PlaysNow(chs, s.next.audioGuid)
  }

  /** `pending` is what was swept there, unless `next` matches and takes the place. */
  lemma PendingAfterSwap(s: Stream, chs: seq<Channel>, n: int, num: Numbering)
    requires Steady(chs, n, num)
    ensures var t := Swept(Unrouted(Promoted(s)), chs);
            SwappedStream(s, chs).pending == if NextMatches(t, chs) then t.next else t.pending
  {
    hide Swept, Evaluated, Steady, PlaysNow;
    var t := Swept(Unrouted(Promoted(s)), chs);
    if Ready(t.next) {
      PendingWhenLooked(t, chs, n, num);
    }
  }

  lemma PendingWhenLooked(t: Stream, chs: seq<Channel>, n: int, num: Numbering)
    requires Steady(chs, n, num) && Ready(t.next)
    ensures Evaluated(t, chs).pending == if NextMatches(t, chs) then t.next else t.pending
  {
    hide FirstHolding, FirstAudible, QueuePosition, Await, Steady, PlaysNow, HeardGuid, WaitsForAudio;
    NoneHolding(chs, t.next.audioGuid, n, num);
    if PlaysNow(chs, t.next.audioGuid) {
      PlayingIsAudible(chs, t.next.audioGuid);
    }
  }

  lemma PlayingIsAudible(chs: seq<Channel>, g: Guid)
    requires PlaysNow(chs, g)
    ensures FirstAudible(chs).Some?
  {
    hide FirstAudible;
    FirstAudibleIs(chs);
    var i :| 0 <= i < |chs| && Audible(chs[i]) && chs[i].ds.value.guid == g;
  }

  /** An interval whose marker's audio is queued waits while it is; the swap at which that audio plays
      puts it into `pending`, unless `next` names the same audio, and the swap after that starts it. */
  lemma QueuedStarts(s: Stream, es: seq<Event>, j: nat, k: nat, next: nat, first: int, num: Numbering, zero: seq<Byte> -> int, b: Buffer)
    returns (p: Buffer)
    requires Clean(s) && SteadyRun(s, es, first, num) && TagsAreNumbers(num, zero)
    requires j <= k < next < |es| && es[k].Swap? && es[next].Swap? && forall i :: k < i < next ==> BetweenSwaps(es[i])
    requires OldestIs(Ran(s, es[..j]), b) && b.ownInterval < 0 && !b.ownAudio
    requires forall i :: j <= i < k ==> Undisturbed(Ran(s, es[..i]), es[i], b, num)
    requires first + Swaps(es[..k]) == num(b.audioGuid) && DuePlays(es[k].chs, b, num) && !NextMatches(Ran(s, es[..k]), es[k].chs)
    ensures SameInterval(p, b) && Start(Promotion, p) in VideoSync.Starts(Ran(s, es[..next]), es[next].chs)
  {
    hide Undisturbed, Steady, Recent, TagsAreNumbers, DuePlays, Swept, VideoSync.Starts, NextMatches, Ran, Swaps, IntervalOf;
    BeforeDue(es, j, k, first, Due(b, num));
    StaysOldest(s, es, j, k, first, num, zero, b);
    var t, chs := Ran(s, es[..k]), es[k].chs;
    DueAlike(chs, b, t.awaiting[0], num);
    DueIsFirst(chs, t.awaiting[0], num, zero);
    hide AwaitPosition;
    var u := Unrouted(Promoted(t));
    SweptFirst(u, chs);
    PendingAfterSwap(t, chs, first + Swaps(es[..k]), num);
    SameNext(t, Swept(u, chs), chs);
    OneMoreStep(s, es, k);
    assert PendingIs(SwappedStream(t, chs), b);
    hide SwappedStream;
    p := PendingStarts(s, es, k, next, b);
  }

  lemma SameNext(s: Stream, t: Stream, chs: seq<Channel>)
    requires s.next == t.next
    ensures NextMatches(s, chs) == NextMatches(t, chs)
  {
    hide PlaysNow;
  }

  /** An interval whose marker names audio that plays at a swap starts at the next swap. */
  lemma MatchedStarts(s: Stream, es: seq<Event>, k: nat, next: nat, first: int, num: Numbering) returns (p: Buffer)
    requires SteadyRun(s, es, first, num)
    requires k < next < |es| && es[k].Swap? && es[next].Swap? && forall i :: k < i < next ==> BetweenSwaps(es[i])
    requires NextMatches(Ran(s, es[..k]), es[k].chs)
    ensures SameInterval(p, Ran(s, es[..k]).next) && Start(Promotion, p) in VideoSync.Starts(Ran(s, es[..next]), es[next].chs)
  {
    hide Steady, Recent, Swept, VideoSync.Starts, Ran, Swaps;
    var t, chs := Ran(s, es[..k]), es[k].chs;
    PendingAfterSwap(t, chs, first + Swaps(es[..k]), num);
    SweepKeepsNext(Unrouted(Promoted(t)), chs);
    SameNext(t, Swept(Unrouted(Promoted(t)), chs), chs);
    hide PlaysNow;
    OneMoreStep(s, es, k);
    assert PendingIs(SwappedStream(t, chs), t.next);
    hide SwappedStream;
    p := PendingStarts(s, es, k, next, t.next);
  }

  lemma {:induction false} SweepKeepsNext(s: Stream, chs: seq<Channel>)
    ensures Swept(s, chs).next == s.next
    decreases |s.awaiting|
  {
    hide AwaitPosition, StillWaits;
    if s.awaiting != [] && !StillWaits(s.awaiting[0], chs) {
      var b, rest := s.awaiting[0], s.awaiting[1..];
      if AwaitPosition(b, chs) == 0 && OwnMatch(b) {
        SweepKeepsNext(Matched(s, b).(playing := b, frameIdx := 0, awaiting := rest), chs);
      } else if AwaitPosition(b, chs) != 0 {
        SweepKeepsNext(s.(awaiting := rest), chs);
      }
    }
  }

  // ----- when its audio is nowhere -----

  /** The audio named by a marker is nowhere in the queues, though the user is heard. */
  predicate AudioElsewhere(chs: seq<Channel>, marker: Guid) {
    && (exists i :: 0 <= i < |chs| && Audible(chs[i])) && !HasGuid(chs, marker)
    && !exists i :: 0 <= i < |chs| && HoldsBack(chs[i], marker)
  }

  /** Looked at, it is kept, or dropped when that happened three times before. */
  lemma LookedElsewhere(s: Stream, chs: seq<Channel>)
    requires Ready(s.next) && s.next.audioGuid != ZERO_GUID && s.prevDs != s.next.audioGuid && AudioElsewhere(chs, s.next.audioGuid)
    ensures var r := Evaluated(s, chs);
            && r.prevDs != s.next.audioGuid
            && if s.holdCount < 3 then r.next == s.next && r.holdCount == s.holdCount + 1 && r.drops == s.drops
               else r.next == EMPTY && r.holdCount == 0 && r.drops == s.drops + 1 && !r.synced
    ensures LastStarts(s, chs) == []
  {
    hide QueuePosition, HoldsBack, PlaysNow, WaitsForAudio, Accepted, Await, HasGuid;
    var marker := s.next.audioGuid;
    HeldBackIs(chs, marker);
    FirstAudibleIs(chs);
    NowhereMeans(chs, marker);
    hide FirstHolding, FirstAudible, Audible;
  }

  lemma HeldOnce(s: Stream, chs: seq<Channel>)
    requires Ready(s.next) && s.next.audioGuid != ZERO_GUID && s.prevDs != s.next.audioGuid && AudioElsewhere(chs, s.next.audioGuid)
    ensures var r := SwappedStream(s, chs);
            && r.prevDs != s.next.audioGuid
            && if s.holdCount < 3 then r.next == s.next && r.holdCount == s.holdCount + 1 && r.drops == s.drops
               else r.next == EMPTY && r.holdCount == 0 && r.drops == s.drops + 1 && !r.synced
    ensures forall st :: st in VideoSync.Starts(s, chs) ==> st.how.Promotion? || st.how.OwnAudio?
  {
    hide Swept, SweepStarts, LastStarts, Evaluated, AudioElsewhere;
    var u := Unrouted(Promoted(s));
    SweepKeepsNext(u, chs);
    SweepKeepsCounts(u, chs);
    SweepStartsAre(u, chs);
    LookedElsewhere(Swept(u, chs), chs);
  }

  lemma NowhereMeans(chs: seq<Channel>, marker: Guid)
    requires !HasGuid(chs, marker)
    ensures QueuePosition(chs, marker) < 0 && !PlaysNow(chs, marker)
  {
    var b := EMPTY.(audioGuid := marker);
    PositionMeans(chs, b);
    if InQueues(chs, b) {
      NamedHas(chs, b);
    }
    hide QueuePosition;
  }

  lemma NamedHas(chs: seq<Channel>, b: Buffer)
    requires InQueues(chs, b) && b.ownInterval < 0
    ensures HasGuid(chs, b.audioGuid)
  {
  }

  lemma {:induction false} SweepKeepsCounts(s: Stream, chs: seq<Channel>)
    ensures var r := Swept(s, chs); r.holdCount == s.holdCount && r.drops == s.drops && r.prevDs == s.prevDs
    decreases |s.awaiting|
  {
    hide AwaitPosition, StillWaits;
    if s.awaiting != [] && !StillWaits(s.awaiting[0], chs) {
      var b, rest := s.awaiting[0], s.awaiting[1..];
      if AwaitPosition(b, chs) == 0 && OwnMatch(b) {
        SweepKeepsCounts(Matched(s, b).(playing := b, frameIdx := 0, awaiting := rest), chs);
      } else if AwaitPosition(b, chs) != 0 {
        SweepKeepsCounts(s.(awaiting := rest), chs);
      }
    }
  }

  lemma {:induction false} SweepStartsAre(s: Stream, chs: seq<Channel>)
    ensures forall st :: st in SweepStarts(s, chs) ==> st.how.OwnAudio?
    decreases |s.awaiting|
  {
    hide AwaitPosition, StillWaits;
    if s.awaiting != [] && !StillWaits(s.awaiting[0], chs) {
      var b, rest := s.awaiting[0], s.awaiting[1..];
      if AwaitPosition(b, chs) == 0 && OwnMatch(b) {
        SweepStartsAre(Matched(s, b).(playing := b, frameIdx := 0, awaiting := rest), chs);
      } else if AwaitPosition(b, chs) != 0 {
        SweepStartsAre(s.(awaiting := rest), chs);
      }
    }
  }

  function AfterAll(s: Stream, swaps: seq<seq<Channel>>): Stream {
    if swaps == [] then s else SwappedStream(AfterAll(s, swaps[..|swaps| - 1]), swaps[|swaps| - 1])
  }

  /** An interval whose audio is nowhere is kept for three swaps, and dropped at the fourth: better one
      interval lost than video that runs ahead of its audio. */
  lemma {:induction false} HeldThreeTimes(s: Stream, swaps: seq<seq<Channel>>)
    requires Ready(s.next) && s.next.audioGuid != ZERO_GUID && s.prevDs != s.next.audioGuid && s.holdCount == 0 && |swaps| <= 4
    requires forall i :: 0 <= i < |swaps| ==> AudioElsewhere(swaps[i], s.next.audioGuid)
    ensures var r := AfterAll(s, swaps);
            && r.prevDs != s.next.audioGuid
            && if |swaps| < 4 then r.next == s.next && r.holdCount == |swaps| && r.drops == s.drops
               else r.next == EMPTY && r.drops == s.drops + 1 && !r.synced
    decreases |swaps|
  {
    hide AudioElsewhere, SwappedStream;
    if swaps != [] {
      var z := |swaps| - 1;
      HeldThreeTimes(s, swaps[..z]);
      HeldOnce(AfterAll(s, swaps[..z]), swaps[z]);
    }
  }

  // ----- every start is from the first frame -----

  lemma {:induction false} SweepRestarts(s: Stream, chs: seq<Channel>)
    ensures Swept(s, chs).frameIdx == if SweepStarts(s, chs) == [] then s.frameIdx else 0
    decreases |s.awaiting|
  {
    hide AwaitPosition, StillWaits;
    if s.awaiting != [] && !StillWaits(s.awaiting[0], chs) {
      var b, rest := s.awaiting[0], s.awaiting[1..];
      if AwaitPosition(b, chs) == 0 && OwnMatch(b) {
        SweepRestarts(Matched(s, b).(playing := b, frameIdx := 0, awaiting := rest), chs);
      } else if AwaitPosition(b, chs) != 0 {
        SweepRestarts(s.(awaiting := rest), chs);
      }
    }
  }

  lemma LastRestarts(s: Stream, chs: seq<Channel>)
    ensures (if Ready(s.next) then Evaluated(s, chs) else if Ready(s.acc) then FellBack(s, chs) else s).frameIdx
            == if LastStarts(s, chs) == [] then s.frameIdx else 0
  {
    hide FirstHolding, FirstAudible, MatchOf, HeardGuid, QueuePosition, FollowsMarker, Await;
  }

  /** What starts at a swap starts with its first frame, and nothing else moves the frame to show next. */
  lemma StartsAtFirstFrame(s: Stream, chs: seq<Channel>)
    ensures SwappedStream(s, chs).frameIdx == if VideoSync.Starts(s, chs) == [] then s.frameIdx else 0
  {
    hide SweepStarts, LastStarts, Swept, Evaluated, FellBack;
    var u := Unrouted(Promoted(s));
    SweepRestarts(u, chs);
    LastRestarts(Swept(u, chs), chs);
  }
}
