/** When the intervals of a video stream start, relative to the audio their markers name, over
    whole runs in which the user's audio advances one interval per swap with no hold. */
module VideoSync {
  import opened Bytes
  import opened IntervalTag
  import opened Options
  import opened Channels
  import opened VideoBuffers
  import opened VideoStreams

  datatype Event =
    | Begin(guid: Guid, seqNo: int)
    | Data(guid: Guid, w: seq<Byte>, live: bool)
    | End(guid: Guid)
    | Leave
    | Foreground
    | Swap(chs: seq<Channel>)

  function Step(s: Stream, e: Event): Stream {
    match e
    case Begin(guid, seqNo) => Begun(s, guid, seqNo)
    case Data(guid, w, live) => Written(s, guid, w, live)
    case End(guid) => Finished(s, guid)
    case Leave => UserLeft(s)
    case Foreground => ForegroundReset(s)
    case Swap(chs) => SwappedStream(s, chs)
  }

  function Ran(s: Stream, es: seq<Event>): Stream {
    if es == [] then s else Step(Ran(s, es[..|es| - 1]), es[|es| - 1])
  }

  function Swaps(es: seq<Event>): nat {
    if es == [] then 0 else Swaps(es[..|es| - 1]) + if es[|es| - 1].Swap? then 1 else 0
  }

  // ----- what starts playing at a swap -----

  datatype How = Promotion | OwnAudio | Previous | Unmarked | Fallback

  /** A video interval put into `playing`, and by which path. */
  datatype Start = Start(how: How, b: Buffer)

  function SweepStarts(s: Stream, chs: seq<Channel>): seq<Start>
    decreases |s.awaiting|
  {
    if s.awaiting == [] || StillWaits(s.awaiting[0], chs) then []
    else
      var b, rest := s.awaiting[0], s.awaiting[1..];
      var pos := AwaitPosition(b, chs);
      if pos == 0 && OwnMatch(b) then
        [Start(OwnAudio, b)] + SweepStarts(Matched(s, b).(playing := b, frameIdx := 0, awaiting := rest), chs)
      else if pos == 0 then []
      else SweepStarts(s.(awaiting := rest), chs)
  }

  function LastStarts(s: Stream, chs: seq<Channel>): seq<Start> {
    if Ready(s.next) then
      if s.next.audioGuid != ZERO_GUID && FirstHolding(chs, s.next.audioGuid) < |chs| then []
      else if FirstAudible(chs).None? then []
      else if MatchOf(s, chs).PrevMatch? then [Start(Previous, s.next)]
      else if MatchOf(s, chs).NoMarker? then [Start(Unmarked, s.next)]
      else []
    else if Ready(s.acc) && |chs| > 0 && Sounds(chs[0]) && s.synced then [Start(Fallback, s.acc)]
    else []
  }

  /** Everything put into `playing` at a swap, in order. */
  function Starts(s: Stream, chs: seq<Channel>): seq<Start> {
    var u := Unrouted(Promoted(s));
    (if Ready(s.pending) then [Start(Promotion, s.pending)] else [])
    + SweepStarts(u, chs) + LastStarts(Swept(u, chs), chs)
  }

  function LastOf(starts: seq<Start>, otherwise: Buffer): Buffer {
    if starts == [] then otherwise else starts[|starts| - 1].b
  }

  lemma {:induction false} SweepPlays(s: Stream, chs: seq<Channel>)
    ensures Swept(s, chs).playing == LastOf(SweepStarts(s, chs), s.playing)
    decreases |s.awaiting|
  {
    hide AwaitPosition, StillWaits;
    if s.awaiting != [] && !StillWaits(s.awaiting[0], chs) {
      var b, rest := s.awaiting[0], s.awaiting[1..];
      if AwaitPosition(b, chs) == 0 && OwnMatch(b) {
        SweepPlays(Matched(s, b).(playing := b, frameIdx := 0, awaiting := rest), chs);
      } else if AwaitPosition(b, chs) != 0 {
        SweepPlays(s.(awaiting := rest), chs);
      }
    }
  }

  lemma LastPlays(s: Stream, chs: seq<Channel>)
    ensures (if Ready(s.next) then Evaluated(s, chs) else if Ready(s.acc) then FellBack(s, chs) else s).playing
            == LastOf(LastStarts(s, chs), s.playing)
  {
    hide FirstHolding, FirstAudible, MatchOf, HeardGuid, QueuePosition, FollowsMarker, Await;
  }

  lemma PromotionPlays(s: Stream)
    ensures Unrouted(Promoted(s)).playing == if Ready(s.pending) then s.pending else s.playing
  {
  }

  /** The list is complete: `playing` changes at a swap only to the last interval in it. */
  lemma StartsAreWhatPlays(s: Stream, chs: seq<Channel>)
    ensures SwappedStream(s, chs).playing == LastOf(Starts(s, chs), s.playing)
  {
    hide SweepStarts, LastStarts, Swept, Evaluated, FellBack, Unrouted, Promoted;
    var u := Unrouted(Promoted(s));
    PromotionPlays(s);
    SweepPlays(u, chs);
    LastPlays(Swept(u, chs), chs);
  }

  // ----- numbers -----

  /** At the swap with number n no channel is held, and what plays is interval n. */
  ghost predicate Steady(chs: seq<Channel>, n: int, num: Numbering) {
    forall i :: 0 <= i < |chs| && !chs[i].videoOnly ==>
      chs[i].hold == 0 && (chs[i].ds.Some? ==> num(chs[i].ds.value.guid) == n)
  }

  /** A tag is the low 32 bits of the number, counted from the session's own zero. */
  ghost predicate TagsAreNumbers(num: Numbering, zero: seq<Byte> -> int) {
    forall g: Guid :: IntervalOf(g).Some? ==> (num(g) - zero(SessionOf(g))) % TWO_32 == IntervalOf(g).value
  }

  /** Waiting videos name audio less than half the tag range away. */
  ghost predicate Recent(s: Stream, n: int, num: Numbering) {
    forall i :: 0 <= i < |s.awaiting| ==> -TWO_31 <= n - num(s.awaiting[i].audioGuid) <= TWO_31
  }

  // ----- what every step keeps -----

  ghost predicate Waiting(b: Buffer) {
    && b.active && b.frames >= 1 && !b.ownAudio
    && (b.ownInterval >= 0 ==> IntervalOf(b.audioGuid).Some? && b.ownInterval == (IntervalOf(b.audioGuid).value + 1) % TWO_32)
  }

  predicate Arriving(b: Buffer) {
    !b.ownAudio && b.ownInterval == -1
  }

  /** n is the number of the last swap, last that of the last swap that looked at `next`. */
  ghost predicate InStep(s: Stream, n: int, last: Option<int>, num: Numbering) {
    PendingInStep(s.pending, n, num) && AllWaiting(s.awaiting) && Arriving(s.next) && Arriving(s.acc) &&
    HeardAt(s.prevDs, last, num)
  }

  ghost predicate PendingInStep(b: Buffer, n: int, num: Numbering) {
    b.active ==> b.frames >= 1 && num(b.audioGuid) == n
  }

  ghost predicate AllWaiting(awaiting: seq<Buffer>) {
    forall i :: 0 <= i < |awaiting| ==> Waiting(awaiting[i])
  }

  ghost predicate HeardAt(g: Guid, last: Option<int>, num: Numbering) {
    g != ZERO_GUID ==> last.Some? && num(g) == last.value
  }

  /** A stream about which nothing is remembered yet. */
  predicate Clean(s: Stream) {
    !s.pending.active && s.awaiting == [] && s.prevDs == ZERO_GUID && Arriving(s.next) && Arriving(s.acc)
  }

  lemma CleanStreams(s: Stream)
    ensures Clean(NEW_STREAM) && Clean(UserLeft(s)) && Clean(ForegroundReset(s))
  {
  }

  lemma NextTag(m: int)
    requires 0 <= m < TWO_32
    ensures ToInt32(m + 1) >= 0 ==> ToInt32(m + 1) == (m + 1) % TWO_32
  {
  }

  lemma CompleteInStep(s: Stream, n: int, last: Option<int>, num: Numbering)
    requires InStep(s, n, last, num)
    ensures InStep(NotAppending(SelectedComplete(s)), n, last, num)
  {
    hide HeardAt, AllWaiting;
  }

  lemma AwaitKeeps(awaiting: seq<Buffer>, b: Buffer)
    requires AllWaiting(awaiting) && Waiting(b)
    ensures AllWaiting(Await(awaiting, b)) && AllWaiting(awaiting)
  {
    hide Waiting;
  }

  lemma BurstWaits(b: Buffer)
    requires Arriving(b) && b.active && b.frames >= 1
    ensures Waiting(b) && (IntervalOf(b.audioGuid).Some? ==> Waiting(b.(ownInterval := OwnInterval(b.audioGuid))))
  {
    hide IntervalOf, ToInt32;
    var tag := IntervalOf(b.audioGuid);
    if tag.Some? {
      NextTag(tag.value);
    }
  }

  lemma MovedOnInStep(s: Stream, n: int, last: Option<int>, num: Numbering)
    requires InStep(s, n, last, num)
    ensures InStep(NextMovedOn(s), n, last, num)
  {
    hide IntervalOf, OwnInterval, Await, Waiting, AllWaiting, HeardAt, PendingInStep;
    if s.next.active && s.next.frames >= 1 {
      BurstWaits(s.next);
      AwaitKeeps(s.awaiting, if IntervalOf(s.next.audioGuid).Some? then s.next.(ownInterval := OwnInterval(s.next.audioGuid)) else s.next);
    }
  }

  lemma BegunInStep(s: Stream, guid: Guid, seqNo: int, n: int, last: Option<int>, num: Numbering)
    requires InStep(s, n, last, num)
    ensures InStep(Begun(s, guid, seqNo), n, last, num)
  {
    hide NextMovedOn, SelectedComplete, AllWaiting, HeardAt, PendingInStep;
    CompleteInStep(s, n, last, num);
    MovedOnInStep(if s.appending then NotAppending(SelectedComplete(s)) else s, n, last, num);
  }

  /** A WRITE neither changes what a buffer is nor, with its completed frames, empties it. */
  lemma WriteKeepsBuffer(b: Buffer, w: seq<Byte>)
    ensures var a := Appended(b, w);
            && a.frames >= b.frames && a.active == b.active && a.audioGuid == b.audioGuid
            && a.ownAudio == b.ownAudio && a.ownInterval == b.ownInterval
    ensures Completes(b, w) ==> Appended(b, w).frames == b.frames + 1
  {
    hide BodyLength, Resized;
  }

  lemma PutInStep(s: Stream, slot: Slot, b: Buffer, n: int, last: Option<int>, num: Numbering)
    requires InStep(s, n, last, num) && (slot.Awaiting? ==> slot.i < |s.awaiting|)
    requires b.frames >= At(s, slot).frames && b.active == At(s, slot).active
    requires b.ownAudio == At(s, slot).ownAudio && b.ownInterval == At(s, slot).ownInterval
    requires b.audioGuid == At(s, slot).audioGuid || slot.Accumulating?
    ensures InStep(PutAt(s, slot, b), n, last, num)
  {
  }

  lemma WrittenInStep(s: Stream, guid: Guid, w: seq<Byte>, live: bool, n: int, last: Option<int>, num: Numbering)
    requires InStep(s, n, last, num)
    ensures InStep(Written(s, guid, w, live), n, last, num)
  {
    hide Appended, Completes, WriteSlot, FrameStart, PutAt, Resized;
    var slot := WriteSlot(s, guid);
    if !slot.Nowhere? {
      var t := Redirected(s, guid, slot);
      var old_ := At(t, slot);
      assert old_ == At(s, slot) && InStep(t, n, last, num);
      WriteKeepsBuffer(old_, w);
      var b := Appended(old_, w);
      PutInStep(t, slot, b, n, last, num);
      if Completes(old_, w) {
        if live {
          PutInStep(t, slot, LiveRemoved(b), n, last, num);
        } else if slot.Accumulating? {
          PutInStep(t, slot, if b.frames == 1 then MarkerRead(b) else b, n, last, num);
        }
      }
    }
  }

  lemma FinishedInStep(s: Stream, guid: Guid, n: int, last: Option<int>, num: Numbering)
    requires InStep(s, n, last, num)
    ensures InStep(Finished(s, guid), n, last, num)
  {
    hide LastCount, IsAwaiting, AllComplete, SelectedComplete, AllWaiting, HeardAt, PendingInStep;
    if IsAwaiting(s, guid) {
      AllCompleteWaits(s.awaiting, guid);
    } else if s.appending && s.appendGuid == guid {
      CompleteInStep(s, n, last, num);
    }
  }

  lemma AllCompleteWaits(awaiting: seq<Buffer>, guid: Guid)
    requires AllWaiting(awaiting)
    ensures AllWaiting(AllComplete(awaiting, guid))
  {
    hide IntervalOf;
  }

  // ----- a swap -----

  lemma {:induction false} PositionZero(chs: seq<Channel>, g: Guid, n: int, num: Numbering)
    requires Steady(chs, n, num) && QueuePosition(chs, g) == 0
    ensures num(g) == n
  {
    assert Steady(chs[1..], n, num) by {
      forall i | 0 <= i < |chs[1..]|
        ensures chs[1..][i] == chs[i + 1]
      {
      }
    }
    if chs[0].videoOnly || !Holds(chs[0].ds, g) {
      PositionZero(chs[1..], g, n, num);
    }
  }

  lemma {:induction false} IntervalPositionZero(chs: seq<Channel>, session: Guid, interval: int, n: int, num: Numbering)
    returns (d: Guid)
    requires Steady(chs, n, num) && IntervalPosition(chs, session, interval) == 0
    ensures num(d) == n && IntervalOf(d) == Some(interval) && SameSession(d, session)
  {
    hide IntervalOf;
    assert Steady(chs[1..], n, num) by {
      forall i | 0 <= i < |chs[1..]|
        ensures chs[1..][i] == chs[i + 1]
      {
      }
    }
    if chs[0].videoOnly || !IsInterval(chs[0].ds, session, interval) {
      d := IntervalPositionZero(chs[1..], session, interval, n, num);
    } else {
      d := chs[0].ds.value.guid;
    }
  }

  /** Two numbers with consecutive tags, close enough together, are consecutive. */
  lemma ConsecutiveTags(a: int, b: int, zero: int)
    requires (a - zero) % TWO_32 == ((b - zero) % TWO_32 + 1) % TWO_32
    requires -TWO_31 <= a - b <= TWO_31
    ensures a == b + 1
  {
    var x, y := (a - zero) / TWO_32, (b - zero) / TWO_32;
    var r, q := (a - zero) % TWO_32, (b - zero) % TWO_32;
    assert a - b == (x - y) * TWO_32 + r - q;
  }

  lemma OwnIntervalStarts(b: Buffer, chs: seq<Channel>, n: int, num: Numbering, zero: seq<Byte> -> int)
    requires Waiting(b) && b.ownInterval >= 0 && AwaitPosition(b, chs) == 0
    requires Steady(chs, n, num) && TagsAreNumbers(num, zero) && -TWO_31 <= n - num(b.audioGuid) <= TWO_31
    ensures num(b.audioGuid) + 1 == n
  {
    hide IntervalPosition, QueuePosition, Steady, IntervalOf;
    var d := IntervalPositionZero(chs, b.audioGuid, b.ownInterval, n, num);
    ConsecutiveTags(num(d), num(b.audioGuid), zero(SessionOf(d)));
  }

  /** The interval starts when the audio after the one its marker names does. */
  ghost predicate OnTime(b: Buffer, n: int, num: Numbering) {
    num(b.audioGuid) + 1 == n
  }

  ghost predicate Punctual(st: Start, n: int, last: Option<int>, num: Numbering) {
    && (st.how.Promotion? || st.how.OwnAudio? ==> OnTime(st.b, n, num))
    && (st.how.Previous? ==> (OnTime(st.b, n, num) <==> last == Some(n - 1)))
  }

  lemma {:induction false} SweptInStep(s: Stream, chs: seq<Channel>, n: int, last: Option<int>, num: Numbering, zero: seq<Byte> -> int)
    requires InStep(s, n, last, num)
    requires Steady(chs, n, num) && TagsAreNumbers(num, zero) && Recent(s, n, num)
    ensures InStep(Swept(s, chs), n, last, num) && Swept(s, chs).next == s.next
    ensures forall st :: st in SweepStarts(s, chs) ==> Punctual(st, n, last, num)
    decreases |s.awaiting|
  {
    hide AwaitPosition, StillWaits, Steady, TagsAreNumbers, Waiting;
    if s.awaiting != [] && !StillWaits(s.awaiting[0], chs) {
      var b, rest := s.awaiting[0], s.awaiting[1..];
      var t := s.(awaiting := rest);
      assert InStep(t, n, last, num) && Recent(t, n, num);
      if AwaitPosition(b, chs) == 0 {
        AtItsAudio(b, chs, n, num, zero);
        if OwnMatch(b) {
          SweptInStep(Matched(s, b).(playing := b, frameIdx := 0, awaiting := rest), chs, n, last, num, zero);
        }
      } else {
        SweptInStep(t, chs, n, last, num, zero);
      }
    }
  }

  lemma AtItsAudio(b: Buffer, chs: seq<Channel>, n: int, num: Numbering, zero: seq<Byte> -> int)
    requires Waiting(b) && AwaitPosition(b, chs) == 0
    requires Steady(chs, n, num) && TagsAreNumbers(num, zero) && -TWO_31 <= n - num(b.audioGuid) <= TWO_31
    ensures OwnMatch(b) ==> OnTime(b, n, num)
    ensures !OwnMatch(b) ==> num(b.audioGuid) == n && b.active && b.frames >= 1
  {
    if b.ownInterval >= 0 {
      OwnIntervalStarts(b, chs, n, num, zero);
    } else {
      PositionZero(chs, b.audioGuid, n, num);
    }
  }

  lemma PromotedInStep(s: Stream, n: int, last: Option<int>, num: Numbering)
    requires InStep(s, n - 1, last, num)
    ensures InStep(Unrouted(Promoted(s)), n, last, num)
    ensures Ready(s.pending) ==> Punctual(Start(Promotion, s.pending), n, last, num)
    ensures Unrouted(Promoted(s)).awaiting == s.awaiting && Unrouted(Promoted(s)).next == s.next
  {
  }

  lemma NoneHolding(chs: seq<Channel>, marker: Guid, n: int, num: Numbering)
    requires Steady(chs, n, num)
    ensures FirstHolding(chs, marker) == |chs|
  {
    hide FollowsMarker, SameSession, IntervalOf;
  }

  /** What is heard, and what the marker matched, has the swap's own number. */
  lemma HeardNow(s: Stream, chs: seq<Channel>, n: int, num: Numbering)
    requires Steady(chs, n, num)
    ensures HeardAt(HeardGuid(s, chs), Some(n), num)
    ensures MatchOf(s, chs).DsMatch? ==> num(s.next.audioGuid) == n
  {
    FirstAudibleIs(chs);
    hide FirstAudible;
  }

  lemma AcceptedInStep(s: Stream, dsMatch: bool, n: int, num: Numbering)
    requires Ready(s.next) && (dsMatch ==> num(s.next.audioGuid) == n) && PendingInStep(s.pending, n, num)
    ensures var r := Accepted(s, dsMatch);
            PendingInStep(r.pending, n, num) && r.awaiting == s.awaiting && Arriving(r.next) && r.acc == s.acc
  {
  }

  lemma EvaluatedInStep(s: Stream, chs: seq<Channel>, n: int, last: Option<int>, num: Numbering)
    requires InStep(s, n, last, num) && Steady(chs, n, num) && Ready(s.next)
    ensures InStep(Evaluated(s, chs), n, Some(n), num)
  {
    hide QueuePosition, FirstAudible, FirstHolding, MatchOf, HeardGuid, AllWaiting, HeardAt, Steady, Await, Accepted, PendingInStep;
    NoneHolding(chs, s.next.audioGuid, n, num);
    HeardNow(s, chs, n, num);
    AwaitKeeps(s.awaiting, s.next);
    AcceptedInStep(s, MatchOf(s, chs).DsMatch?, n, num);
  }

  lemma LooksPunctual(s: Stream, chs: seq<Channel>, n: int, last: Option<int>, num: Numbering)
    requires HeardAt(s.prevDs, last, num)
    ensures forall st :: st in LastStarts(s, chs) ==> Punctual(st, n, last, num)
  {
    hide FirstAudible, FirstHolding, PlaysNow;
  }

  lemma SwappedInStep(s: Stream, chs: seq<Channel>, n: int, last: Option<int>, num: Numbering, zero: seq<Byte> -> int)
    requires InStep(s, n - 1, last, num)
    requires Steady(chs, n, num) && TagsAreNumbers(num, zero) && Recent(s, n, num)
    ensures InStep(SwappedStream(s, chs), n, if Ready(s.next) then Some(n) else last, num)
    ensures forall st :: st in Starts(s, chs) ==> Punctual(st, n, last, num)
  {
    hide Swept, Evaluated, SweepStarts, LastStarts, Steady, TagsAreNumbers, Punctual, OnTime, AllWaiting, HeardAt, PendingInStep, Promoted, Unrouted;
    PromotedInStep(s, n, last, num);
    var u := Unrouted(Promoted(s));
    SweptInStep(u, chs, n, last, num, zero);
    var t := Swept(u, chs);
    LooksPunctual(t, chs, n, last, num);
    if Ready(t.next) {
      EvaluatedInStep(t, chs, n, last, num);
    }
  }

  // ----- whole runs -----

  /** The number of the last swap that looked at `next`, if any. */
  function LastLook(s: Stream, es: seq<Event>, first: int): Option<int> {
    if es == [] then None
    else
      var front := es[..|es| - 1];
      if es[|es| - 1].Swap? && Ready(Ran(s, front).next) then Some(first + Swaps(front)) else LastLook(s, front, first)
  }

  /** The user's audio advances one interval per swap, with no hold. */
  ghost predicate SteadyRun(s: Stream, es: seq<Event>, first: int, num: Numbering) {
    forall k :: 0 <= k < |es| && es[k].Swap? ==>
      Steady(es[k].chs, first + Swaps(es[..k]), num) && Recent(Ran(s, es[..k]), first + Swaps(es[..k]), num)
  }

  lemma StepInStep(s: Stream, e: Event, n: int, last: Option<int>, num: Numbering, zero: seq<Byte> -> int)
    requires InStep(s, n, last, num) && TagsAreNumbers(num, zero)
    requires e.Swap? ==> Steady(e.chs, n + 1, num) && Recent(s, n + 1, num)
    ensures !e.Swap? ==> InStep(Step(s, e), n, last, num)
    ensures e.Swap? ==> InStep(Step(s, e), n + 1, if Ready(s.next) then Some(n + 1) else last, num)
  {
    hide Begun, Written, Finished, SwappedStream, Steady, TagsAreNumbers, Recent, Starts;
    match e
    case Begin(guid, seqNo) => BegunInStep(s, guid, seqNo, n, last, num);
    case Data(guid, w, live) => WrittenInStep(s, guid, w, live, n, last, num);
    case End(guid) => FinishedInStep(s, guid, n, last, num);
    case Leave =>
    case Foreground =>
    case Swap(chs) => SwappedInStep(s, chs, n + 1, last, num, zero);
  }

  lemma {:induction false} RunInStep(s: Stream, es: seq<Event>, first: int, num: Numbering, zero: seq<Byte> -> int)
    requires Clean(s) && SteadyRun(s, es, first, num) && TagsAreNumbers(num, zero)
    ensures InStep(Ran(s, es), first + Swaps(es) - 1, LastLook(s, es, first), num)
  {
    hide Step, Steady, Recent, TagsAreNumbers;
    if es != [] {
      var z := |es| - 1;
      PrefixSteady(s, es, z, first, num);
      RunInStep(s, es[..z], first, num, zero);
      hide InStep;
      StepInStep(Ran(s, es[..z]), es[z], first + Swaps(es[..z]) - 1, LastLook(s, es[..z], first), num, zero);
    }
  }

  lemma PrefixSteady(s: Stream, es: seq<Event>, k: nat, first: int, num: Numbering)
    requires k <= |es| && SteadyRun(s, es, first, num)
    ensures SteadyRun(s, es[..k], first, num)
  {
    forall j | 0 <= j < k
      ensures es[..k][..j] == es[..j] && es[..k][j] == es[j]
    {
    }
  }

  /** Whatever arrives, in whatever order: a video interval that starts by promotion from
      `pending`, or because its own audio was awaited by number, starts exactly when the audio
      after the one its marker names does. One that starts because its marker names the audio
      heard before does so if and only if the swap before looked at `next` too. */
  lemma VideoStartsWithItsAudio(s: Stream, es: seq<Event>, k: nat, first: int, num: Numbering, zero: seq<Byte> -> int)
    requires Clean(s) && SteadyRun(s, es, first, num) && TagsAreNumbers(num, zero)
    requires k < |es| && es[k].Swap?
    ensures var n := first + Swaps(es[..k]);
            forall st :: st in Starts(Ran(s, es[..k]), es[k].chs) ==> Punctual(st, n, LastLook(s, es[..k], first), num)
  {
    hide Steady, Recent, TagsAreNumbers, InStep, Starts, Punctual, Step, Ready, SwappedStream;
    PrefixSteady(s, es, k, first, num);
    RunInStep(s, es[..k], first, num, zero);
    SwappedInStep(Ran(s, es[..k]), es[k].chs, first + Swaps(es[..k]), LastLook(s, es[..k], first), num, zero);
  }

  // ----- when the previous swap had nothing to look at -----

  function GuidNo(k: Byte): Guid {
    [k, 0, 0, 0, 0, 0, 0, 0, 0, 0, 0, 0, 0, 0, 0, 0]
  }

  function PlayingOnly(g: Guid): seq<Channel> {
    [IDLE.(ds := Some(Decode(g, 0.0, 0.0)))]
  }

  /** The first frame of a video interval recorded with audio g. */
  function MarkerFrame(g: Guid): seq<Byte> {
    [0, 0, 0, 20, 0, 0, 0, 0] + g
  }

  predicate Expects(s: Stream, v: Guid) {
    && !s.appending && !s.next.active && s.awaiting == []
    && !(s.playing.active && s.playing.guid == v) && !(s.pending.active && s.pending.guid == v)
  }

  /** An interval begins and its marker arrives: it is already in `next`. */
  lemma MarkerArrives(s: Stream, v: Guid, g: Guid)
    requires Expects(s, v)
    ensures var r := Ran(s, [Begin(v, 0), Data(v, MarkerFrame(g), false)]);
            && Ready(r.next) && r.next.audioGuid == g && r.next.guid == v && r.acc.frames == 0
            && r.playing == s.playing && r.pending == s.pending && r.awaiting == [] && r.prevDs == s.prevDs
  {
    hide IntervalOf;
    var w := MarkerFrame(g);
    var b := Begun(s, v, 0);
    assert b == s.(next := EMPTY, acc := EMPTY.(guid := v, active := true, intervalSeq := 0), liveIdx := 0)
        || b == s.(acc := EMPTY.(guid := v, active := true, intervalSeq := 0), liveIdx := 0);
    assert WriteSlot(b, v) == Accumulating;
    var c := MarkerStored(b.acc, g);
    assert Written(b, v, w, false) == StartedPlaying(b.(acc := c));
    var es := [Begin(v, 0), Data(v, w, false)];
    TwoSteps(s, es);
  }

  lemma TwoSteps(s: Stream, es: seq<Event>)
    requires |es| == 2
    ensures Ran(s, es) == Step(Step(s, es[0]), es[1])
    ensures Swaps(es) == (if es[0].Swap? then 1 else 0) + if es[1].Swap? then 1 else 0
  {
    hide Step;
    assert es[..1][..0] == [];
    assert Ran(s, es[..1]) == Step(s, es[0]) && Swaps(es[..1]) == if es[0].Swap? then 1 else 0;
  }

  lemma MarkerStored(b: Buffer, g: Guid) returns (c: Buffer)
    requires b.data == [] && b.offsets == [] && b.frames == 0 && b.pending == 0
    ensures Completes(b, MarkerFrame(g))
    ensures Appended(b, MarkerFrame(g)).frames == 1 && c == MarkerRead(Appended(b, MarkerFrame(g)))
    ensures c.audioGuid == g && c.frames == 1 && c.guid == b.guid && c.active == b.active
  {
    var w := MarkerFrame(g);
    assert w[..24] == w && w[8..24] == g;
    c := MarkerRead(Appended(b, w));
    assert Appended(b, w).data == w;
  }

  predicate Plain(s: Stream) {
    !s.pending.active && s.awaiting == []
  }

  /** Its marker names no audio, or the audio heard before: it plays at once. */
  lemma PlaysAtOnce(s: Stream, now: Guid)
    requires Plain(s) && Ready(s.next) && now != ZERO_GUID
    requires s.next.audioGuid == ZERO_GUID || s.next.audioGuid == s.prevDs != now
    ensures var r := SwappedStream(s, PlayingOnly(now));
            && r.prevDs == now && r.playing == s.next && Plain(r) && !r.next.active && r.acc == s.acc && !r.appending
  {
    hide IntervalOf;
    var chs := PlayingOnly(now);
    assert Audible(chs[0]) && FirstAudible(chs) == Some(now);
    assert chs[1..] == [];
  }

  /** Nothing to look at: prevDs stays as it was. */
  lemma EmptySwap(s: Stream, chs: seq<Channel>)
    requires Plain(s) && !s.next.active && s.acc.frames == 0
    ensures var r := SwappedStream(s, chs);
            && r.prevDs == s.prevDs && r.playing == s.playing && Plain(r) && !r.appending && !r.next.active
  {
  }

  lemma PrevSwap(s: Stream, g: Guid, now: Guid)
    requires Plain(s) && Ready(s.next) && s.next.audioGuid == g == s.prevDs != ZERO_GUID && now != g
    ensures Start(Previous, s.next) in Starts(s, PlayingOnly(now))
  {
    hide IntervalOf;
    var chs := PlayingOnly(now);
    assert Audible(chs[0]) && FirstAudible(chs).Some? && !PlaysNow(chs, g);
    assert chs[1..] == [];
    var u := Unrouted(Promoted(s));
    assert u.next == s.next && u.prevDs == s.prevDs && Swept(u, chs) == u && SweepStarts(u, chs) == [];
    assert LastStarts(u, chs) == [Start(Previous, s.next)];
  }

  function FirstByte(g: Guid): int {
    g[0]
  }

  lemma {:induction false} RanSplit(s: Stream, es: seq<Event>, fs: seq<Event>)
    ensures Ran(s, es + fs) == Ran(Ran(s, es), fs) && Swaps(es + fs) == Swaps(es) + Swaps(fs)
    decreases |fs|
  {
    hide Step;
    if fs == [] {
      assert es + fs == es;
    } else {
      var z := |fs| - 1;
      RanSplit(s, es, fs[..z]);
      assert (es + fs)[..|es + fs| - 1] == es + fs[..z];
    }
  }

  lemma OneStep(s: Stream, e: Event)
    ensures Ran(s, [e]) == Step(s, e) && Swaps([e]) == if e.Swap? then 1 else 0
  {
    assert [e][..0] == [];
    hide Step;
  }

  /** The user's audio plays intervals 1, 2, 3, 4. A video that names no audio yet arrives before
      the first swap, one recorded with interval 1 before the second; the third swap finds
      nothing, because the video recorded with interval 2 arrives only before the fourth. */
  function LateVideoRun(): seq<Event> {
    VideoFor(101, ZERO_GUID, 1) + VideoFor(102, GuidNo(1), 2) + [Swap(PlayingOnly(GuidNo(3)))] + VideoFor(103, GuidNo(2), 4)
  }

  /** A video interval arrives, and the next swap. */
  function VideoFor(v: Byte, marker: Guid, now: Byte): (r: seq<Event>)
    ensures |r| == 3
  {
    [Begin(GuidNo(v), 0), Data(GuidNo(v), MarkerFrame(marker), false), Swap(PlayingOnly(GuidNo(now)))]
  }

  predicate Quiet(s: Stream, heard: Guid) {
    Plain(s) && !s.next.active && !s.appending && s.prevDs == heard
  }

  predicate Shown(s: Stream, marker: Guid, heard: Guid) {
    Plain(s) && Ready(s.next) && s.next.audioGuid == marker && s.prevDs == heard && s.acc.frames == 0
  }

  lemma VideoComes(s: Stream, v: Byte, marker: Guid, now: Byte, heard: Guid)
    requires Quiet(s, heard) && !(s.playing.active && s.playing.guid == GuidNo(v))
    ensures Shown(Ran(s, VideoFor(v, marker, now)[..2]), marker, heard)
    ensures Ran(s, VideoFor(v, marker, now)[..2]).next.guid == GuidNo(v) && Swaps(VideoFor(v, marker, now)[..2]) == 0
  {
    hide MarkerFrame, Begun, Written, Ran, Swaps;
    var es := VideoFor(v, marker, now);
    assert es[..2] == [es[0], es[1]];
    MarkerArrives(s, GuidNo(v), marker);
    TwoSteps(s, es[..2]);
  }

  /** It is looked at and plays at the swap that follows. */
  lemma VideoPlays(s: Stream, v: Byte, marker: Guid, now: Byte, heard: Guid)
    requires Quiet(s, heard) && !(s.playing.active && s.playing.guid == GuidNo(v)) && GuidNo(now) != ZERO_GUID
    requires marker == ZERO_GUID || marker == heard != GuidNo(now)
    ensures var r := Ran(s, VideoFor(v, marker, now));
            Quiet(r, GuidNo(now)) && r.playing.guid == GuidNo(v) && r.acc.frames == 0
    ensures Swaps(VideoFor(v, marker, now)) == 1
  {
    hide Ran, Swaps, SwappedStream, Begun, Written, MarkerFrame;
    var es := VideoFor(v, marker, now);
    VideoComes(s, v, marker, now, heard);
    assert es == es[..2] + [es[2]];
    RanSplit(s, es[..2], [es[2]]);
    OneStep(Ran(s, es[..2]), es[2]);
    PlaysAtOnce(Ran(s, es[..2]), GuidNo(now));
  }

  lemma AfterFirst() returns (s: Stream)
    ensures s == Ran(NEW_STREAM, VideoFor(101, ZERO_GUID, 1)) && Quiet(s, GuidNo(1)) && s.playing.guid == GuidNo(101)
  {
    hide Ran;
    s := Ran(NEW_STREAM, VideoFor(101, ZERO_GUID, 1));
    assert GuidNo(1)[0] == 1;
    VideoPlays(NEW_STREAM, 101, ZERO_GUID, 1, ZERO_GUID);
  }

  lemma AfterSecond() returns (s: Stream)
    ensures s == Ran(NEW_STREAM, VideoFor(101, ZERO_GUID, 1) + VideoFor(102, GuidNo(1), 2))
    ensures Quiet(s, GuidNo(2)) && s.playing.guid == GuidNo(102) && s.acc.frames == 0
  {
    hide Ran, VideoFor;
    var q := AfterFirst();
    assert GuidNo(101)[0] != GuidNo(102)[0] && GuidNo(1)[0] != GuidNo(2)[0] && GuidNo(2)[0] == 2;
    VideoPlays(q, 102, GuidNo(1), 2, GuidNo(1));
    RanSplit(NEW_STREAM, VideoFor(101, ZERO_GUID, 1), VideoFor(102, GuidNo(1), 2));
    s := Ran(q, VideoFor(102, GuidNo(1), 2));
  }

  function FirstVideo(): seq<Event> {
    VideoFor(101, ZERO_GUID, 1)
  }

  function SecondVideo(): seq<Event> {
    VideoFor(102, GuidNo(1), 2)
  }

  lemma PrefixesOfRun()
    ensures var es := LateVideoRun();
            && |es| == 10 && es[..2] == FirstVideo()[..2] && es[..5] == FirstVideo() + SecondVideo()[..2]
            && es[..6] == FirstVideo() + SecondVideo()
            && es[..9] == es[..6] + [Swap(PlayingOnly(GuidNo(3)))] + VideoFor(103, GuidNo(2), 4)[..2]
            && es[2] == Swap(PlayingOnly(GuidNo(1))) && es[5] == Swap(PlayingOnly(GuidNo(2)))
            && es[6] == Swap(PlayingOnly(GuidNo(3))) && es[9] == Swap(PlayingOnly(GuidNo(4)))
            && forall k :: 0 <= k < 10 && es[k].Swap? ==> k == 2 || k == 5 || k == 6 || k == 9
  {
    hide GuidNo, MarkerFrame, PlayingOnly;
  }

  lemma BeforeFirstSwaps()
    ensures Ran(NEW_STREAM, LateVideoRun()[..2]).awaiting == [] && Swaps(LateVideoRun()[..2]) == 0
    ensures Ran(NEW_STREAM, LateVideoRun()[..5]).awaiting == [] && Swaps(LateVideoRun()[..5]) == 1
    ensures Ran(NEW_STREAM, LateVideoRun()[..6]).awaiting == [] && Swaps(LateVideoRun()[..6]) == 2
  {
    hide Ran, VideoFor, LateVideoRun, Swaps;
    PrefixesOfRun();
    assert GuidNo(1)[0] == 1 && GuidNo(2)[0] == 2 && GuidNo(101)[0] != GuidNo(102)[0];
    VideoComes(NEW_STREAM, 101, ZERO_GUID, 1, ZERO_GUID);
    VideoPlays(NEW_STREAM, 101, ZERO_GUID, 1, ZERO_GUID);
    var s := AfterFirst();
    VideoComes(s, 102, GuidNo(1), 2, GuidNo(1));
    VideoPlays(s, 102, GuidNo(1), 2, GuidNo(1));
    RanSplit(NEW_STREAM, FirstVideo(), SecondVideo()[..2]);
    RanSplit(NEW_STREAM, FirstVideo(), SecondVideo());
  }

  lemma BeforeLastSwap()
    ensures Shown(Ran(NEW_STREAM, LateVideoRun()[..9]), GuidNo(2), GuidNo(2)) && Swaps(LateVideoRun()[..9]) == 3
  {
    hide Ran, VideoFor, LateVideoRun, SwappedStream, Swaps;
    PrefixesOfRun();
    BeforeFirstSwaps();
    var es := LateVideoRun();
    var s := AfterSecond();
    var e := Swap(PlayingOnly(GuidNo(3)));
    RanSplit(NEW_STREAM, es[..6], [e]);
    OneStep(s, e);
    EmptySwap(s, e.chs);
    var q := SwappedStream(s, e.chs);
    assert GuidNo(102)[0] != GuidNo(103)[0];
    VideoComes(q, 103, GuidNo(2), 4, GuidNo(2));
    RanSplit(NEW_STREAM, es[..6] + [e], VideoFor(103, GuidNo(2), 4)[..2]);
  }

  lemma LateVideoRunIsSteady()
    ensures SteadyRun(NEW_STREAM, LateVideoRun(), 1, FirstByte)
  {
    hide Ran, Swaps, LateVideoRun;
    PrefixesOfRun();
    BeforeFirstSwaps();
    BeforeLastSwap();
    var es := LateVideoRun();
    forall k | 0 <= k < |es| && es[k].Swap?
      ensures Steady(es[k].chs, 1 + Swaps(es[..k]), FirstByte) && Recent(Ran(NEW_STREAM, es[..k]), 1 + Swaps(es[..k]), FirstByte)
    {
      assert k == 2 || k == 5 || k == 6 || k == 9;
    }
  }

  /** After a swap with nothing to look at, prevDs is stale: in this run the video recorded
      with interval 2 starts with interval 4 instead of 3. */
  lemma StalePrevStartsLate()
    ensures var s, swap := Ran(NEW_STREAM, LateVideoRun()[..9]), LateVideoRun()[9];
            swap.Swap? && exists st :: st in Starts(s, swap.chs) && st.how.Previous? && !OnTime(st.b, 4, FirstByte)
    ensures SteadyRun(NEW_STREAM, LateVideoRun(), 1, FirstByte) && Swaps(LateVideoRun()[..9]) == 3
  {
    hide Ran, Starts, LateVideoRun, SteadyRun;
    PrefixesOfRun();
    BeforeLastSwap();
    LateVideoRunIsSteady();
    var s := Ran(NEW_STREAM, LateVideoRun()[..9]);
    assert GuidNo(2)[0] == 2 && GuidNo(4)[0] == 4;
    PrevSwap(s, GuidNo(2), GuidNo(4));
    assert Start(Previous, s.next) in Starts(s, PlayingOnly(GuidNo(4)));
  }
}
