/** A video stream as njclient.cpp holds and changes it: receive buffers and flags, each method
    proved to do what its function on values says. */
module VideoRecvStates {
  import opened Bytes
  import opened IntervalTag
  import opened Options
  import opened Channels
  import opened VideoBuffers
  import opened VideoStreams

  class VideoRecvState {
    const accumulating: VideoRecvBuffer
    const next: VideoRecvBuffer
    const pending: VideoRecvBuffer
    const playing: VideoRecvBuffer
    const awaiting0: VideoRecvBuffer
    const awaiting1: VideoRecvBuffer
    var awaitingCount: nat
    var frameIdx: nat
    var expectedFrames: nat
    var appendActive: bool
    var appendToNext: bool
    var appendToPending: bool
    var appendGuid: Guid
    var emptyCount: nat
    var holdCount: nat
    var prevDsGuid: Guid
    var synced: bool
    var lastPlayedSenderSeq: int
    var lastPlayedAudioGuid: Guid
    var dropResyncCount: nat
    var liveFrameIdx: nat

    ghost function Buffers(): set<object> {
      {accumulating, next, pending, playing, awaiting0, awaiting1}
    }

    ghost predicate Valid()
      reads this
    {
      && accumulating !in {next, pending, playing, awaiting0, awaiting1}
      && next !in {pending, playing, awaiting0, awaiting1} && pending !in {playing, awaiting0, awaiting1}
      && playing !in {awaiting0, awaiting1} && awaiting0 != awaiting1
      && awaitingCount <= 2
    }

    ghost function Awaiting(): (r: seq<Buffer>)
      requires Valid()
      reads this, awaiting0, awaiting1
      ensures |r| == awaitingCount
    {
      [awaiting0.Value(), awaiting1.Value()][..awaitingCount]
    }

    ghost function State(): Stream
      requires Valid()
      reads this, Buffers()
    {
      Stream(accumulating.Value(), next.Value(), pending.Value(), playing.Value(), Awaiting(),
             frameIdx, expectedFrames, appendActive, appendToNext, appendToPending, appendGuid,
             emptyCount, holdCount, prevDsGuid, synced, lastPlayedSenderSeq, lastPlayedAudioGuid,
             dropResyncCount, liveFrameIdx)
    }

    constructor ()
      ensures Valid() && State() == NEW_STREAM && fresh(Buffers())
    {
      hide VideoRecvBuffer.Value;
      accumulating := new VideoRecvBuffer();
      next := new VideoRecvBuffer();
      pending := new VideoRecvBuffer();
      playing := new VideoRecvBuffer();
      awaiting0 := new VideoRecvBuffer();
      awaiting1 := new VideoRecvBuffer();
      awaitingCount, frameIdx, expectedFrames := 0, 0, 0;
      appendActive, appendToNext, appendToPending, appendGuid := false, false, false, ZERO_GUID;
      emptyCount, holdCount, prevDsGuid, synced := 0, 0, ZERO_GUID, false;
      lastPlayedSenderSeq, lastPlayedAudioGuid, dropResyncCount, liveFrameIdx := -1, ZERO_GUID, 0, 0;
    }

    // ----- BEGIN -----

    /** The append target gets its final frame count; nothing is appended any more. */
    method StopAppending()
      requires Valid()
      modifies this, playing, next, pending
      ensures Valid() && State() == NotAppending(SelectedComplete(old(State())))
    {
      hide VideoRecvBuffer.Value;
      var target := if appendToPending then pending else if appendToNext then next else playing;
      expectedFrames := target.Value().frames;
      target.Complete();
      appendActive, appendGuid := false, ZERO_GUID;
    }

    /** Copies `next` behind the waiting intervals; the oldest goes if both places are taken. */
    method PushAwaiting() returns (slot: VideoRecvBuffer)
      requires Valid()
      modifies this, awaiting0, awaiting1
      ensures Valid() && slot in {awaiting0, awaiting1} && awaitingCount > 0
      ensures slot == if awaitingCount == 1 then awaiting0 else awaiting1
      ensures State() == old(State()).(awaiting := Await(old(Awaiting()), old(next.Value())))
    {
      hide VideoRecvBuffer.Value;
      if awaitingCount == 2 {
        awaiting0.MoveFrom(awaiting1);
        awaitingCount := 1;
      }
      slot := if awaitingCount == 0 then awaiting0 else awaiting1;
      awaitingCount := awaitingCount + 1;
      slot.Reset();
      slot.CopyFrom(next);
    }

    /** `next` makes room: with a marker it waits for its own audio, else it is discarded. */
    method MakeRoom()
      requires Valid()
      modifies this, next, awaiting0, awaiting1
      ensures Valid() && State() == NextMovedOn(old(State()))
    {
      hide VideoRecvBuffer.Value, Await, IntervalOf, OwnInterval;
      if next.Value().active {
        var marker := next.Value().audioGuid;
        if marker != ZERO_GUID && next.Value().frames >= 1 {
          ghost var b := next.Value();
          var slot := PushAwaiting();
          if IntervalOf(marker).Some? {
            slot.WaitForInterval(OwnInterval(marker));
            AwaitLast(old(Awaiting()), b, b.(ownInterval := OwnInterval(marker)));
            assert Awaiting() == Await(old(Awaiting()), b.(ownInterval := OwnInterval(marker)));
          }
        }
        next.Reset();
      }
    }

    method OnBegin(guid: Guid, seqNo: int)
      requires Valid()
      modifies this, Buffers()
      ensures Valid() && State() == Begun(old(State()), guid, seqNo)
    {
      hide VideoRecvBuffer.Value, SelectedComplete, NextMovedOn;
      if appendActive {
        StopAppending();
      }
      MakeRoom();
      accumulating.StartReceiving(guid, seqNo);
      liveFrameIdx := 0;
    }

    // ----- WRITE -----

    ghost function BufferAt(slot: Slot): VideoRecvBuffer
      requires Valid() && !slot.Nowhere? && (slot.Awaiting? ==> slot.i < awaitingCount)
      reads this
    {
      match slot
      case Accumulating => accumulating
      case Next => next
      case Pending => pending
      case Playing => playing
      case Awaiting(i) => if i == 0 then awaiting0 else awaiting1
    }

    lemma AtIsBuffer(slot: Slot)
      requires Valid() && !slot.Nowhere? && (slot.Awaiting? ==> slot.i < awaitingCount)
      ensures At(State(), slot) == BufferAt(slot).Value()
    {
      hide VideoRecvBuffer.Value;
    }

    /** Only the buffer at this place changed. */
    twostate lemma OnlyBufferChanged(slot: Slot)
      requires old(Valid()) && unchanged(this) && !slot.Nowhere? && (slot.Awaiting? ==> slot.i < awaitingCount)
      requires unchanged(Buffers() - {BufferAt(slot)})
      ensures Valid() && State() == PutAt(old(State()), slot, BufferAt(slot).Value())
    {
      hide VideoRecvBuffer.Value;
    }

    method FindAwaiting(guid: Guid) returns (target: VideoRecvBuffer?)
      requires Valid()
      ensures target == null <==> FirstAwaiting(Awaiting(), guid, 0) == |Awaiting()|
      ensures target != null ==> target == BufferAt(Slot.Awaiting(FirstAwaiting(Awaiting(), guid, 0)))
    {
      hide VideoRecvBuffer.Value;
      target := null;
      var a := 0;
      while a < awaitingCount && target == null
        invariant a <= awaitingCount
        invariant target == null ==> FirstAwaiting(Awaiting(), guid, a) == FirstAwaiting(Awaiting(), guid, 0)
        invariant target != null ==>
            a > 0 && FirstAwaiting(Awaiting(), guid, 0) == a - 1 && target == if a == 1 then awaiting0 else awaiting1
      {
        var slot := if a == 0 then awaiting0 else awaiting1;
        if slot.Value().guid == guid {
          target := slot;
        }
        a := a + 1;
      }
    }

    /** The buffer a WRITE belongs to, and where that is; a late WRITE turns the append flags. */
    method FindTarget(guid: Guid) returns (target: VideoRecvBuffer?, targetIsAccumulating: bool, ghost slot: Slot)
      requires Valid()
      modifies `appendGuid, `appendActive, `appendToNext, `appendToPending
      ensures Valid() && slot == WriteSlot(old(State()), guid) && State() == Redirected(old(State()), guid, slot)
      ensures slot.Awaiting? ==> slot.i < awaitingCount
      ensures if slot.Nowhere? then target == null else target == BufferAt(slot)
      ensures targetIsAccumulating <==> slot.Accumulating?
    {
      hide VideoRecvBuffer.Value, FirstAwaiting;
      target, targetIsAccumulating, slot := null, false, WriteSlot(State(), guid);
      if appendActive && appendGuid == guid {
        target := if appendToPending then pending else if appendToNext then next else playing;
      } else if playing.Value().active && playing.Value().guid == guid {
        target := playing;
        Route(guid, false, false);
      } else if pending.Value().active && pending.Value().guid == guid {
        target := pending;
        Route(guid, false, true);
      } else {
        target := FindAwaiting(guid);
        if target == null && accumulating.Value().active && accumulating.Value().guid == guid {
          target, targetIsAccumulating := accumulating, true;
        }
      }
    }

    /** The interval moves to `next` while it is still arriving. */
    method StartPlaying()
      requires Valid()
      modifies this, next, accumulating
      ensures Valid() && State() == StartedPlaying(old(State()))
    {
      hide VideoRecvBuffer.Value;
      next.CopyFrom(accumulating);
      Route(accumulating.Value().guid, true, false);
      accumulating.DropFrames(true);
    }

    method OnWrite(guid: Guid, w: seq<Byte>, live: bool)
      requires Valid()
      modifies this, Buffers()
      ensures Valid() && State() == Written(old(State()), guid, w, live)
    {
      hide VideoRecvBuffer.Value, Appended, Completes, WriteSlot, StartedPlaying, MarkerRead, LiveRemoved, PutAt, At;
      var target, targetIsAccumulating, slot := FindTarget(guid);
      if target == null {
        return;
      }
      AtIsBuffer(slot);
      label Found:
      ghost var t := State();
      var completed := target.TakeWrite(w);
      OnlyBufferChanged@Found(slot);
      if !completed {
        return;
      }
      CompletedCounts(At(t, slot), w);
      if live {
        target.RemoveLastFrame();
        OnlyBufferChanged@Found(slot);
        liveFrameIdx := liveFrameIdx + 1;
        PutKeepsIndex(t, slot, target.Value());
      } else if targetIsAccumulating {
        if target.Value().frames == 1 {
          target.ReadMarker();
        }
        OnlyBufferChanged@Found(slot);
        if !appendActive && !next.Value().active {
          StartPlaying();
        }
      }
    }

    // ----- END -----

    method OnEnd(guid: Guid)
      requires Valid()
      modifies this, Buffers()
      ensures Valid() && State() == Finished(old(State()), guid)
    {
      hide VideoRecvBuffer.Value, SelectedComplete;
      var isAwaiting := CompleteAwaiting(guid);
      if isAwaiting {
        return;
      }
      if appendActive && appendGuid == guid {
        StopAppending();
      } else {
        if accumulating.Value().frames > 1 {
          expectedFrames := accumulating.Value().frames;
          next.Reset();
          next.CopyFrom(accumulating);
          next.Complete();
        }
        accumulating.Reset();
      }
    }

    method CompleteAwaiting(guid: Guid) returns (isAwaiting: bool)
      requires Valid()
      modifies `expectedFrames, awaiting0, awaiting1
      ensures Valid() && isAwaiting == IsAwaiting(old(State()), guid)
      ensures State() == if isAwaiting then
                old(State()).(awaiting := AllComplete(old(Awaiting()), guid),
                              expected := LastCount(old(Awaiting()), guid, old(expectedFrames)))
              else old(State())
    {
      hide VideoRecvBuffer.Value, AllComplete, LastCount;
      isAwaiting := CompleteEach(guid);
      if !isAwaiting {
        NoneComplete(old(Awaiting()), guid, old(expectedFrames));
      }
    }

    method CompleteEach(guid: Guid) returns (isAwaiting: bool)
      requires Valid()
      modifies `expectedFrames, awaiting0, awaiting1
      ensures isAwaiting <==> exists k :: 0 <= k < awaitingCount && old(Awaiting())[k].guid == guid
      ensures Awaiting() == AllComplete(old(Awaiting()), guid)
      ensures expectedFrames == LastCount(old(Awaiting()), guid, old(expectedFrames))
    {
      hide VideoRecvBuffer.Value, CompletedTo, CountedTo, AllComplete, LastCount;
      ghost var was, count := Awaiting(), expectedFrames;
      CompletedEnds(was, guid, count);
      isAwaiting := false;
      for a := 0 to awaitingCount
        invariant isAwaiting <==> exists k :: 0 <= k < a && was[k].guid == guid
        invariant Awaiting() == CompletedTo(was, a, guid) && expectedFrames == CountedTo(was, a, guid, count)
      {
        CompleteStep(was, a, guid, count);
        var hit := CompleteOne(a, guid);
        isAwaiting := isAwaiting || hit;
      }
    }

    method CompleteOne(a: nat, guid: Guid) returns (hit: bool)
      requires Valid() && a < awaitingCount
      modifies `expectedFrames, awaiting0, awaiting1
      ensures hit <==> old(Awaiting())[a].guid == guid
      ensures Awaiting() == if hit then old(Awaiting())[a := old(Awaiting())[a].(totalFrames := old(Awaiting())[a].frames)] else old(Awaiting())
      ensures expectedFrames == if hit then old(Awaiting())[a].frames else old(expectedFrames)
    {
      hide VideoRecvBuffer.Value;
      var slot := if a == 0 then awaiting0 else awaiting1;
      hit := slot.Value().guid == guid;
      if hit {
        expectedFrames := slot.Value().frames;
        slot.Complete();
      }
    }

    // ----- resets -----

    method ResetAwaiting()
      requires Valid()
      modifies this, awaiting0, awaiting1
      ensures Valid() && State() == old(State()).(awaiting := [])
    {
      hide VideoRecvBuffer.Value;
      awaiting0.Reset();
      awaiting1.Reset();
      awaitingCount := 0;
    }

    method ClearQueued()
      requires Valid()
      modifies this, Buffers() - {playing}
      ensures Valid() && playing.Value() == old(playing.Value())
      ensures State() == old(State()).(next := EMPTY, pending := EMPTY, acc := EMPTY, awaiting := [])
    {
      hide VideoRecvBuffer.Value;
      next.Reset();
      pending.Reset();
      accumulating.Reset();
      ResetAwaiting();
    }

    method ForgetMatches()
      requires Valid()
      modifies `prevDsGuid, `lastPlayedAudioGuid, `holdCount, `emptyCount, `synced, `lastPlayedSenderSeq
      ensures State() == old(State()).(prevDs := ZERO_GUID, lastGuid := ZERO_GUID, holdCount := 0, emptyCount := 0,
                                       synced := false, lastSeq := -1)
    {
      hide VideoRecvBuffer.Value;
      ResetCounts();
      prevDsGuid, lastPlayedAudioGuid, synced, lastPlayedSenderSeq := ZERO_GUID, ZERO_GUID, false, -1;
    }

    method Route(guid: Guid, toNext: bool, toPending: bool)
      requires Valid()
      modifies `appendGuid, `appendActive, `appendToNext, `appendToPending
      ensures State() == old(State()).(appendGuid := guid, appending := true, toNext := toNext, toPending := toPending)
    {
      hide VideoRecvBuffer.Value;
      appendGuid, appendActive, appendToNext, appendToPending := guid, true, toNext, toPending;
    }

    method StopRouting()
      requires Valid()
      modifies `appendGuid, `appendActive, `appendToNext, `appendToPending
      ensures State() == Unrouted(old(State()))
    {
      hide VideoRecvBuffer.Value;
      appendActive, appendToNext, appendToPending, appendGuid := false, false, false, ZERO_GUID;
    }

    method OnUserLeave()
      requires Valid()
      modifies this, Buffers()
      ensures Valid() && State() == UserLeft(old(State()))
    {
      hide VideoRecvBuffer.Value;
      ForgetMatches();
      ClearQueued();
    }

    method OnForegroundReset()
      requires Valid()
      modifies this, Buffers()
      ensures Valid() && State() == ForegroundReset(old(State()))
    {
      hide VideoRecvBuffer.Value;
      ClearQueued();
      playing.Reset();
      frameIdx, expectedFrames := 0, 0;
      StopRouting();
      ForgetMatches();
    }

    // ----- the swap -----

    method Promote()
      requires Valid()
      modifies this, playing, pending
      ensures Valid() && State() == Unrouted(Promoted(old(State())))
    {
      hide VideoRecvBuffer.Value;
      if pending.Value().active && pending.Value().frames >= 1 {
        playing.MoveFrom(pending);
        frameIdx := 0;
      }
      StopRouting();
    }

    method PopAwaiting()
      requires Valid() && awaitingCount > 0
      modifies this, awaiting0, awaiting1
      ensures Valid() && State() == old(State()).(awaiting := old(Awaiting())[1..])
    {
      hide VideoRecvBuffer.Value;
      if awaitingCount == 2 {
        awaiting0.Reset();
        awaiting0.CopyFrom(awaiting1);
      }
      awaitingCount := awaitingCount - 1;
      if awaitingCount == 1 {
        awaiting1.Reset();
      } else {
        awaiting0.Reset();
      }
    }

    method Match(src: VideoRecvBuffer)
      requires Valid()
      modifies this
      ensures Valid() && State() == Matched(old(State()), src.Value())
    {
      hide VideoRecvBuffer.Value;
      synced, lastPlayedSenderSeq, lastPlayedAudioGuid := true, src.Value().senderSeq, src.Value().audioGuid;
    }

    method ResetCounts()
      requires Valid()
      modifies `holdCount, `emptyCount
      ensures State() == old(State()).(holdCount := 0, emptyCount := 0)
    {
      hide VideoRecvBuffer.Value;
      holdCount, emptyCount := 0, 0;
    }

    method PlayNow(src: VideoRecvBuffer)
      requires Valid() && src in {next, awaiting0, accumulating}
      modifies this, playing
      ensures Valid() && State() == old(State()).(playing := old(src.Value()), frameIdx := 0)
    {
      hide VideoRecvBuffer.Value;
      playing.Reset();
      playing.CopyFrom(src);
      frameIdx := 0;
    }

    method Defer(src: VideoRecvBuffer)
      requires Valid() && src in {next, awaiting0}
      modifies this, pending
      ensures Valid() && State() == ToPendingSlot(old(State()), old(src.Value()))
    {
      hide VideoRecvBuffer.Value;
      pending.Reset();
      pending.CopyFrom(src);
      Route(pending.Value().guid, false, true);
    }

    /** Where the audio of the oldest waiting interval is; and whether it is past. */
    method OldestPosition(chs: seq<Channel>) returns (pos: int, passed: bool)
      requires Valid() && awaitingCount > 0
      ensures pos == AwaitPosition(Awaiting()[0], chs)
      ensures pos < 0 && Awaiting()[0].ownInterval >= 0 ==> passed == Passed(chs, Awaiting()[0].audioGuid, Awaiting()[0].ownInterval)
    {
      hide VideoRecvBuffer.Value, QueuePosition, IntervalPosition, Passed;
      passed := false;
      var b := awaiting0.Value();
      if b.ownInterval >= 0 {
        pos, passed := AudioQueuePositionOfInterval(chs, b.audioGuid, b.ownInterval);
      } else {
        pos := AudioQueuePosition(chs, b.audioGuid);
      }
    }

    method SweepAwaiting(chs: seq<Channel>)
      requires Valid()
      modifies this, Buffers()
      ensures Valid() && State() == Swept(old(State()), chs)
    {
      hide VideoRecvBuffer.Value, AwaitPosition, Passed;
      var done := false;
      while !done && awaitingCount > 0
        invariant Valid() && Swept(old(State()), chs) == if done then State() else Swept(State(), chs)
        decreases if done then 0 else awaitingCount + 1
      {
        ghost var s := State();
        var pos, passed := OldestPosition(chs);
        var aw := awaiting0.Value();
        if pos > 0 || (pos < 0 && aw.ownInterval >= 0 && !passed) {
          done := true;
        } else {
          var ownMatch := aw.ownAudio || aw.ownInterval >= 0;
          if pos == 0 {
            Match(awaiting0);
            if ownMatch {
              PlayNow(awaiting0);
            } else {
              Defer(awaiting0);
            }
          }
          PopAwaiting();
          done := pos == 0 && !ownMatch;
        }
      }
    }

    method OnSwap(chs: seq<Channel>)
      requires Valid()
      modifies this, Buffers()
      ensures Valid() && State() == SwappedStream(old(State()), chs)
    {
      hide VideoRecvBuffer.Value, Promoted, Swept, Evaluated, FellBack, Unrouted;
      Promote();
      SweepAwaiting(chs);
      if next.Value().active && next.Value().frames >= 1 {
        EvaluateNext(chs);
      } else if accumulating.Value().active && accumulating.Value().frames >= 1 {
        FallBack(chs);
      } else {
        holdCount, emptyCount := 0, emptyCount + 1;
      }
    }

    method FallBack(chs: seq<Channel>)
      requires Valid()
      modifies this, playing, accumulating
      ensures Valid() && State() == FellBack(old(State()), chs)
    {
      hide VideoRecvBuffer.Value;
      var audioPlaying := |chs| > 0 && chs[0].ds.Some? && chs[0].hold == 0;
      if audioPlaying && synced {
        ResetCounts();
        PlayNow(accumulating);
        Route(accumulating.Value().guid, false, false);
        accumulating.DropFrames(false);
      }
    }

    /** The marker's audio, or the audio after it, is held: `next` waits with it. */
    method WaitWithAudio(holding: Channel)
      requires Valid() && holding.ds.Some?
      modifies this, next, awaiting0, awaiting1
      ensures Valid() && State() == WaitsForAudio(old(State()), holding)
    {
      hide VideoRecvBuffer.Value, Await, FollowsMarker;
      ghost var b := next.Value();
      var own := FollowsMarker(holding.ds.value.guid, next.Value().audioGuid);
      var slot := PushAwaiting();
      AwaitLast(old(Awaiting()), b, b.(audioGuid := holding.ds.value.guid, ownAudio := true));
      if own {
        slot.WaitForAudio(holding.ds.value.guid);
        assert Awaiting() == Await(old(Awaiting()), b.(audioGuid := holding.ds.value.guid, ownAudio := true));
      }
      next.Reset();
    }

    method EvaluateNext(chs: seq<Channel>)
      requires Valid()
      modifies this, Buffers()
      ensures Valid() && State() == Evaluated(old(State()), chs)
    {
      hide VideoRecvBuffer.Value, WaitsForAudio, FirstHolding, FirstAudible, PlaysNow, Looked;
      var marker := next.Value().audioGuid;
      if marker != ZERO_GUID {
        var w := FindHolding(chs, marker);
        if w < |chs| {
          WaitWithAudio(chs[w]);
          return;
        }
      }
      var audioHasData, senderDs, dsMatch := HearAudio(chs, marker);
      LookAtNext(chs, audioHasData, dsMatch);
      prevDsGuid := senderDs;
    }

    method LookAtNext(chs: seq<Channel>, audioHasData: bool, dsMatch: bool)
      requires Valid()
      requires audioHasData == FirstAudible(chs).Some?
      requires dsMatch <==> next.Value().audioGuid != ZERO_GUID && PlaysNow(chs, next.Value().audioGuid)
      modifies this, Buffers()
      ensures Valid() && State() == Looked(old(State()), chs)
    {
      hide VideoRecvBuffer.Value, FirstAudible, PlaysNow, QueuePosition, Await, Accepted;
      var marker := next.Value().audioGuid;
      var prevMatch := audioHasData && marker != ZERO_GUID && !dsMatch && prevDsGuid == marker;
      if !audioHasData {
        ResetCounts();
      } else if marker != ZERO_GUID && !dsMatch && !prevMatch {
        HoldOrDrop(chs, marker);
      } else {
        Accept(dsMatch);
      }
    }

    method Accept(dsMatch: bool)
      requires Valid()
      modifies this, next, pending, playing
      ensures Valid() && State() == Accepted(old(State()), dsMatch)
    {
      hide VideoRecvBuffer.Value, Matched, ToPendingSlot;
      var matched := next;
      Match(matched);
      ResetCounts();
      if dsMatch {
        Defer(matched);
      } else {
        PlayNow(matched);
      }
      next.Reset();
    }

    /** A marker that names no audio heard now: wait for queued audio, hold, or after four
        holds give the interval up. */
    method HoldOrDrop(chs: seq<Channel>, marker: Guid)
      requires Valid()
      modifies this, next, awaiting0, awaiting1
      ensures Valid()
      ensures var s := old(State());
              State() ==
              if QueuePosition(chs, marker) > 0 then
                s.(awaiting := Await(s.awaiting, s.next), next := EMPTY, holdCount := 0, emptyCount := 0)
              else if s.holdCount + 1 >= HOLD_CAP then
                s.(drops := s.drops + 1, next := EMPTY, holdCount := 0, emptyCount := 0, synced := false)
              else s.(holdCount := s.holdCount + 1, emptyCount := 0)
    {
      hide VideoRecvBuffer.Value, QueuePosition, Await;
      var queuedPos := AudioQueuePosition(chs, marker);
      if queuedPos > 0 {
        var slot := PushAwaiting();
        ResetCounts();
        next.Reset();
      } else if holdCount + 1 >= HOLD_CAP {
        dropResyncCount := dropResyncCount + 1;
        next.Reset();
        ResetCounts();
        synced := false;
      } else {
        holdCount, emptyCount := holdCount + 1, 0;
      }
    }
  }

  lemma AwaitLast(awaiting: seq<Buffer>, b: Buffer, c: Buffer)
    ensures var r := Await(awaiting, b);
            r != [] && r[|r| - 1] == b && r[|r| - 1 := c] == Await(awaiting, c)
  {
  }

  lemma CompletedCounts(b: Buffer, w: seq<Byte>)
    requires Completes(b, w)
    ensures Appended(b, w).frames == b.frames + 1
  {
    hide BodyLength, Resized;
  }

  lemma PutKeepsIndex(s: Stream, slot: Slot, b: Buffer)
    requires !slot.Nowhere? && (slot.Awaiting? ==> slot.i < |s.awaiting|)
    ensures PutAt(s, slot, b).liveIdx == s.liveIdx
  {
  }

  function CompletedTo(was: seq<Buffer>, a: nat, guid: Guid): (r: seq<Buffer>)
    requires a <= |was|
    ensures |r| == |was|
  {
    AllComplete(was[..a], guid) + was[a..]
  }

  function CountedTo(was: seq<Buffer>, a: nat, guid: Guid, otherwise: nat): nat
    requires a <= |was|
  {
    LastCount(was[..a], guid, otherwise)
  }

  lemma CompleteStep(was: seq<Buffer>, a: nat, guid: Guid, otherwise: nat)
    requires a < |was|
    ensures var mixed, b := CompletedTo(was, a, guid), was[a];
            mixed[a] == b &&
            (if b.guid == guid then mixed[a := b.(totalFrames := b.frames)] else mixed) == CompletedTo(was, a + 1, guid)
    ensures CountedTo(was, a + 1, guid, otherwise) == if was[a].guid == guid then was[a].frames else CountedTo(was, a, guid, otherwise)
  {
    assert was[..a + 1][..a] == was[..a];
  }

  lemma CompletedEnds(was: seq<Buffer>, guid: Guid, otherwise: nat)
    ensures CompletedTo(was, 0, guid) == was && CompletedTo(was, |was|, guid) == AllComplete(was, guid)
    ensures CountedTo(was, 0, guid, otherwise) == otherwise && CountedTo(was, |was|, guid, otherwise) == LastCount(was, guid, otherwise)
  {
    assert was[..0] == [] && was[0..] == was && was[..|was|] == was && was[|was|..] == [];
  }

  lemma {:induction false} NoneComplete(awaiting: seq<Buffer>, guid: Guid, otherwise: nat)
    requires forall k :: 0 <= k < |awaiting| ==> awaiting[k].guid != guid
    ensures AllComplete(awaiting, guid) == awaiting && LastCount(awaiting, guid, otherwise) == otherwise
  {
    if awaiting != [] {
      NoneComplete(awaiting[..|awaiting| - 1], guid, otherwise);
    }
  }

  // ----- looking at the user's audio queues -----

  method AudioQueuePosition(chs: seq<Channel>, guid: Guid) returns (pos: int)
    ensures pos == QueuePosition(chs, guid)
  {
    for i := 0 to |chs|
      invariant QueuePosition(chs[i..], guid) == QueuePosition(chs, guid)
    {
      assert chs[i..][1..] == chs[i + 1..];
      if !chs[i].videoOnly {
        assert Slots(chs[i])[0] == chs[i].ds && Slots(chs[i])[1] == chs[i].next0 && Slots(chs[i])[2] == chs[i].next1;
        for qi := 0 to 3
          invariant forall q :: 0 <= q < qi ==> !Holds(Slots(chs[i])[q], guid)
        {
          if Slots(chs[i])[qi].Some? && Slots(chs[i])[qi].value.guid == guid {
            return qi + chs[i].hold;
          }
        }
      }
    }
    assert chs[|chs|..] == [];
    return -1;
  }

  predicate LaterIn(c: Channel, session: Guid, interval: int) {
    IsLater(c.ds, session, interval) || IsLater(c.next0, session, interval) || IsLater(c.next1, session, interval)
  }

  method AudioQueuePositionOfInterval(chs: seq<Channel>, session: Guid, interval: nat) returns (pos: int, passed: bool)
    ensures pos == IntervalPosition(chs, session, interval)
    ensures pos < 0 ==> passed == Passed(chs, session, interval)
  {
    hide IntervalOf, SameSession, Ahead;
    passed := false;
    for i := 0 to |chs|
      invariant IntervalPosition(chs[i..], session, interval) == IntervalPosition(chs, session, interval)
      invariant passed <==> exists k :: 0 <= k < i && !chs[k].videoOnly && LaterIn(chs[k], session, interval)
    {
      assert chs[i..][1..] == chs[i + 1..];
      if !chs[i].videoOnly {
        assert Slots(chs[i])[0] == chs[i].ds && Slots(chs[i])[1] == chs[i].next0 && Slots(chs[i])[2] == chs[i].next1;
        var before := passed;
        for qi := 0 to 3
          invariant forall q :: 0 <= q < qi ==> !IsInterval(Slots(chs[i])[q], session, interval)
          invariant passed <==> before || exists q :: 0 <= q < qi && IsLater(Slots(chs[i])[q], session, interval)
        {
          var o := Slots(chs[i])[qi];
          if o.Some? && IntervalOf(o.value.guid).Some? && SameSession(o.value.guid, session) {
            var t := IntervalOf(o.value.guid).value;
            if t == interval {
              return qi + chs[i].hold, passed;
            }
            if Ahead(t, interval) > 0 {
              passed := true;
            }
          }
        }
        assert LaterIn(chs[i], session, interval) <==> exists q :: 0 <= q < 3 && IsLater(Slots(chs[i])[q], session, interval);
      }
    }
    assert chs[|chs|..] == [];
    return -1, passed;
  }

  method FindHolding(chs: seq<Channel>, marker: Guid) returns (w: nat)
    ensures w == FirstHolding(chs, marker)
  {
    hide HoldsBack, FirstHolding;
    w := 0;
    while w < |chs| && !HoldsBack(chs[w], marker)
      invariant w <= |chs| && forall i :: 0 <= i < w ==> !HoldsBack(chs[i], marker)
    {
      w := w + 1;
    }
  }

  /** Scans the channels up to the one that plays the marker's audio. */
  method HearAudio(chs: seq<Channel>, marker: Guid) returns (audioHasData: bool, senderDs: Guid, dsMatch: bool)
    ensures audioHasData == FirstAudible(chs).Some?
    ensures dsMatch <==> marker != ZERO_GUID && PlaysNow(chs, marker)
    ensures senderDs == if dsMatch then marker else if audioHasData then FirstAudible(chs).value else ZERO_GUID
  {
    audioHasData, senderDs, dsMatch := false, ZERO_GUID, false;
    FirstAudibleIs(chs);
    for ci := 0 to |chs|
      invariant !dsMatch && (audioHasData <==> exists k :: 0 <= k < ci && Audible(chs[k]))
      invariant marker != ZERO_GUID ==> forall k :: 0 <= k < ci && Audible(chs[k]) ==> chs[k].ds.value.guid != marker
      invariant if audioHasData then Some(senderDs) == FirstAudible(chs) else FirstAudible(chs[ci..]) == FirstAudible(chs) && senderDs == ZERO_GUID
    {
      assert chs[ci..][0] == chs[ci] && chs[ci..][1..] == chs[ci + 1..];
      if Audible(chs[ci]) {
        if !audioHasData {
          senderDs := chs[ci].ds.value.guid;
        }
        audioHasData := true;
        if marker != ZERO_GUID && chs[ci].ds.value.guid == marker {
          senderDs, dsMatch := marker, true;
          break;
        }
      }
    }
  }
}
