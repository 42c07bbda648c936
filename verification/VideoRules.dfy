/** What a BEGIN and an END do to each buffer of a stream (njclient.cpp). */
module VideoRules {
  import opened IntervalTag
  import opened VideoBuffers
  import opened VideoStreams

  /** Its frame count is final. */
  predicate Final(b: Buffer, was: Buffer) {
    b == was.(totalFrames := was.frames)
  }

  /** The END of a download: wherever its interval is, the frames it has are all there will be, and
      they set the pace; one that is still accumulating moves on to `next` if it has more than the
      marker, else it is dropped. */
  lemma EndRule(s: Stream, guid: Guid)
    ensures var r := Finished(s, guid);
            && |r.awaiting| == |s.awaiting|
            && (forall i :: 0 <= i < |s.awaiting| ==>
                  if s.awaiting[i].guid == guid then Final(r.awaiting[i], s.awaiting[i]) else r.awaiting[i] == s.awaiting[i])
            && if exists i :: 0 <= i < |s.awaiting| && s.awaiting[i].guid == guid then
                 && (exists i :: 0 <= i < |s.awaiting| && s.awaiting[i].guid == guid && r.expected == s.awaiting[i].frames)
                 && r == s.(awaiting := r.awaiting, expected := r.expected)
               else if s.appending && s.appendGuid == guid then
                 var was := if s.toPending then s.pending else if s.toNext then s.next else s.playing;
                 var now := if s.toPending then r.pending else if s.toNext then r.next else r.playing;
                 && Final(now, was) && r.expected == was.frames && !r.appending && r.acc == s.acc
                 && (!s.toPending ==> r.pending == s.pending) && (s.toPending || !s.toNext ==> r.next == s.next)
                 && (s.toPending || s.toNext ==> r.playing == s.playing)
               else if s.acc.frames > 1 then
                 Final(r.next, s.acc) && r.expected == s.acc.frames && !r.acc.active && r.pending == s.pending && r.playing == s.playing
               else r == s.(acc := EMPTY)
  {
    if IsAwaiting(s, guid) {
      LastCountIsOne(s.awaiting, guid, s.expected);
    }
    hide LastCount;
  }

  lemma {:induction false} LastCountIsOne(awaiting: seq<Buffer>, guid: Guid, otherwise: nat)
    requires exists i :: 0 <= i < |awaiting| && awaiting[i].guid == guid
    ensures exists i :: 0 <= i < |awaiting| && awaiting[i].guid == guid && LastCount(awaiting, guid, otherwise) == awaiting[i].frames
  {
    var z := |awaiting| - 1;
    if awaiting[z].guid != guid {
      var i :| 0 <= i < |awaiting| && awaiting[i].guid == guid;
      assert awaiting[..z][i].guid == guid;
      LastCountIsOne(awaiting[..z], guid, otherwise);
      var j :| 0 <= j < z && awaiting[..z][j].guid == guid && LastCount(awaiting[..z], guid, otherwise) == awaiting[..z][j].frames;
      assert awaiting[j].guid == guid;
    }
  }

  /** A BEGIN: a new interval accumulates, nothing is appended to any more, and `next` is free. What
      was in `next` waits if it names its audio and has a frame: by the number of the audio after that,
      when the number fits in a signed int. What was appended to has all its frames. */
  lemma BeginRule(s: Stream, guid: Guid, seqNo: int)
    ensures var r := Begun(s, guid, seqNo);
            && r.acc == EMPTY.(guid := guid, active := true, intervalSeq := seqNo) && !r.appending && !r.next.active
            && (s.appending ==> r.expected == (if s.toPending then s.pending else if s.toNext then s.next else s.playing).frames)
            && (!s.appending ==> r.expected == s.expected)
            && (if s.appending && s.toPending then Final(r.pending, s.pending) else r.pending == s.pending)
            && (if s.appending && !s.toPending && !s.toNext then Final(r.playing, s.playing) else r.playing == s.playing)
            && if s.next.active && s.next.frames >= 1 && s.next.audioGuid != ZERO_GUID then
                 && r.awaiting != [] && r.awaiting[..|r.awaiting| - 1] == (if |s.awaiting| < 2 then s.awaiting else s.awaiting[1..])
                 && MovedOn(r.awaiting[|r.awaiting| - 1], s.next, s.appending && !s.toPending && s.toNext)
               else r.awaiting == s.awaiting
  {
    hide IntervalOf, MovedOn, NextMovedOn, OwnInterval;
    var t := if s.appending then NotAppending(SelectedComplete(s)) else s;
    NextRule(t);
    if s.next.active && s.next.frames >= 1 && s.next.audioGuid != ZERO_GUID {
      MovedAlike(NextMovedOn(t).awaiting[|NextMovedOn(t).awaiting| - 1], s.next, t.next, s.appending && !s.toPending && s.toNext);
    }
  }

  lemma MovedAlike(b: Buffer, was: Buffer, final: Buffer, appended: bool)
    requires MovedOn(b, final, false) && final == if appended then was.(totalFrames := was.frames) else was
    ensures MovedOn(b, was, appended)
  {
    hide IntervalOf;
  }

  lemma NextRule(t: Stream)
    ensures var r := NextMovedOn(t);
            && !r.next.active && r == t.(next := r.next, awaiting := r.awaiting)
            && if t.next.active && t.next.frames >= 1 && t.next.audioGuid != ZERO_GUID then
                 && r.awaiting != [] && r.awaiting[..|r.awaiting| - 1] == (if |t.awaiting| < 2 then t.awaiting else t.awaiting[1..])
                 && MovedOn(r.awaiting[|r.awaiting| - 1], t.next, false)
               else r.awaiting == t.awaiting
  {
    hide IntervalOf, OwnInterval, Await, MovedOn;
    var tag := IntervalOf(t.next.audioGuid);
    var slot := if tag.Some? then t.next.(ownInterval := OwnInterval(t.next.audioGuid)) else t.next;
    SlotRule(t.next, slot);
    AwaitRule(t.awaiting, slot);
    var awaiting := Await(t.awaiting, slot);
    if t.next.active && t.next.frames >= 1 && t.next.audioGuid != ZERO_GUID {
      assert NextMovedOn(t) == t.(awaiting := awaiting, next := EMPTY);
    } else if t.next.active {
      assert NextMovedOn(t) == t.(next := EMPTY);
    } else {
      assert NextMovedOn(t) == t;
    }
  }

  lemma SlotRule(next: Buffer, slot: Buffer)
    requires slot == if IntervalOf(next.audioGuid).Some? then next.(ownInterval := OwnInterval(next.audioGuid)) else next
    ensures MovedOn(slot, next, false)
  {
    hide IntervalOf, OwnInterval;
    OwnNumber(next.audioGuid);
  }

  lemma AwaitRule(awaiting: seq<Buffer>, b: Buffer)
    ensures var r := Await(awaiting, b);
            && r != [] && r[|r| - 1] == b && r[..|r| - 1] == if |awaiting| < 2 then awaiting else awaiting[1..]
  {
  }

  lemma OwnNumber(g: Guid)
    ensures match IntervalOf(g)
            case Some(m) => OwnInterval(g) == if m + 1 < 0x8000_0000 then m + 1 else if m == 0xffff_ffff then 0 else m + 1 - 0x1_0000_0000
            case None => true
  {
    hide IntervalOf;
  }

  /** What was in `next`, with all its frames if it was appended to. */
  predicate MovedOn(b: Buffer, was: Buffer, appended: bool) {
    && b == was.(ownInterval := b.ownInterval, totalFrames := if appended then was.frames else was.totalFrames)
    && b.ownInterval == match IntervalOf(was.audioGuid) {
                          case Some(m) => if m + 1 < 0x8000_0000 then m + 1 else if m == 0xffff_ffff then 0 else m + 1 - 0x1_0000_0000
                          case None => was.ownInterval
                        }
  }
}
