/** A remote video stream: accumulating, next, awaiting, pending, playing, and what BEGIN,
    WRITE, END, an interval swap and the two resets do to them (njclient.cpp). */
module VideoStreams {
  import opened Bytes
  import opened IntervalTag
  import opened Options
  import opened Channels
  import opened VideoBuffers

  const HOLD_CAP := 4

  datatype Stream = Stream(
    acc: Buffer, next: Buffer, pending: Buffer, playing: Buffer, awaiting: seq<Buffer>,
    frameIdx: nat, expected: nat,
    appending: bool, toNext: bool, toPending: bool, appendGuid: Guid,
    emptyCount: nat, holdCount: nat, prevDs: Guid, synced: bool,
    lastSeq: int, lastGuid: Guid, drops: nat, liveIdx: nat)

  const NEW_STREAM := Stream(EMPTY, EMPTY, EMPTY, EMPTY, [], 0, 0, false, false, false, ZERO_GUID,
                             0, 0, ZERO_GUID, false, -1, ZERO_GUID, 0, 0)

  /** The buffer the append flags select. */
  function Selected(s: Stream): Buffer {
    if s.toPending then s.pending else if s.toNext then s.next else s.playing
  }

  function SetSelected(s: Stream, b: Buffer): Stream {
    if s.toPending then s.(pending := b) else if s.toNext then s.(next := b) else s.(playing := b)
  }

  function NotAppending(s: Stream): Stream {
    s.(appending := false, appendGuid := ZERO_GUID)
  }

  /** Its frame count is final; pacing follows it. */
  function SelectedComplete(s: Stream): Stream {
    SetSelected(s, Selected(s).(totalFrames := Selected(s).frames)).(expected := Selected(s).frames)
  }

  /** One more waiting interval; with both places taken the oldest goes. */
  function Await(awaiting: seq<Buffer>, b: Buffer): seq<Buffer> {
    if |awaiting| >= 2 then awaiting[1..] + [b] else awaiting + [b]
  }

  // ----- BEGIN -----

  function OwnInterval(marker: Guid): int {
    match IntervalOf(marker)
    case Some(m) => ToInt32(m + 1)
    case None => -1
  }

  /** Makes room in `next`: an interval with a marker waits for its own audio by number. */
  function NextMovedOn(s: Stream): Stream {
    if !s.next.active then s
    else if s.next.audioGuid != ZERO_GUID && s.next.frames >= 1 then
      var slot := if IntervalOf(s.next.audioGuid).Some? then s.next.(ownInterval := OwnInterval(s.next.audioGuid)) else s.next;
      s.(awaiting := Await(s.awaiting, slot), next := EMPTY)
    else s.(next := EMPTY)
  }

  function Begun(s: Stream, guid: Guid, seqNo: int): Stream {
    var t := if s.appending then NotAppending(SelectedComplete(s)) else s;
    NextMovedOn(t).(acc := EMPTY.(guid := guid, active := true, intervalSeq := seqNo), liveIdx := 0)
  }

  // ----- WRITE -----

  datatype Slot = Nowhere | Accumulating | Next | Pending | Playing | Awaiting(i: nat)

  function FirstAwaiting(awaiting: seq<Buffer>, guid: Guid, i: nat): (r: nat)
    requires i <= |awaiting|
    ensures i <= r <= |awaiting| && (r < |awaiting| ==> awaiting[r].guid == guid)
    ensures forall k :: i <= k < r ==> awaiting[k].guid != guid
    decreases |awaiting| - i
  {
    if i == |awaiting| then i
    else if awaiting[i].guid == guid then i
    else FirstAwaiting(awaiting, guid, i + 1)
  }

  /** Where the bytes of a download go. */
  function WriteSlot(s: Stream, guid: Guid): (r: Slot)
    ensures r.Awaiting? ==> r.i < |s.awaiting|
  {
    if s.appending && s.appendGuid == guid then
      if s.toPending then Pending else if s.toNext then Next else Playing
    else if s.playing.active && s.playing.guid == guid then Playing
    else if s.pending.active && s.pending.guid == guid then Pending
    else
      var a := FirstAwaiting(s.awaiting, guid, 0);
      if a < |s.awaiting| then Awaiting(a)
      else if s.acc.active && s.acc.guid == guid then Accumulating
      else Nowhere
  }

  function At(s: Stream, slot: Slot): Buffer
    requires slot.Awaiting? ==> slot.i < |s.awaiting|
  {
    match slot
    case Nowhere => EMPTY
    case Accumulating => s.acc
    case Next => s.next
    case Pending => s.pending
    case Playing => s.playing
    case Awaiting(i) => s.awaiting[i]
  }

  function PutAt(s: Stream, slot: Slot, b: Buffer): Stream
    requires slot.Awaiting? ==> slot.i < |s.awaiting|
  {
    match slot
    case Nowhere => s
    case Accumulating => s.(acc := b)
    case Next => s.(next := b)
    case Pending => s.(pending := b)
    case Playing => s.(playing := b)
    case Awaiting(i) => s.(awaiting := s.awaiting[i := b])
  }

  /** A late WRITE for the playing or pending interval makes that one the append target. */
  function Redirected(s: Stream, guid: Guid, slot: Slot): Stream {
    if s.appending && s.appendGuid == guid then s
    else if slot.Playing? || slot.Pending? then
      s.(appendGuid := guid, appending := true, toNext := false, toPending := slot.Pending?)
    else s
  }

  /** The interval moves to `next` while it is still arriving. */
  function StartedPlaying(s: Stream): Stream {
    s.(next := s.acc, appendGuid := s.acc.guid, appending := true, toNext := true, toPending := false,
       acc := s.acc.(data := [], offsets := [], frames := 0, pending := 0))
  }

  function Written(s: Stream, guid: Guid, w: seq<Byte>, live: bool): Stream {
    var slot := WriteSlot(s, guid);
    if slot.Nowhere? then s
    else
      var t := Redirected(s, guid, slot);
      var b := Appended(At(t, slot), w);
      if !Completes(At(t, slot), w) then PutAt(t, slot, b)
      else if live then PutAt(t, slot, LiveRemoved(b)).(liveIdx := t.liveIdx + 1)
      else if slot.Accumulating? then
        var marked := PutAt(t, slot, if b.frames == 1 then MarkerRead(b) else b);
        if !marked.appending && !marked.next.active then StartedPlaying(marked) else marked
      else PutAt(t, slot, b)
  }

  // ----- END -----

  function AllComplete(awaiting: seq<Buffer>, guid: Guid): (r: seq<Buffer>)
    ensures |r| == |awaiting|
  {
    seq(|awaiting|, i requires 0 <= i < |awaiting| =>
      if awaiting[i].guid == guid then awaiting[i].(totalFrames := awaiting[i].frames) else awaiting[i])
  }

  /** The frame count of the last awaiting interval with this guid. */
  function LastCount(awaiting: seq<Buffer>, guid: Guid, otherwise: nat): nat {
    if awaiting == [] then otherwise
    else if awaiting[|awaiting| - 1].guid == guid then awaiting[|awaiting| - 1].frames
    else LastCount(awaiting[..|awaiting| - 1], guid, otherwise)
  }

  predicate IsAwaiting(s: Stream, guid: Guid) {
    exists i :: 0 <= i < |s.awaiting| && s.awaiting[i].guid == guid
  }

  function Finished(s: Stream, guid: Guid): Stream {
    if IsAwaiting(s, guid) then
      s.(awaiting := AllComplete(s.awaiting, guid), expected := LastCount(s.awaiting, guid, s.expected))
    else if s.appending && s.appendGuid == guid then NotAppending(SelectedComplete(s))
    else if s.acc.frames > 1 then
      s.(expected := s.acc.frames, next := s.acc.(totalFrames := s.acc.frames), acc := EMPTY)
    else s.(acc := EMPTY)
  }

  // ----- resets -----

  /** The stream's user left. */
  function UserLeft(s: Stream): Stream {
    s.(prevDs := ZERO_GUID, lastGuid := ZERO_GUID, holdCount := 0, emptyCount := 0, synced := false,
       lastSeq := -1, next := EMPTY, pending := EMPTY, acc := EMPTY, awaiting := [])
  }

  /** The app came back to the foreground. */
  function ForegroundReset(s: Stream): Stream {
    NEW_STREAM.(drops := s.drops, liveIdx := s.liveIdx)
  }

  // ----- what the audio queues say -----

  function Slots(c: Channel): (r: seq<Option<Decode>>)
    ensures |r| == 3
  {
    [c.ds, c.next0, c.next1]
  }

  predicate Holds(o: Option<Decode>, g: Guid) {
    o.Some? && o.value.guid == g
  }

  /** Swaps until the user's audio with this guid plays: 0 when it plays now, -1 when no
      queue holds it. */
  function QueuePosition(chs: seq<Channel>, g: Guid): (pos: int)
    ensures pos >= -1
  {
    if chs == [] then -1
    else
      var c := chs[0];
      if c.videoOnly then QueuePosition(chs[1..], g)
      else if Holds(c.ds, g) then c.hold
      else if Holds(c.next0, g) then 1 + c.hold
      else if Holds(c.next1, g) then 2 + c.hold
      else QueuePosition(chs[1..], g)
  }

  predicate IsInterval(o: Option<Decode>, session: Guid, interval: int) {
    o.Some? && IntervalOf(o.value.guid) == Some(interval) && SameSession(o.value.guid, session)
  }

  predicate IsLater(o: Option<Decode>, session: Guid, interval: int) {
    o.Some? && IntervalOf(o.value.guid).Some? && SameSession(o.value.guid, session) &&
    Ahead(IntervalOf(o.value.guid).value, interval) > 0
  }

  /** The same for the audio of one interval of a sender's session. */
  function IntervalPosition(chs: seq<Channel>, session: Guid, interval: int): (pos: int)
    ensures pos >= -1
  {
    if chs == [] then -1
    else
      var c := chs[0];
      if c.videoOnly then IntervalPosition(chs[1..], session, interval)
      else if IsInterval(c.ds, session, interval) then c.hold
      else if IsInterval(c.next0, session, interval) then 1 + c.hold
      else if IsInterval(c.next1, session, interval) then 2 + c.hold
      else IntervalPosition(chs[1..], session, interval)
  }

  /** A queue already holds a later interval of that session. */
  predicate Passed(chs: seq<Channel>, session: Guid, interval: int) {
    exists i :: 0 <= i < |chs| && !chs[i].videoOnly &&
      (IsLater(chs[i].ds, session, interval) || IsLater(chs[i].next0, session, interval) || IsLater(chs[i].next1, session, interval))
  }

  // ----- the swap -----

  function Promoted(s: Stream): Stream {
    if s.pending.active && s.pending.frames >= 1 then s.(playing := s.pending, pending := EMPTY, frameIdx := 0) else s
  }

  function Unrouted(s: Stream): Stream {
    s.(appending := false, toNext := false, toPending := false, appendGuid := ZERO_GUID)
  }

  function Matched(s: Stream, b: Buffer): Stream {
    s.(synced := true, lastSeq := b.senderSeq, lastGuid := b.audioGuid)
  }

  /** Held one swap in `pending`; late WRITEs follow it there. */
  function ToPendingSlot(s: Stream, b: Buffer): Stream {
    s.(pending := b, appendGuid := b.guid, appending := true, toNext := false, toPending := true)
  }

  function AwaitPosition(b: Buffer, chs: seq<Channel>): int {
    if b.ownInterval >= 0 then IntervalPosition(chs, b.audioGuid, b.ownInterval) else QueuePosition(chs, b.audioGuid)
  }

  predicate OwnMatch(b: Buffer) {
    b.ownAudio || b.ownInterval >= 0
  }

  /** The oldest waiting interval stays: its audio is still queued, or has not arrived. */
  predicate StillWaits(b: Buffer, chs: seq<Channel>) {
    var pos := AwaitPosition(b, chs);
    pos > 0 || (pos < 0 && b.ownInterval >= 0 && !Passed(chs, b.audioGuid, b.ownInterval))
  }

  /** Intervals that waited for their audio, oldest first. */
  function Swept(s: Stream, chs: seq<Channel>): Stream
    decreases |s.awaiting|
  {
    if s.awaiting == [] || StillWaits(s.awaiting[0], chs) then s
    else
      var b, rest := s.awaiting[0], s.awaiting[1..];
      var pos := AwaitPosition(b, chs);
      if pos == 0 && OwnMatch(b) then
        Swept(Matched(s, b).(playing := b, frameIdx := 0, awaiting := rest), chs)
      else if pos == 0 then ToPendingSlot(Matched(s, b), b).(awaiting := rest)
      else Swept(s.(awaiting := rest), chs)
  }

  /** A channel holds back the marker's audio or the one after it. */
  predicate HoldsBack(c: Channel, marker: Guid) {
    && !c.videoOnly && c.hold > 0 && c.ds.Some?
    && IntervalOf(marker).Some? && IntervalOf(c.ds.value.guid).Some?
    && (IntervalOf(c.ds.value.guid) == IntervalOf(marker) || FollowsMarker(c.ds.value.guid, marker))
    && SameSession(c.ds.value.guid, marker)
  }

  predicate FollowsMarker(g: Guid, marker: Guid) {
    IntervalOf(marker).Some? && IntervalOf(g) == Some((IntervalOf(marker).value + 1) % TWO_32)
  }

  /** The first channel that holds the audio back; |chs| when none does. */
  function FirstHolding(chs: seq<Channel>, marker: Guid): (r: nat)
    ensures r <= |chs| && (r < |chs| ==> HoldsBack(chs[r], marker))
    ensures forall i :: 0 <= i < r ==> !HoldsBack(chs[i], marker)
  {
    if chs == [] || HoldsBack(chs[0], marker) then 0 else 1 + FirstHolding(chs[1..], marker)
  }

  predicate Audible(c: Channel) {
    !c.videoOnly && Sounds(c)
  }

  /** The guid of the audio the sender is heard with: the one the marker names if it plays,
      else that of the first channel that plays. */
  function FirstAudible(chs: seq<Channel>): Option<Guid> {
    if chs == [] then None
    else if Audible(chs[0]) then Some(chs[0].ds.value.guid)
    else FirstAudible(chs[1..])
  }

  lemma {:induction false} FirstAudibleIs(chs: seq<Channel>)
    ensures FirstAudible(chs).Some? <==> exists i :: 0 <= i < |chs| && Audible(chs[i])
    ensures FirstAudible(chs).Some? ==> PlaysNow(chs, FirstAudible(chs).value)
  {
    if chs != [] {
      FirstAudibleIs(chs[1..]);
      if i :| 0 <= i < |chs| && Audible(chs[i]) && i > 0 {
        assert chs[1..][i - 1] == chs[i];
      }
      if !Audible(chs[0]) && FirstAudible(chs[1..]).Some? {
        var g := FirstAudible(chs[1..]).value;
        var i :| 0 <= i < |chs[1..]| && Audible(chs[1..][i]) && chs[1..][i].ds.value.guid == g;
        assert chs[i + 1] == chs[1..][i];
      }
    }
  }

  predicate PlaysNow(chs: seq<Channel>, g: Guid) {
    exists i :: 0 <= i < |chs| && Audible(chs[i]) && chs[i].ds.value.guid == g
  }

  datatype Match = NoMarker | DsMatch | PrevMatch | Mismatch

  function MatchOf(s: Stream, chs: seq<Channel>): Match {
    var marker := s.next.audioGuid;
    if marker == ZERO_GUID then NoMarker
    else if PlaysNow(chs, marker) then DsMatch
    else if FirstAudible(chs).Some? && s.prevDs == marker then PrevMatch
    else Mismatch
  }

  /** The guid prevDs keeps after a swap that evaluates `next`. */
  function HeardGuid(s: Stream, chs: seq<Channel>): Guid {
    if s.next.audioGuid != ZERO_GUID && PlaysNow(chs, s.next.audioGuid) then s.next.audioGuid
    else if FirstAudible(chs).Some? then FirstAudible(chs).value
    else ZERO_GUID
  }

  function WaitsForAudio(s: Stream, c: Channel): Stream
    requires c.ds.Some?
  {
    var own := FollowsMarker(c.ds.value.guid, s.next.audioGuid);
    var slot := if own then s.next.(audioGuid := c.ds.value.guid, ownAudio := true) else s.next;
    s.(awaiting := Await(s.awaiting, slot), next := EMPTY)
  }

  /** What becomes of `next` when nothing holds its audio back. */
  function Looked(s: Stream, chs: seq<Channel>): Stream {
    var marker := s.next.audioGuid;
    var match_ := MatchOf(s, chs);
    if FirstAudible(chs).None? then s.(holdCount := 0, emptyCount := 0)
    else if match_.Mismatch? && QueuePosition(chs, marker) > 0 then
      s.(awaiting := Await(s.awaiting, s.next), next := EMPTY, holdCount := 0, emptyCount := 0)
    else if match_.Mismatch? then
      if s.holdCount + 1 >= HOLD_CAP then
        s.(drops := s.drops + 1, next := EMPTY, holdCount := 0, emptyCount := 0, synced := false)
      else s.(holdCount := s.holdCount + 1, emptyCount := 0)
    else Accepted(s, match_.DsMatch?)
  }

  /** What plays now is audible one swap later, so its video waits in `pending`. */
  function Accepted(s: Stream, dsMatch: bool): Stream {
    var t := Matched(s, s.next).(holdCount := 0, emptyCount := 0);
    (if dsMatch then ToPendingSlot(t, s.next) else t.(playing := s.next, frameIdx := 0)).(next := EMPTY)
  }

  function Evaluated(s: Stream, chs: seq<Channel>): Stream {
    var marker := s.next.audioGuid;
    var w := FirstHolding(chs, marker);
    if marker != ZERO_GUID && w < |chs| then WaitsForAudio(s, chs[w])
    else Looked(s, chs).(prevDs := HeardGuid(s, chs))
  }

  function FellBack(s: Stream, chs: seq<Channel>): Stream {
    if |chs| > 0 && Sounds(chs[0]) && s.synced then
      s.(holdCount := 0, emptyCount := 0, playing := s.acc, frameIdx := 0,
         appendGuid := s.acc.guid, appending := true, toNext := false, toPending := false,
         acc := s.acc.(data := [], offsets := [], frames := 0))
    else s
  }

  predicate Ready(b: Buffer) {
    b.active && b.frames >= 1
  }

  /** What on_new_interval does to a stream, given its user's channels after the swap. */
  function SwappedStream(s: Stream, chs: seq<Channel>): Stream {
    var t := Swept(Unrouted(Promoted(s)), chs);
    if Ready(t.next) then Evaluated(t, chs)
    else if Ready(t.acc) then FellBack(t, chs)
    else t.(holdCount := 0, emptyCount := t.emptyCount + 1)
  }
}
