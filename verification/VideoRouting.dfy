/** All video streams together: every WRITE's bytes go only to a buffer with the WRITE's own
    guid, in the stream its BEGIN belongs to. */
module VideoRouting {
  import opened Bytes
  import opened IntervalTag
  import opened Channels
  import opened VideoBuffers
  import opened VideoStreams

  datatype StreamId = StreamId(user: string, chidx: nat)

  datatype Entry = Entry(id: StreamId, s: Stream)

  /** The streams in the order they were created, and the downloads in progress. */
  datatype System = System(streams: seq<Entry>, trackers: map<Guid, StreamId>)

  datatype Event =
    | Begin(id: StreamId, guid: Guid, seqNo: int)
    | Data(guid: Guid, w: seq<Byte>, end: bool, live: bool)
    | Swap(users: map<string, seq<Channel>>)
    | Leave(user: string)
    | Foreground
    | Disconnect

  // ----- looking streams up -----

  function IndexOf(streams: seq<Entry>, id: StreamId): (r: nat)
    ensures r <= |streams| && (r < |streams| ==> streams[r].id == id)
    ensures forall i :: 0 <= i < r ==> streams[i].id != id
  {
    if streams == [] then 0
    else if streams[0].id == id then 0
    else 1 + IndexOf(streams[1..], id)
  }

  /** The stream mentions this download: as the one accumulating, appended or awaiting. */
  predicate Mentions(s: Stream, guid: Guid) {
    s.acc.guid == guid || (s.appending && s.appendGuid == guid) || IsAwaiting(s, guid)
  }

  function FindByGuid(streams: seq<Entry>, guid: Guid): (r: nat)
    ensures r <= |streams| && (r < |streams| ==> Mentions(streams[r].s, guid))
    ensures forall i :: 0 <= i < r ==> !Mentions(streams[i].s, guid)
  {
    if streams == [] then 0
    else if Mentions(streams[0].s, guid) then 0
    else 1 + FindByGuid(streams[1..], guid)
  }

  /** The list with the stream present. */
  function WithStream(streams: seq<Entry>, id: StreamId): (r: seq<Entry>)
    ensures IndexOf(streams, id) < |r| && r[IndexOf(streams, id)].id == id
    ensures streams <= r
  {
    if IndexOf(streams, id) < |streams| then streams else streams + [Entry(id, NEW_STREAM)]
  }

  function UpdateAt(streams: seq<Entry>, i: nat, s: Stream): seq<Entry>
    requires i < |streams|
  {
    streams[i := streams[i].(s := s)]
  }

  // ----- the steps -----

  function AfterBegin(sys: System, id: StreamId, guid: Guid, seqNo: int): System {
    var streams := WithStream(sys.streams, id);
    var i := IndexOf(sys.streams, id);
    System(UpdateAt(streams, i, Begun(streams[i].s, guid, seqNo)), sys.trackers[guid := id])
  }

  /** Where a tracked download's bytes are looked for: a stream that mentions it, else the
      stream its BEGIN named. */
  function Target(sys: System, guid: Guid): (r: (seq<Entry>, nat))
    requires guid in sys.trackers
    ensures r.1 < |r.0| && sys.streams <= r.0
  {
    var i := FindByGuid(sys.streams, guid);
    if i < |sys.streams| then (sys.streams, i)
    else (WithStream(sys.streams, sys.trackers[guid]), IndexOf(sys.streams, sys.trackers[guid]))
  }

  function AfterBytes(sys: System, guid: Guid, w: seq<Byte>, live: bool): System
    requires guid in sys.trackers
  {
    var (streams, i) := Target(sys, guid);
    System(UpdateAt(streams, i, Written(streams[i].s, guid, w, live)), sys.trackers)
  }

  function AfterEnd(sys: System, guid: Guid): System {
    var i := FindByGuid(sys.streams, guid);
    System(if i < |sys.streams| then UpdateAt(sys.streams, i, Finished(sys.streams[i].s, guid)) else sys.streams,
           sys.trackers - {guid})
  }

  function AfterData(sys: System, guid: Guid, w: seq<Byte>, end: bool, live: bool): System {
    if guid !in sys.trackers then sys
    else
      var t := if w == [] then sys else AfterBytes(sys, guid, w, live);
      if end then AfterEnd(t, guid) else t
  }

  function ChannelsOf(users: map<string, seq<Channel>>, user: string): seq<Channel> {
    if user in users then users[user] else []
  }

  /** The same change to every stream. */
  function MapStreams(streams: seq<Entry>, f: Entry -> Stream): (r: seq<Entry>)
    ensures |r| == |streams| && forall i :: 0 <= i < |r| ==> r[i] == streams[i].(s := f(streams[i]))
  {
    seq(|streams|, i requires 0 <= i < |streams| => streams[i].(s := f(streams[i])))
  }

  function Step(sys: System, e: Event): System {
    match e
    case Begin(id, guid, seqNo) => AfterBegin(sys, id, guid, seqNo)
    case Data(guid, w, end, live) => AfterData(sys, guid, w, end, live)
    case Swap(users) =>
      sys.(streams := MapStreams(sys.streams, (x: Entry) => SwappedStream(x.s, ChannelsOf(users, x.id.user))))
    case Leave(user) =>
      System(MapStreams(sys.streams, (x: Entry) => if x.id.user == user then UserLeft(x.s) else x.s),
             map g | g in sys.trackers && sys.trackers[g].user != user :: sys.trackers[g])
    case Foreground => sys.(streams := MapStreams(sys.streams, (x: Entry) => ForegroundReset(x.s)))
    case Disconnect => sys.(trackers := map[])
  }

  // ----- what every step keeps -----

  /** The append flags of one stream, for downloads still tracked. */
  predicate Routed(s: Stream, tracked: set<Guid>) {
    s.appending && s.appendGuid in tracked ==>
      && Selected(s).guid == s.appendGuid
      && (s.toNext && !s.toPending ==> s.acc.guid == s.appendGuid || s.acc.guid == ZERO_GUID)
  }

  /** Every download a stream knows of. */
  function Guids(s: Stream): set<Guid> {
    {s.acc.guid, s.next.guid, s.pending.guid, s.playing.guid, s.appendGuid} +
    (set i | 0 <= i < |s.awaiting| :: s.awaiting[i].guid)
  }

  /** What a BEGIN does to `next`. */
  lemma MovedOnGuids(s: Stream)
    ensures Guids(NextMovedOn(s)) <= Guids(s) + {ZERO_GUID}
    ensures NextMovedOn(s).appending == s.appending && NextMovedOn(s).appendGuid == s.appendGuid
  {
    hide Guids, Await, OwnInterval, IntervalOf;
    NextMovedGuids(s, s.next);
    NextMovedGuids(s, s.next.(ownInterval := OwnInterval(s.next.audioGuid)));
  }

  lemma AccReplacedGuids(s: Stream, b: Buffer)
    ensures Guids(s.(acc := b, liveIdx := 0)) <= Guids(s) + {b.guid}
  {
  }

  lemma BegunRouted(s: Stream, guid: Guid, seqNo: int, tracked: set<Guid>)
    ensures Routed(Begun(s, guid, seqNo), tracked)
    ensures Guids(Begun(s, guid, seqNo)) <= Guids(s) + {guid, ZERO_GUID}
  {
    hide NextMovedOn, Guids, SelectedComplete;
    var t := if s.appending then NotAppending(SelectedComplete(s)) else s;
    CompleteRouted(s, tracked);
    MovedOnGuids(t);
    AccReplacedGuids(NextMovedOn(t), EMPTY.(guid := guid, active := true, intervalSeq := seqNo));
  }

  lemma AwaitGuids(s: Stream, i: nat, r: Stream)
    requires i < |r.awaiting|
    requires r.awaiting == s.awaiting || exists b: Buffer :: r.awaiting == Await(s.awaiting, b) && b.guid == s.next.guid
    ensures r.awaiting[i].guid in Guids(s)
  {
    if r.awaiting != s.awaiting {
      var b: Buffer :| r.awaiting == Await(s.awaiting, b) && b.guid == s.next.guid;
      if i < |r.awaiting| - 1 {
        assert r.awaiting[i] in s.awaiting;
      }
    }
  }

  /** The bytes of a WRITE only ever go to a buffer that carries its guid. */
  lemma WriteSlotCarriesGuid(s: Stream, guid: Guid, tracked: set<Guid>)
    requires Routed(s, tracked) && guid in tracked
    ensures WriteSlot(s, guid) != Nowhere ==> At(s, WriteSlot(s, guid)).guid == guid
  {
  }

  lemma AppendKeepsIdentity(b: Buffer, w: seq<Byte>)
    ensures Appended(b, w).guid == b.guid && Appended(b, w).audioGuid == b.audioGuid && Appended(b, w).active == b.active
    ensures Appended(b, w).frames > 0 ==> LiveRemoved(Appended(b, w)).guid == b.guid
    ensures MarkerRead(Appended(b, w)).guid == b.guid
  {
    hide BodyLength, Resized;
  }

  lemma PutKeepsRouting(s: Stream, slot: Slot, b: Buffer, tracked: set<Guid>)
    requires Routed(s, tracked) && (slot.Awaiting? ==> slot.i < |s.awaiting|)
    requires b.guid == At(s, slot).guid
    ensures Routed(PutAt(s, slot, b), tracked)
    ensures Guids(PutAt(s, slot, b)) <= Guids(s)
  {
    var r := PutAt(s, slot, b);
    forall i | 0 <= i < |r.awaiting|
      ensures r.awaiting[i].guid in Guids(s)
    {
      assert r.awaiting[i].guid == s.awaiting[i].guid;
    }
  }

  lemma RedirectKeepsRouting(s: Stream, guid: Guid, tracked: set<Guid>)
    requires Routed(s, tracked) && guid in tracked && WriteSlot(s, guid) != Nowhere
    ensures Routed(Redirected(s, guid, WriteSlot(s, guid)), tracked)
    ensures Guids(Redirected(s, guid, WriteSlot(s, guid))) <= Guids(s) + {guid}
    ensures At(Redirected(s, guid, WriteSlot(s, guid)), WriteSlot(s, guid)) == At(s, WriteSlot(s, guid))
    ensures Redirected(s, guid, WriteSlot(s, guid)).awaiting == s.awaiting
  {
  }

  lemma WrittenRouted(s: Stream, guid: Guid, w: seq<Byte>, live: bool, tracked: set<Guid>)
    requires Routed(s, tracked) && guid in tracked
    ensures Routed(Written(s, guid, w, live), tracked)
    ensures Guids(Written(s, guid, w, live)) <= Guids(s) + {guid}
  {
    hide Appended, LiveRemoved, MarkerRead, Completes, Routed, Guids, WriteSlot, Redirected, PutAt, StartedPlaying;
    var slot := WriteSlot(s, guid);
    if slot != Nowhere {
      RedirectKeepsRouting(s, guid, tracked);
      var t := Redirected(s, guid, slot);
      AppendKeepsIdentity(At(t, slot), w);
      var b := Appended(At(t, slot), w);
      PutKeepsRouting(t, slot, b, tracked);
      if Completes(At(t, slot), w) {
        CompletedHasFrame(At(t, slot), w);
        if live {
          PutKeepsRouting(t, slot, LiveRemoved(b), tracked);
          LiveIndexRouted(PutAt(t, slot, LiveRemoved(b)), t.liveIdx + 1, tracked);
        } else if slot.Accumulating? {
          var c := if b.frames == 1 then MarkerRead(b) else b;
          PutKeepsRouting(t, slot, c, tracked);
          StartKeepsRouting(PutAt(t, slot, c), tracked);
        }
      }
    }
  }

  lemma CompletedHasFrame(b: Buffer, w: seq<Byte>)
    requires Completes(b, w)
    ensures Appended(b, w).frames > 0
  {
    hide BodyLength, Resized;
  }

  lemma LiveIndexRouted(s: Stream, n: nat, tracked: set<Guid>)
    ensures Routed(s.(liveIdx := n), tracked) <==> Routed(s, tracked)
    ensures Guids(s.(liveIdx := n)) == Guids(s)
  {
  }

  lemma StartKeepsRouting(s: Stream, tracked: set<Guid>)
    ensures Routed(StartedPlaying(s), tracked)
    ensures Guids(StartedPlaying(s)) <= Guids(s)
  {
  }

  lemma AwaitingCompleteRouted(s: Stream, guid: Guid, expected: nat, tracked: set<Guid>)
    requires Routed(s, tracked)
    ensures var r := s.(awaiting := AllComplete(s.awaiting, guid), expected := expected);
            Routed(r, tracked) && Guids(r) <= Guids(s)
  {
    var r := s.(awaiting := AllComplete(s.awaiting, guid), expected := expected);
    forall i | 0 <= i < |r.awaiting|
      ensures r.awaiting[i].guid in Guids(s)
    {
      assert r.awaiting[i].guid == s.awaiting[i].guid;
    }
  }

  lemma CompleteRouted(s: Stream, tracked: set<Guid>)
    ensures Routed(NotAppending(SelectedComplete(s)), tracked)
    ensures Guids(NotAppending(SelectedComplete(s))) <= Guids(s) + {ZERO_GUID}
  {
  }

  /** END of a download that is only accumulating leaves the append target alone. */
  lemma AccumulatedRouted(s: Stream, guid: Guid, tracked: set<Guid>)
    requires Routed(s, tracked) && guid != ZERO_GUID && s.acc.guid == guid
    requires !(s.appending && s.appendGuid == guid)
    ensures var r := s.(expected := s.acc.frames, next := s.acc.(totalFrames := s.acc.frames), acc := EMPTY);
            Routed(r, tracked) && Guids(r) <= Guids(s) + {ZERO_GUID}
    ensures Routed(s.(acc := EMPTY), tracked) && Guids(s.(acc := EMPTY)) <= Guids(s) + {ZERO_GUID}
  {
  }

  /** END, for a download the stream mentions. */
  lemma FinishedRouted(s: Stream, guid: Guid, tracked: set<Guid>)
    requires Routed(s, tracked) && guid != ZERO_GUID && Mentions(s, guid)
    ensures Routed(Finished(s, guid), tracked)
    ensures Guids(Finished(s, guid)) <= Guids(s) + {ZERO_GUID}
  {
    hide LastCount, AllComplete, Routed, Guids, SelectedComplete, IsAwaiting;
    if IsAwaiting(s, guid) {
      AwaitingCompleteRouted(s, guid, LastCount(s.awaiting, guid, s.expected), tracked);
    } else if s.appending && s.appendGuid == guid {
      CompleteRouted(s, tracked);
    } else {
      AccumulatedRouted(s, guid, tracked);
    }
  }

  lemma {:induction false} SweptRouted(s: Stream, chs: seq<Channel>, tracked: set<Guid>)
    requires !s.appending && !s.toNext && !s.toPending
    ensures Routed(Swept(s, chs), tracked) && !Swept(s, chs).toNext
    ensures Swept(s, chs).toPending || !Swept(s, chs).appending
    ensures Guids(Swept(s, chs)) <= Guids(s)
    ensures Swept(s, chs).next == s.next && Swept(s, chs).acc == s.acc
    decreases |s.awaiting|
  {
    hide AwaitPosition, StillWaits, Guids;
    if s.awaiting != [] && !StillWaits(s.awaiting[0], chs) {
      var b, rest := s.awaiting[0], s.awaiting[1..];
      SweepGuids(s, b, rest);
      if AwaitPosition(b, chs) == 0 && OwnMatch(b) {
        SweptRouted(Matched(s, b).(playing := b, frameIdx := 0, awaiting := rest), chs, tracked);
      } else if AwaitPosition(b, chs) != 0 {
        SweptRouted(s.(awaiting := rest), chs, tracked);
      }
    }
  }

  lemma SweepGuids(s: Stream, b: Buffer, rest: seq<Buffer>)
    requires s.awaiting == [b] + rest
    ensures Guids(Matched(s, b).(playing := b, frameIdx := 0, awaiting := rest)) <= Guids(s)
    ensures Guids(ToPendingSlot(Matched(s, b), b).(awaiting := rest)) <= Guids(s)
    ensures Guids(s.(awaiting := rest)) <= Guids(s)
  {
    assert s.awaiting[0] == b;
    forall i | 0 <= i < |rest|
      ensures rest[i].guid in Guids(s)
    {
      assert rest[i] == s.awaiting[i + 1];
    }
  }

  /** What moving `next` on does to the guids, wherever it goes. */
  lemma NextMovedGuids(s: Stream, b: Buffer)
    requires b.guid == s.next.guid
    ensures Guids(s.(awaiting := Await(s.awaiting, b), next := EMPTY)) <= Guids(s) + {ZERO_GUID}
    ensures Guids(s.(next := EMPTY)) <= Guids(s) + {ZERO_GUID}
    ensures Guids(ToPendingSlot(s, b).(next := EMPTY)) <= Guids(s) + {ZERO_GUID}
    ensures Guids(s.(playing := b, frameIdx := 0, next := EMPTY)) <= Guids(s) + {ZERO_GUID}
  {
    var r := s.(awaiting := Await(s.awaiting, b), next := EMPTY);
    forall i | 0 <= i < |r.awaiting|
      ensures r.awaiting[i].guid in Guids(s)
    {
      AwaitGuids(s, i, r);
    }
  }

  lemma NextMovedRouted(s: Stream, b: Buffer, tracked: set<Guid>)
    requires Routed(s, tracked) && !s.toNext && b.guid == s.next.guid
    ensures Routed(s.(awaiting := Await(s.awaiting, b), next := EMPTY), tracked)
    ensures Routed(s.(next := EMPTY), tracked)
    ensures Routed(ToPendingSlot(s, b).(next := EMPTY), tracked)
    ensures s.toPending || !s.appending ==> Routed(s.(playing := b, frameIdx := 0, next := EMPTY), tracked)
  {
  }

  /** Counters and match records do not matter to the routing. */
  lemma BookkeepingRouted(s: Stream, t: Stream, tracked: set<Guid>)
    requires t == s.(holdCount := t.holdCount, emptyCount := t.emptyCount, synced := t.synced, drops := t.drops,
                     lastSeq := t.lastSeq, lastGuid := t.lastGuid, prevDs := t.prevDs)
    ensures Routed(t, tracked) <==> Routed(s, tracked)
    ensures Guids(t) == Guids(s)
  {
  }

  lemma EvaluatedRouted(s: Stream, chs: seq<Channel>, tracked: set<Guid>)
    requires Routed(s, tracked) && !s.toNext && (s.toPending || !s.appending)
    ensures Routed(Evaluated(s, chs), tracked)
    ensures Guids(Evaluated(s, chs)) <= Guids(s) + {ZERO_GUID}
  {
    hide FirstHolding, HeardGuid, MatchOf, QueuePosition, FirstAudible, FollowsMarker, Routed, Guids, Await;
    var w := FirstHolding(chs, s.next.audioGuid);
    if s.next.audioGuid != ZERO_GUID && w < |chs| {
      var own := FollowsMarker(chs[w].ds.value.guid, s.next.audioGuid);
      var slot := if own then s.next.(audioGuid := chs[w].ds.value.guid, ownAudio := true) else s.next;
      NextMovedGuids(s, slot);
      NextMovedRouted(s, slot, tracked);
    } else {
      NextMovedGuids(s, s.next);
      NextMovedRouted(s, s.next, tracked);
      var r := Evaluated(s, chs);
      BookkeepingRouted(s, s.(holdCount := r.holdCount, emptyCount := r.emptyCount, prevDs := r.prevDs), tracked);
      BookkeepingRouted(s.(awaiting := Await(s.awaiting, s.next), next := EMPTY),
                        s.(awaiting := Await(s.awaiting, s.next), next := EMPTY, holdCount := r.holdCount,
                           emptyCount := r.emptyCount, prevDs := r.prevDs), tracked);
      BookkeepingRouted(s.(next := EMPTY),
                        s.(next := EMPTY, holdCount := r.holdCount, emptyCount := r.emptyCount, prevDs := r.prevDs,
                           drops := r.drops, synced := r.synced), tracked);
      BookkeepingRouted(ToPendingSlot(s, s.next).(next := EMPTY),
                        ToPendingSlot(s, s.next).(next := EMPTY, holdCount := r.holdCount, emptyCount := r.emptyCount,
                          prevDs := r.prevDs, synced := r.synced, lastSeq := r.lastSeq, lastGuid := r.lastGuid), tracked);
      BookkeepingRouted(s.(playing := s.next, frameIdx := 0, next := EMPTY),
                        s.(playing := s.next, frameIdx := 0, next := EMPTY, holdCount := r.holdCount,
                           emptyCount := r.emptyCount, prevDs := r.prevDs, synced := r.synced, lastSeq := r.lastSeq,
                           lastGuid := r.lastGuid), tracked);
    }
  }

  lemma SwappedRouted(s: Stream, chs: seq<Channel>, tracked: set<Guid>)
    ensures Routed(SwappedStream(s, chs), tracked)
    ensures Guids(SwappedStream(s, chs)) <= Guids(s) + {ZERO_GUID}
  {
    hide Swept, Evaluated, Guids, Routed;
    var u := Unrouted(Promoted(s));
    PromotedGuids(s);
    SweptRouted(u, chs, tracked);
    var t := Swept(u, chs);
    EvaluatedRouted(t, chs, tracked);
    FallbackRouted(t, chs, tracked);
  }

  lemma PromotedGuids(s: Stream)
    ensures Guids(Unrouted(Promoted(s))) <= Guids(s) + {ZERO_GUID}
  {
  }

  lemma FallbackRouted(s: Stream, chs: seq<Channel>, tracked: set<Guid>)
    requires Routed(s, tracked)
    ensures Routed(FellBack(s, chs), tracked) && Guids(FellBack(s, chs)) <= Guids(s)
    ensures Routed(s.(holdCount := 0, emptyCount := s.emptyCount + 1), tracked)
    ensures Guids(s.(holdCount := 0, emptyCount := s.emptyCount + 1)) == Guids(s)
  {
  }

  // ----- the invariant of the whole system -----

  /** owner is the stream each download's BEGIN named. */
  ghost predicate Invariant(sys: System, owner: map<Guid, StreamId>) {
    && (forall i, j :: 0 <= i < j < |sys.streams| ==> sys.streams[i].id != sys.streams[j].id)
    && (forall g :: g in sys.trackers ==> g in owner && owner[g] == sys.trackers[g])
    && ZERO_GUID !in owner
    && (forall i :: 0 <= i < |sys.streams| ==>
          StreamOk(sys.streams[i], sys.trackers.Keys, owner))
  }

  ghost predicate StreamOk(x: Entry, tracked: set<Guid>, owner: map<Guid, StreamId>) {
    && Routed(x.s, tracked)
    && (forall g :: g in Guids(x.s) && g != ZERO_GUID ==> g in owner && owner[g] == x.id)
  }

  /** A BEGIN brings a guid never seen before. */
  predicate Fair(owner: map<Guid, StreamId>, e: Event) {
    e.Begin? ==> e.guid != ZERO_GUID && e.guid !in owner
  }

  ghost function Owners(owner: map<Guid, StreamId>, e: Event): map<Guid, StreamId> {
    if e.Begin? then owner[e.guid := e.id] else owner
  }

  lemma MentionedIsKnown(s: Stream, guid: Guid)
    requires Mentions(s, guid)
    ensures guid in Guids(s)
  {
  }

  /** A tracked download is found in the stream its BEGIN named, and nowhere else. */
  lemma FoundInOwnStream(sys: System, owner: map<Guid, StreamId>, guid: Guid)
    requires Invariant(sys, owner) && guid in sys.trackers
    ensures Target(sys, guid).0[Target(sys, guid).1].id == sys.trackers[guid]
  {
    hide Guids, Mentions, Routed;
    var i := FindByGuid(sys.streams, guid);
    if i < |sys.streams| {
      MentionedIsKnown(sys.streams[i].s, guid);
      assert StreamOk(sys.streams[i], sys.trackers.Keys, owner);
    }
  }

  lemma NewStreamOk(id: StreamId, tracked: set<Guid>, owner: map<Guid, StreamId>)
    ensures StreamOk(Entry(id, NEW_STREAM), tracked, owner)
  {
  }

  lemma FewerTracked(s: Stream, more: set<Guid>, fewer: set<Guid>)
    requires Routed(s, more) && fewer <= more
    ensures Routed(s, fewer)
  {
  }

  lemma WithStreamKeeps(sys: System, owner: map<Guid, StreamId>, id: StreamId)
    requires Invariant(sys, owner)
    ensures Invariant(sys.(streams := WithStream(sys.streams, id)), owner)
  {
    hide StreamOk;
    NewStreamOk(id, sys.trackers.Keys, owner);
  }

  lemma UpdateKeeps(sys: System, owner: map<Guid, StreamId>, i: nat, s: Stream)
    requires Invariant(sys, owner) && i < |sys.streams|
    requires StreamOk(sys.streams[i].(s := s), sys.trackers.Keys, owner)
    ensures Invariant(sys.(streams := UpdateAt(sys.streams, i, s)), owner)
  {
    hide StreamOk;
  }

  lemma BeginKeeps(sys: System, owner: map<Guid, StreamId>, id: StreamId, guid: Guid, seqNo: int)
    requires Invariant(sys, owner) && guid != ZERO_GUID && guid !in owner
    ensures Invariant(AfterBegin(sys, id, guid, seqNo), owner[guid := id])
  {
    hide Guids, Begun, Routed;
    var streams, i := WithStream(sys.streams, id), IndexOf(sys.streams, id);
    WithStreamKeeps(sys, owner, id);
    var r := AfterBegin(sys, id, guid, seqNo);
    forall k | 0 <= k < |r.streams|
      ensures StreamOk(r.streams[k], r.trackers.Keys, owner[guid := id])
    {
      assert StreamOk(streams[k], sys.trackers.Keys, owner);
      if k == i {
        BegunRouted(streams[i].s, guid, seqNo, r.trackers.Keys);
      } else {
        NewcomerNotAppended(streams[k].s, guid, sys.trackers.Keys, r.trackers.Keys);
        assert guid !in Guids(streams[k].s);
      }
    }
  }

  lemma NewcomerNotAppended(s: Stream, guid: Guid, tracked: set<Guid>, more: set<Guid>)
    requires Routed(s, tracked) && more == tracked + {guid}
    ensures guid !in Guids(s) ==> Routed(s, more)
  {
  }

  lemma BytesKeep(sys: System, owner: map<Guid, StreamId>, guid: Guid, w: seq<Byte>, live: bool)
    requires Invariant(sys, owner) && guid in sys.trackers
    ensures Invariant(AfterBytes(sys, guid, w, live), owner)
  {
    hide Guids, Written, Routed, FindByGuid, IndexOf;
    var (streams, i) := Target(sys, guid);
    FoundInOwnStream(sys, owner, guid);
    if streams != sys.streams {
      WithStreamKeeps(sys, owner, sys.trackers[guid]);
    }
    var grown := sys.(streams := streams);
    assert StreamOk(streams[i], sys.trackers.Keys, owner);
    WrittenRouted(streams[i].s, guid, w, live, sys.trackers.Keys);
    UpdateKeeps(grown, owner, i, Written(streams[i].s, guid, w, live));
  }

  lemma FinishedOk(x: Entry, guid: Guid, tracked: set<Guid>, owner: map<Guid, StreamId>)
    requires StreamOk(x, tracked, owner) && guid != ZERO_GUID
    ensures StreamOk(x, tracked - {guid}, owner)
    ensures Mentions(x.s, guid) ==> StreamOk(x.(s := Finished(x.s, guid)), tracked - {guid}, owner)
  {
    hide Guids, Finished, Routed, Mentions;
    FewerTracked(x.s, tracked, tracked - {guid});
    if Mentions(x.s, guid) {
      FinishedRouted(x.s, guid, tracked - {guid});
    }
  }

  lemma EndKeeps(sys: System, owner: map<Guid, StreamId>, guid: Guid)
    requires Invariant(sys, owner) && guid in sys.trackers
    ensures Invariant(AfterEnd(sys, guid), owner)
  {
    hide StreamOk, Finished, Mentions;
    var r := AfterEnd(sys, guid);
    assert r.trackers.Keys == sys.trackers.Keys - {guid};
    forall k | 0 <= k < |sys.streams|
      ensures StreamOk(r.streams[k], r.trackers.Keys, owner)
    {
      FinishedOk(sys.streams[k], guid, sys.trackers.Keys, owner);
    }
  }

  lemma LeaveKeeps(sys: System, owner: map<Guid, StreamId>, user: string)
    requires Invariant(sys, owner)
    ensures Invariant(Step(sys, Leave(user)), owner)
  {
    hide Guids, Routed;
    var r := Step(sys, Leave(user));
    forall k | 0 <= k < |r.streams|
      ensures StreamOk(r.streams[k], r.trackers.Keys, owner)
    {
      var x := sys.streams[k];
      assert StreamOk(x, sys.trackers.Keys, owner);
      FewerTracked(x.s, sys.trackers.Keys, r.trackers.Keys);
      if x.id.user == user {
        UserLeftOk(x.s, r.trackers.Keys);
        assert x.s.appendGuid in Guids(x.s) by { AppendGuidKnown(x.s); }
      }
    }
  }

  lemma AppendGuidKnown(s: Stream)
    ensures s.appendGuid in Guids(s)
  {
  }

  lemma UserLeftOk(s: Stream, tracked: set<Guid>)
    ensures s.appendGuid !in tracked ==> Routed(UserLeft(s), tracked)
    ensures Guids(UserLeft(s)) <= Guids(s) + {ZERO_GUID}
    ensures Guids(ForegroundReset(s)) == {ZERO_GUID} && Routed(ForegroundReset(s), tracked)
  {
  }

  lemma AllStreamsKeep(sys: System, owner: map<Guid, StreamId>, e: Event)
    requires Invariant(sys, owner) && (e.Swap? || e.Foreground? || e.Disconnect?)
    ensures Invariant(Step(sys, e), owner)
  {
    hide Guids, Routed, SwappedStream;
    var r := Step(sys, e);
    forall k | 0 <= k < |r.streams|
      ensures StreamOk(r.streams[k], r.trackers.Keys, owner)
    {
      var x := sys.streams[k];
      assert StreamOk(x, sys.trackers.Keys, owner);
      UserLeftOk(x.s, r.trackers.Keys);
      FewerTracked(x.s, sys.trackers.Keys, r.trackers.Keys);
      if e.Swap? {
        SwappedRouted(x.s, ChannelsOf(e.users, x.id.user), r.trackers.Keys);
      }
    }
  }

  lemma StepKeepsInvariant(sys: System, owner: map<Guid, StreamId>, e: Event)
    requires Invariant(sys, owner) && Fair(owner, e)
    ensures Invariant(Step(sys, e), Owners(owner, e))
  {
    hide Invariant, AfterBegin, AfterBytes, AfterEnd;
    match e
    case Begin(id, guid, seqNo) => BeginKeeps(sys, owner, id, guid, seqNo);
    case Data(guid, w, end, live) =>
      if guid in sys.trackers {
        BytesKeep(sys, owner, guid, w, live);
        var t := if w == [] then sys else AfterBytes(sys, guid, w, live);
        assert t.trackers == sys.trackers by { BytesKeepTrackers(sys, guid, w, live); }
        if end {
          EndKeeps(t, owner, guid);
        }
      }
    case Swap(_) => AllStreamsKeep(sys, owner, e);
    case Leave(user) => LeaveKeeps(sys, owner, user);
    case Foreground => AllStreamsKeep(sys, owner, e);
    case Disconnect => AllStreamsKeep(sys, owner, e);
  }

  lemma BytesKeepTrackers(sys: System, guid: Guid, w: seq<Byte>, live: bool)
    requires guid in sys.trackers
    ensures AfterBytes(sys, guid, w, live).trackers == sys.trackers
  {
  }

  function Run(es: seq<Event>): System {
    if es == [] then System([], map[]) else Step(Run(es[..|es| - 1]), es[|es| - 1])
  }

  ghost function RunOwners(es: seq<Event>): map<Guid, StreamId> {
    if es == [] then map[] else Owners(RunOwners(es[..|es| - 1]), es[|es| - 1])
  }

  /** Along the whole run BEGINs bring fresh guids. */
  ghost predicate FairRun(es: seq<Event>) {
    forall k :: 0 <= k < |es| ==> Fair(RunOwners(es[..k]), es[k])
  }

  lemma {:induction false} RunKeepsInvariant(es: seq<Event>)
    requires FairRun(es)
    ensures Invariant(Run(es), RunOwners(es))
  {
    hide Step, Owners;
    if es != [] {
      var z := |es| - 1;
      forall k | 0 <= k < z
        ensures Fair(RunOwners(es[..z][..k]), es[..z][k])
      {
        assert es[..z][..k] == es[..k];
      }
      RunKeepsInvariant(es[..z]);
      hide Invariant;
      StepKeepsInvariant(Run(es[..z]), RunOwners(es[..z]), es[z]);
    }
  }

  /** In every reachable state, the bytes of a tracked download are looked for in the stream
      its BEGIN named, and go only to a buffer that carries the download's own guid. */
  lemma WritesStayWithTheirGuid(es: seq<Event>, guid: Guid)
    requires FairRun(es) && guid in Run(es).trackers
    ensures var (streams, i) := Target(Run(es), guid);
            && streams[i].id == Run(es).trackers[guid]
            && (WriteSlot(streams[i].s, guid) != Nowhere ==> At(streams[i].s, WriteSlot(streams[i].s, guid)).guid == guid)
  {
    hide Run, RunOwners, Guids, Routed, FindByGuid, IndexOf, WriteSlot;
    var sys, owner := Run(es), RunOwners(es);
    RunKeepsInvariant(es);
    FoundInOwnStream(sys, owner, guid);
    var (streams, i) := Target(sys, guid);
    if streams != sys.streams {
      WithStreamKeeps(sys, owner, sys.trackers[guid]);
    }
    assert Invariant(sys.(streams := streams), owner);
    assert StreamOk(streams[i], sys.trackers.Keys, owner);
    WriteSlotCarriesGuid(streams[i].s, guid, sys.trackers.Keys);
  }

  /** In every reachable state, whenever a stream is appending to a download still tracked,
      the buffer its flags select carries that download's guid. */
  lemma AppendTargetCarriesGuid(es: seq<Event>, i: nat)
    requires FairRun(es) && i < |Run(es).streams|
    requires Run(es).streams[i].s.appending && Run(es).streams[i].s.appendGuid in Run(es).trackers
    ensures Selected(Run(es).streams[i].s).guid == Run(es).streams[i].s.appendGuid
  {
    hide Run, RunOwners, Guids;
    RunKeepsInvariant(es);
    assert StreamOk(Run(es).streams[i], Run(es).trackers.Keys, RunOwners(es));
  }
}
