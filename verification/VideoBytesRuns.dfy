/** Over every run: what plays of a download is all of it, byte for byte, exactly while none of
    its WRITEs went astray; and which swaps make one stray. */
module VideoBytesRuns {
  import opened Bytes
  import opened IntervalTag
  import opened Channels
  import opened VideoBuffers
  import opened VideoStreams
  import opened VideoSync
  import opened VideoBytes

  // ----- whole runs -----

  /** The invariant along a run. */
  ghost predicate Kept(s: Stream, g: Guid, t: Track) {
    && R.Routed(s, t.tracked) && ZERO_GUID !in t.tracked && (g in t.tracked ==> t.begun)
    && (if t.begun then Whole(s, g, t) else g !in R.Guids(s) && t.sent == [])
  }

  lemma RoutedAfter(s: Stream, g: Guid, t: Track, e: Event)
    requires R.Routed(s, t.tracked) && ZERO_GUID !in t.tracked && Fair(s, t, e, g)
    ensures R.Routed(Step(s, e), Followed(s, t, e, g).tracked)
    ensures g !in R.Guids(s) && g != ZERO_GUID && !(e.Begin? && e.guid == g) && !(e.Data? && e.guid == g) ==>
              g !in R.Guids(Step(s, e))
  {
    hide R.Routed, R.Guids, Begun, Written, Finished, UserLeft, ForegroundReset, SwappedStream, Elsewhere, Strays, R.Mentions;
    var after := Followed(s, t, e, g).tracked;
    match e
    case Begin(h, seqNo) => R.BegunRouted(s, h, seqNo, after);
    case Data(h, w, live) => R.WrittenRouted(s, h, w, live, after);
    case End(h) =>
      R.FewerTracked(s, t.tracked, after);
      R.FinishedRouted(s, h, after);
    case Swap(chs) => R.SwappedRouted(s, chs, after);
    case _ => R.UserLeftOk(s, after);
  }

  lemma ReceivedHasBytes(sent: seq<seq<Byte>>, bodies: seq<seq<Byte>>)
    requires sent <= Writes(bodies) && AllSendable(bodies) && Received(sent).frames >= 1
    ensures Received(sent).data != []
  {
    var n := |sent|;
    assert Writes(bodies)[..n] == sent;
    var j, part := ReceivedSoFar(EMPTY, bodies, n);
    hide Writes, AppendedAll, Item, Chunks;
    assert Items(bodies[..j])[j - 1] == Item(bodies[j - 1]);
    ItemLength(bodies[j - 1]);
  }

  lemma AccHasBytes(s: Stream, g: Guid, t: Track, bodies: seq<seq<Byte>>)
    requires AccGood(s, g, t) && t.sent <= Writes(bodies) && AllSendable(bodies)
    ensures s.acc.guid == g && Ready(s.acc) ==> Received(t.sent).data != []
  {
    if s.acc.guid == g && Ready(s.acc) && !t.left {
      hide Received;
      ReceivedHasBytes(t.sent, bodies);
    }
  }

  lemma MoreReceived(t: Track, u: Track, w: seq<Byte>, bodies: seq<seq<Byte>>)
    requires u == t.(sent := t.sent + [w], strays := u.strays) && u.sent <= Writes(bodies) && AllSendable(bodies)
    ensures More(t, u, w)
  {
    hide Writes, Appended, AppendedAll;
    NextAddsBytes(EMPTY, bodies, t.sent, w);
  }

  lemma WholeAfterOther(s: Stream, g: Guid, t: Track, e: Event, bodies: seq<seq<Byte>>)
    requires Kept(s, g, t) && t.begun && Fair(s, t, e, g) && g != ZERO_GUID && !(e.Data? && e.guid == g)
    requires t.sent <= Writes(bodies) && AllSendable(bodies)
    ensures Whole(Step(s, e), g, Followed(s, t, e, g))
  {
    hide R.Routed, R.Guids, R.Mentions, Begun, Written, Finished, UserLeft, ForegroundReset, SwappedStream;
    hide Strays, Elsewhere, AllGood, AccGood, NextGood, Carriers, Writes, AllSendable, Received;
    match e
    case Begin(h, seqNo) =>
      BeginOtherKeeps(s, h, seqNo, g, t);
      var u := Now(Begun(s, h, seqNo), t, g);
      MoreTracked(Begun(s, h, seqNo), g, u, h);
    case Data(h, w, live) => DataOther(s, h, w, live, g, t);
    case End(h) => FinishedKeeps(s, h, g, t);
    case Leave => LeaveKeeps(s, g, t);
    case Foreground => LeaveKeeps(s, g, t);
    case Swap(chs) =>
      AccHasBytes(s, g, t, bodies);
      SwapKeeps(s, chs, g, t);
  }

  lemma MoreTracked(s: Stream, g: Guid, t: Track, h: Guid)
    requires Whole(s, g, t) && h != g
    ensures Whole(s, g, t.(tracked := t.tracked + {h}))
  {
    hide Received, Content, Carriers, AllGood;
    OtherwiseSame(s, s, g, t, t.(tracked := t.tracked + {h}));
  }

  lemma StepKept(s: Stream, g: Guid, t: Track, e: Event, bodies: seq<seq<Byte>>)
    requires Kept(s, g, t) && Fair(s, t, e, g) && g != ZERO_GUID
    requires Followed(s, t, e, g).sent <= Writes(bodies) && AllSendable(bodies)
    ensures Kept(Step(s, e), g, Followed(s, t, e, g))
  {
    hide R.Routed, R.Guids, R.Mentions, Begun, Written, Finished, UserLeft, ForegroundReset, SwappedStream;
    hide Strays, Elsewhere, Whole, Writes, AllSendable;
    RoutedAfter(s, g, t, e);
    if e.Begin? && e.guid == g {
      R.BegunRouted(s, ZERO_GUID, e.seqNo, t.tracked);
      BeginOwn(s, e.seqNo, g, t);
    } else if e.Data? && e.guid == g {
      var u := t.(sent := t.sent + [e.w], strays := Followed(s, t, e, g).strays);
      MoreReceived(t, u, e.w, bodies);
      DataOwn(s, e.w, g, t, u);
    } else if t.begun {
      WholeAfterOther(s, g, t, e, bodies);
    }
  }

  lemma NewKept(g: Guid)
    requires g != ZERO_GUID
    ensures Kept(NEW_STREAM, g, NO_TRACK)
  {
  }

  lemma PrefixFair(es: seq<Event>, g: Guid)
    requires FairRun(es, g) && es != []
    ensures FairRun(es[..|es| - 1], g)
  {
    hide Ran, Following, Fair;
    var z := |es| - 1;
    forall k | 0 <= k < z
      ensures Fair(Ran(NEW_STREAM, es[..z][..k]), Following(es[..z][..k], g), es[..z][k], g)
    {
      assert es[..z][..k] == es[..k];
    }
  }

  predicate NotBegun(t: Track, g: Guid) {
    !t.begun ==> t.sent == [] && g !in t.tracked
  }

  lemma SentStep(s: Stream, t: Track, e: Event, g: Guid)
    requires Fair(s, t, e, g) && NotBegun(t, g)
    ensures t.sent <= Followed(s, t, e, g).sent && NotBegun(Followed(s, t, e, g), g)
  {
    hide Step, Elsewhere, Strays, R.Mentions;
  }

  /** What was received before is a prefix of what is received in the end. */
  lemma {:induction false} SentGrows(es: seq<Event>, g: Guid)
    requires FairRun(es, g)
    ensures NotBegun(Following(es, g), g)
    ensures es != [] ==> Following(es[..|es| - 1], g).sent <= Following(es, g).sent
  {
    hide Ran, Followed, Fair;
    if es != [] {
      PrefixFair(es, g);
      SentGrows(es[..|es| - 1], g);
      SentStep(Ran(NEW_STREAM, es[..|es| - 1]), Following(es[..|es| - 1], g), es[|es| - 1], g);
    }
  }

  lemma {:induction false} RunKept(es: seq<Event>, g: Guid, bodies: seq<seq<Byte>>)
    requires FairRun(es, g) && g != ZERO_GUID && Following(es, g).sent <= Writes(bodies) && AllSendable(bodies)
    ensures Kept(Ran(NEW_STREAM, es), g, Following(es, g))
  {
    hide Step, Followed, Fair, Kept, Writes, AllSendable, NotBegun;
    if es == [] {
      NewKept(g);
    } else {
      var z := |es| - 1;
      PrefixFair(es, g);
      SentGrows(es, g);
      RunKept(es[..z], g, bodies);
      StepKept(Ran(NEW_STREAM, es[..z]), g, Following(es[..z], g), es[z], bodies);
    }
  }

  /** Over every run: what plays of a download is the bytes of all its WRITEs so far, frame by
      frame, just when none of them strayed; and then nothing else is in it. */
  lemma PlayingIsWholeIff(es: seq<Event>, g: Guid, bodies: seq<seq<Byte>>)
    requires FairRun(es, g) && g != ZERO_GUID && Following(es, g).sent <= Writes(bodies) && AllSendable(bodies)
    requires Ran(NEW_STREAM, es).playing.guid == g
    ensures var b, sent := Ran(NEW_STREAM, es).playing, Following(es, g).sent;
            && b.active
            && (Content(b) == Content(AppendedAll(EMPTY, sent)) <==> Following(es, g).strays == 0)
            && (|b.data| == |AppendedAll(EMPTY, sent).data| <==> Following(es, g).strays == 0)
  {
    hide Ran, Following, FairRun, Writes, AllSendable, Carriers, AccGood, NextGood, AppendedAll;
    RunKept(es, g, bodies);
    assert g in R.Guids(Ran(NEW_STREAM, es));
    assert Good(Ran(NEW_STREAM, es).playing, g, Following(es, g));
  }

  /** Once every WRITE has come, what plays is exactly the frames sent just when none strayed. */
  lemma WholeDownloadPlays(es: seq<Event>, g: Guid, bodies: seq<seq<Byte>>)
    requires FairRun(es, g) && g != ZERO_GUID && Following(es, g).sent == Writes(bodies) && AllSendable(bodies)
    requires Ran(NEW_STREAM, es).playing.guid == g
    ensures var b := Ran(NEW_STREAM, es).playing;
            && (b.data == Concat(Items(bodies)) <==> Following(es, g).strays == 0)
            && (Following(es, g).strays == 0 ==>
                  b.frames == |bodies| && b.pending == 0 && forall i :: 0 <= i < |bodies| ==> DispatchSlice(b, i) == bodies[i])
  {
    hide Ran, Following, FairRun, Writes, AllSendable, AppendedAll, DispatchSlice, Concat, Items;
    PlayingIsWholeIff(es, g, bodies);
    ReassemblyRoundTrip(EMPTY, bodies);
    var b, all := Ran(NEW_STREAM, es).playing, AppendedAll(EMPTY, Writes(bodies));
    if Following(es, g).strays == 0 {
      forall i | 0 <= i < |bodies|
        ensures DispatchSlice(b, i) == bodies[i]
      {
        DispatchIsExact(EMPTY, bodies, i);
        SameSlices(b, all, i);
      }
    }
  }

  lemma SameSlices(b: Buffer, c: Buffer, i: nat)
    requires Content(b) == Content(c) && i < b.frames
    ensures DispatchSlice(b, i) == DispatchSlice(c, i)
  {
  }

  // ----- when a WRITE strays -----

  /** In every reachable state, a WRITE of a download that left `accumulating` strays just when
      nothing but `next` may still carry it and the append flags are not for it. */
  lemma StraysIff(es: seq<Event>, g: Guid, bodies: seq<seq<Byte>>, w: seq<Byte>)
    requires FairRun(es, g) && g != ZERO_GUID && Following(es, g).sent <= Writes(bodies) && AllSendable(bodies)
    requires g in Following(es, g).tracked && Following(es, g).left && w != []
    ensures var s := Ran(NEW_STREAM, es);
            Strays(s, Following(es, g), g, w) <==>
            && s.acc.guid == g && !(s.appending && s.appendGuid == g)
            && s.playing.guid != g && s.pending.guid != g && !IsAwaiting(s, g)
  {
    hide Ran, Following, FairRun, Writes, AllSendable, Received, Content, R.Guids, R.Routed, Carriers;
    RunKept(es, g, bodies);
    SlotIff(Ran(NEW_STREAM, es), g, Following(es, g));
  }

  lemma SlotIff(s: Stream, g: Guid, t: Track)
    requires AllGood(s, g, t) && AccGood(s, g, t) && t.left
    ensures WriteSlot(s, g).Accumulating? <==>
            && s.acc.guid == g && !(s.appending && s.appendGuid == g)
            && s.playing.guid != g && s.pending.guid != g && !IsAwaiting(s, g)
  {
    hide Received, Content;
  }

  /** The swap leaves the interval in `next` (HOLD), or drops it after too many holds. */
  predicate HoldsAtSwap(s: Stream, chs: seq<Channel>) {
    && (s.next.audioGuid == ZERO_GUID || FirstHolding(chs, s.next.audioGuid) == |chs|)
    && (FirstAudible(chs).None? || (MatchOf(s, chs).Mismatch? && QueuePosition(chs, s.next.audioGuid) <= 0))
  }

  lemma {:induction false} SweptKeepsPrev(s: Stream, chs: seq<Channel>)
    ensures Swept(s, chs).prevDs == s.prevDs
    decreases |s.awaiting|
  {
    hide AwaitPosition, StillWaits;
    if s.awaiting != [] && !StillWaits(s.awaiting[0], chs) {
      var b, rest := s.awaiting[0], s.awaiting[1..];
      SweptKeepsPrev(Matched(s, b).(playing := b, frameIdx := 0, awaiting := rest), chs);
      SweptKeepsPrev(s.(awaiting := rest), chs);
    }
  }

  /** Only `next` carries g, and it is in `accumulating` by name. */
  predicate OnlyNext(s: Stream, g: Guid) {
    && s.next.guid == g && Ready(s.next) && s.acc.guid == g && s.acc.active
    && s.playing.guid != g && s.pending.guid != g && !IsAwaiting(s, g)
  }

  lemma OneCarrier(s: Stream, g: Guid)
    requires Carriers(s, g) <= 1 && s.next.guid == g
    ensures s.playing.guid != g && s.pending.guid != g && !IsAwaiting(s, g)
  {
    CountHas(s.awaiting, g);
  }

  lemma HoldsAlike(s: Stream, q: Stream, chs: seq<Channel>)
    requires s.next == q.next && s.prevDs == q.prevDs
    ensures HoldsAtSwap(s, chs) <==> HoldsAtSwap(q, chs)
  {
    hide FirstHolding, FirstAudible, QueuePosition, PlaysNow;
  }

  lemma NewestAwaits(s: Stream, b: Buffer)
    ensures s.awaiting == [] || Await(s.awaiting, b) != []
    ensures FirstAwaiting(Await(s.awaiting, b), b.guid, 0) < |Await(s.awaiting, b)|
  {
    var all := Await(s.awaiting, b);
    assert all[|all| - 1].guid == b.guid;
  }

  lemma WaitsSlot(s: Stream, b: Buffer, r: Stream, g: Guid)
    requires OnlyNext(s, g) && !(s.appending && s.appendGuid == g) && b.guid == g
    requires r.awaiting == Await(s.awaiting, b) && r.acc == s.acc && r.playing == s.playing && r.pending == s.pending
    requires r.appending == s.appending && r.appendGuid == s.appendGuid
    ensures WriteSlot(r, g).Awaiting?
  {
    NewestAwaits(s, b);
    hide Await;
  }

  lemma StaysSlot(s: Stream, r: Stream, g: Guid)
    requires OnlyNext(s, g) && !(s.appending && s.appendGuid == g)
    requires r.awaiting == s.awaiting && r.acc == s.acc && r.playing == s.playing && r.pending == s.pending
    requires r.appending == s.appending && r.appendGuid == s.appendGuid
    ensures WriteSlot(r, g) == Accumulating
  {
  }

  lemma AcceptedSlot(s: Stream, dsMatch: bool, g: Guid)
    requires OnlyNext(s, g) && !(s.appending && s.appendGuid == g)
    ensures WriteSlot(Accepted(s, dsMatch), g) == if dsMatch then Pending else Playing
  {
  }

  lemma LookedSlot(s: Stream, chs: seq<Channel>, g: Guid)
    requires OnlyNext(s, g) && !(s.appending && s.appendGuid == g)
    ensures WriteSlot(Looked(s, chs), g).Accumulating? <==>
            FirstAudible(chs).None? || (MatchOf(s, chs).Mismatch? && QueuePosition(chs, s.next.audioGuid) <= 0)
  {
    hide WriteSlot, Await, Accepted, QueuePosition, FirstAudible, MatchOf, OnlyNext;
    var r := Looked(s, chs);
    var match_ := MatchOf(s, chs);
    if FirstAudible(chs).None? {
      StaysSlot(s, r, g);
    } else if match_.Mismatch? && QueuePosition(chs, s.next.audioGuid) > 0 {
      assert s.next.guid == g by { NextIs(s, g); }
      WaitsSlot(s, s.next, r, g);
    } else if match_.Mismatch? {
      StaysSlot(s, r, g);
    } else {
      AcceptedSlot(s, match_.DsMatch?, g);
    }
  }

  lemma PrevNoMatter(s: Stream, prev: Guid, g: Guid)
    ensures WriteSlot(s.(prevDs := prev), g) == WriteSlot(s, g)
  {
  }

  lemma EvaluatedSlot(s: Stream, chs: seq<Channel>, g: Guid)
    requires OnlyNext(s, g) && !(s.appending && s.appendGuid == g)
    ensures WriteSlot(Evaluated(s, chs), g).Accumulating? <==> HoldsAtSwap(s, chs)
  {
    hide WriteSlot, Await, Looked, QueuePosition, FirstHolding, FirstAudible, MatchOf, HeardGuid, FollowsMarker, OnlyNext;
    var w := FirstHolding(chs, s.next.audioGuid);
    if s.next.audioGuid != ZERO_GUID && w < |chs| {
      assert s.next.guid == g by { NextIs(s, g); }
      var own := FollowsMarker(chs[w].ds.value.guid, s.next.audioGuid);
      WaitsSlot(s, if own then s.next.(audioGuid := chs[w].ds.value.guid, ownAudio := true) else s.next, Evaluated(s, chs), g);
    } else {
      LookedSlot(s, chs, g);
      PrevNoMatter(Looked(s, chs), HeardGuid(s, chs), g);
    }
  }

  lemma NextIs(s: Stream, g: Guid)
    requires OnlyNext(s, g)
    ensures s.next.guid == g
  {
  }

  lemma SweptFlags(s: Stream, chs: seq<Channel>, g: Guid)
    requires Swept(Unrouted(Promoted(s)), chs).pending.guid != g
    ensures var q := Swept(Unrouted(Promoted(s)), chs);
            !(q.appending && q.appendGuid == g)
    ensures Unrouted(Promoted(s)).prevDs == s.prevDs
  {
    hide Swept, R.Guids;
    R.SweptRouted(Unrouted(Promoted(s)), chs, {g});
  }

  lemma SwapSlotIff(s: Stream, chs: seq<Channel>, g: Guid, t: Track)
    requires Whole(s, g, t) && g != ZERO_GUID && g in t.tracked && t.strays == 0
    requires s.next.guid == g && Ready(s.next)
    ensures WriteSlot(SwappedStream(s, chs), g).Accumulating? <==> HoldsAtSwap(s, chs)
  {
    hide Swept, Evaluated, Promoted, Unrouted, Carriers, Received, Content, AllGood, HoldsAtSwap, WriteSlot;
    var u := Unrouted(Promoted(s));
    var q := Swept(u, chs);
    PromotedSame(s);
    PromotedFewer(s, g, t);
    SweptFewer(u, chs, g, t);
    FewerTwice(s, u, q, g, t);
    OneCarrier(q, g);
    SweptFlags(s, chs, g);
    SweptKeepsPrev(u, chs);
    EvaluatedSlot(q, chs, g);
    HoldsAlike(s, q, chs);
  }

  /** In every reachable state: of the swaps that find a download in `next` while it arrives,
      exactly those that hold or drop it make its next WRITE stray. */
  lemma SwapStraysIff(es: seq<Event>, chs: seq<Channel>, g: Guid, bodies: seq<seq<Byte>>)
    requires FairRun(es, g) && g != ZERO_GUID && Following(es, g).sent <= Writes(bodies) && AllSendable(bodies)
    requires g in Following(es, g).tracked && Following(es, g).strays == 0
    requires Ran(NEW_STREAM, es).next.guid == g && Ready(Ran(NEW_STREAM, es).next)
    ensures WriteSlot(SwappedStream(Ran(NEW_STREAM, es), chs), g).Accumulating? <==> HoldsAtSwap(Ran(NEW_STREAM, es), chs)
  {
    hide Ran, Following, FairRun, Writes, AllSendable, Whole, R.Guids, R.Routed, WriteSlot, SwappedStream, HoldsAtSwap;
    RunKept(es, g, bodies);
    SwapSlotIff(Ran(NEW_STREAM, es), chs, g, Following(es, g));
  }

  /** A FALLBACK moves the interval with what has arrived of the frame in progress, and the rest
      follows it; `accumulating` is left waiting for that rest. */
  lemma FallbackMovesAll(s: Stream, chs: seq<Channel>)
    requires Ready(s.acc) && |chs| > 0 && Sounds(chs[0]) && s.synced
    ensures var r := FellBack(s, chs);
            && r.playing == s.acc && WriteSlot(r, s.acc.guid) == Playing
            && r.acc.data == [] && r.acc.frames == 0 && r.acc.pending == s.acc.pending && r.acc.guid == s.acc.guid
  {
  }

  /** The rest of that frame, if it strays, is taken for a frame of its own, without a length;
      any other WRITE is cut by what was missing of it. */
  lemma StrayTakenForRest(b: Buffer, w: seq<Byte>)
    requires b.data == [] && b.frames == 0 && b.pending > 0
    ensures var take := if |w| < b.pending then |w| else b.pending;
            && Appended(b, w).data == w[..take] && Appended(b, w).offsets == b.offsets
            && Appended(b, w).frames == if |w| < b.pending then 0 else 1
  {
  }

  /** One more event at the end of a run. */
  lemma OneMore(es: seq<Event>, e: Event, g: Guid)
    ensures Ran(NEW_STREAM, es + [e]) == Step(Ran(NEW_STREAM, es), e)
    ensures Following(es + [e], g) == Followed(Ran(NEW_STREAM, es), Following(es, g), e, g)
    ensures FairRun(es, g) && Fair(Ran(NEW_STREAM, es), Following(es, g), e, g) ==> FairRun(es + [e], g)
  {
    hide Step, Followed, Fair;
    var fs := es + [e];
    assert fs[..|fs| - 1] == es;
    forall k | 0 <= k < |fs|
      ensures fs[..k] == es[..k] && fs[k] == if k < |es| then es[k] else e
    {
    }
  }
}
