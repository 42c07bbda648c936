/** What the buffers of a video stream hold of one download: exactly the bytes of its WRITEs in
    order, unless a WRITE strays into `accumulating` after the download left it. */
module VideoBytes {
  import opened Bytes
  import opened IntervalTag
  import opened Channels
  import opened VideoBuffers
  import opened VideoStreams
  import opened VideoSync
  import R = VideoRouting

  /** What is known of download g: whether its BEGIN came, whether its bytes left `accumulating`,
      the WRITEs so far, how many of them strayed into `accumulating` after that, and all the
      downloads in progress. */
  datatype Track = Track(begun: bool, left: bool, sent: seq<seq<Byte>>, strays: nat, tracked: set<Guid>)

  const NO_TRACK := Track(false, false, [], 0, {})

  /** The buffers other than `accumulating` that carry g. */
  predicate Elsewhere(s: Stream, g: Guid) {
    s.next.guid == g || s.pending.guid == g || s.playing.guid == g || IsAwaiting(s, g)
  }

  /** A WRITE of g goes to `accumulating`, which g has left. */
  predicate Strays(s: Stream, t: Track, g: Guid, w: seq<Byte>) {
    t.left && w != [] && WriteSlot(s, g).Accumulating?
  }

  function Followed(s: Stream, t: Track, e: Event, g: Guid): Track {
    var r := Step(s, e);
    var left := t.left || r.acc.guid != g || Elsewhere(r, g);
    match e
    case Begin(h, _) =>
      if h == g then Track(true, false, [], 0, t.tracked + {g}) else t.(left := left, tracked := t.tracked + {h})
    case Data(h, w, _) =>
      if h == g then t.(left := left, sent := t.sent + [w], strays := t.strays + if Strays(s, t, g, w) then 1 else 0)
      else t.(left := left)
    case End(h) => t.(left := left, tracked := t.tracked - {h})
    case Leave => t.(left := left, tracked := {})
    case _ => t.(left := left)
  }

  function Following(es: seq<Event>, g: Guid): Track {
    if es == [] then NO_TRACK
    else Followed(Ran(NEW_STREAM, es[..|es| - 1]), Following(es[..|es| - 1], g), es[|es| - 1], g)
  }

  /** BEGINs are fresh as far as g goes; WRITEs and ENDs are of downloads in progress, an END of
      one the stream mentions; g does not come from a voice-chat sender. */
  predicate Fair(s: Stream, t: Track, e: Event, g: Guid) {
    match e
    case Begin(h, _) => h != ZERO_GUID && (h == g ==> !t.begun)
    case Data(h, _, live) => h in t.tracked && (h == g ==> !live)
    case End(h) => h in t.tracked && R.Mentions(s, h)
    case _ => true
  }

  ghost predicate FairRun(es: seq<Event>, g: Guid) {
    forall k :: 0 <= k < |es| ==> Fair(Ran(NEW_STREAM, es[..k]), Following(es[..k], g), es[k], g)
  }

  // ----- what is kept -----

  /** What WRITEs make of a buffer, markers and counts aside. */
  function Content(b: Buffer): (seq<Byte>, seq<int>, nat, int) {
    (b.data, b.offsets, b.frames, b.pending)
  }

  /** What all the WRITEs so far add up to. */
  function Received(sent: seq<seq<Byte>>): Buffer {
    AppendedAll(EMPTY, sent)
  }

  /** A buffer that carries g holds all of it while no WRITE strayed, and less of it after. */
  predicate Good(b: Buffer, g: Guid, t: Track) {
    b.guid == g ==>
      b.active && if t.strays == 0 then Content(b) == Content(Received(t.sent)) else |b.data| < |Received(t.sent).data|
  }

  predicate AllGood(s: Stream, g: Guid, t: Track) {
    Good(s.next, g, t) && Good(s.pending, g, t) && Good(s.playing, g, t) &&
    forall i :: 0 <= i < |s.awaiting| ==> Good(s.awaiting[i], g, t)
  }

  function One(b: Buffer, g: Guid): nat {
    if b.guid == g then 1 else 0
  }

  function Count(bs: seq<Buffer>, g: Guid): nat {
    if bs == [] then 0 else One(bs[0], g) + Count(bs[1..], g)
  }

  /** How many buffers other than `accumulating` carry g. */
  function Carriers(s: Stream, g: Guid): nat {
    One(s.next, g) + One(s.pending, g) + One(s.playing, g) + Count(s.awaiting, g)
  }

  /** `accumulating` holds the start of g, or after it left nothing of g that did not stray. */
  predicate AccGood(s: Stream, g: Guid, t: Track) {
    if !t.left then
      s.acc.guid == g && s.acc.active && t.strays == 0 && Content(s.acc) == Content(Received(t.sent)) && Carriers(s, g) == 0
    else
      s.acc.guid == g ==>
        s.acc.active && Received(t.sent).data != [] &&
        if t.strays == 0 then s.acc.data == [] && s.acc.frames == 0 else |s.acc.data| < |Received(t.sent).data|
  }

  /** g, still in progress in `next`, is in `accumulating` by name. */
  predicate NextGood(s: Stream, g: Guid, t: Track) {
    g in t.tracked && s.next.guid == g ==> s.acc.guid == g && s.acc.active
  }

  // ----- counting -----

  lemma {:induction false} CountSplit(a: seq<Buffer>, b: seq<Buffer>, g: Guid)
    ensures Count(a + b, g) == Count(a, g) + Count(b, g)
    decreases |a|
  {
    if a == [] {
      assert a + b == b;
    } else {
      assert (a + b)[0] == a[0] && (a + b)[1..] == a[1..] + b;
      CountSplit(a[1..], b, g);
    }
  }

  lemma CountOne(b: Buffer, g: Guid)
    ensures Count([b], g) == One(b, g)
  {
    assert [b][1..] == [];
  }

  lemma CountAwait(awaiting: seq<Buffer>, b: Buffer, g: Guid)
    ensures Count(Await(awaiting, b), g) <= Count(awaiting, g) + One(b, g)
  {
    var kept := if |awaiting| >= 2 then awaiting[1..] else awaiting;
    CountSplit(kept, [b], g);
    CountOne(b, g);
  }

  lemma {:induction false} CountSame(a: seq<Buffer>, b: seq<Buffer>, g: Guid)
    requires |a| == |b| && forall i :: 0 <= i < |a| ==> a[i].guid == b[i].guid
    ensures Count(a, g) == Count(b, g)
  {
    if a != [] {
      CountSame(a[1..], b[1..], g);
    }
  }

  lemma {:induction false} CountHas(bs: seq<Buffer>, g: Guid)
    ensures Count(bs, g) > 0 <==> exists i :: 0 <= i < |bs| && bs[i].guid == g
  {
    if bs != [] {
      CountHas(bs[1..], g);
      if i :| 0 <= i < |bs| && bs[i].guid == g && i > 0 {
        assert bs[1..][i - 1].guid == g;
      }
      if i :| 0 <= i < |bs[1..]| && bs[1..][i].guid == g {
        assert bs[i + 1].guid == g;
      }
    }
  }

  lemma CarriersHave(s: Stream, g: Guid)
    ensures Carriers(s, g) > 0 <==> Elsewhere(s, g)
  {
    CountHas(s.awaiting, g);
  }

  lemma {:induction false} CountOnlyOne(bs: seq<Buffer>, g: Guid, i: nat)
    requires i < |bs| && bs[i].guid == g && Count(bs, g) <= 1
    ensures forall k :: 0 <= k < |bs| && k != i ==> bs[k].guid != g
  {
    if i == 0 {
      CountHas(bs[1..], g);
      forall k | 0 < k < |bs|
        ensures bs[k].guid != g
      {
        assert bs[1..][k - 1] == bs[k];
      }
    } else {
      CountHas(bs[1..], g);
      assert bs[1..][i - 1] == bs[i];
      CountOnlyOne(bs[1..], g, i - 1);
      forall k | 0 < k < |bs| && k != i
        ensures bs[k].guid != g
      {
        assert bs[1..][k - 1] == bs[k];
      }
    }
  }

  // ----- what keeps a buffer good -----

  lemma NotCarried(b: Buffer, g: Guid, t: Track)
    requires b.guid != g
    ensures Good(b, g, t)
  {
  }

  /** Markers and counts do not matter. */
  lemma SameGood(b: Buffer, c: Buffer, g: Guid, t: Track)
    requires b.guid == c.guid && b.active == c.active && Content(b) == Content(c)
    ensures Good(b, g, t) <==> Good(c, g, t)
  {
  }

  lemma EmptyGood(g: Guid, t: Track)
    requires g != ZERO_GUID
    ensures Good(EMPTY, g, t) && One(EMPTY, g) == 0
  {
  }

  /** Nor do the rest of the stream and of the track. */
  lemma OtherwiseSame(s: Stream, r: Stream, g: Guid, t: Track, u: Track)
    requires r.next == s.next && r.pending == s.pending && r.playing == s.playing && r.awaiting == s.awaiting
    requires u.sent == t.sent && u.strays == t.strays
    ensures AllGood(r, g, u) <==> AllGood(s, g, t)
    ensures Carriers(r, g) == Carriers(s, g) && (Elsewhere(r, g) <==> Elsewhere(s, g))
  {
    forall b: Buffer
      ensures Good(b, g, u) <==> Good(b, g, t)
    {
    }
    hide Good;
  }

  /** What moving and marking buffers, and taking some away, keeps. */
  ghost predicate Fewer(s: Stream, r: Stream, g: Guid, t: Track) {
    (AllGood(s, g, t) ==> AllGood(r, g, t)) && Carriers(r, g) <= Carriers(s, g)
  }

  lemma FewerTwice(s: Stream, r: Stream, q: Stream, g: Guid, t: Track)
    requires Fewer(s, r, g, t) && Fewer(r, q, g, t)
    ensures Fewer(s, q, g, t)
  {
    hide AllGood, Carriers;
  }

  lemma CompleteFewer(s: Stream, g: Guid, t: Track)
    ensures Fewer(s, NotAppending(SelectedComplete(s)), g, t) && NotAppending(SelectedComplete(s)).acc == s.acc
    ensures NotAppending(SelectedComplete(s)).next.guid == s.next.guid
    ensures NotAppending(SelectedComplete(s)).next.active == s.next.active
  {
    hide Count;
    SameGood(Selected(s), Selected(s).(totalFrames := Selected(s).frames), g, t);
    hide Good;
  }

  lemma AwaitGood(awaiting: seq<Buffer>, b: Buffer, g: Guid, t: Track)
    requires (forall i :: 0 <= i < |awaiting| ==> Good(awaiting[i], g, t)) && Good(b, g, t)
    ensures forall i :: 0 <= i < |Await(awaiting, b)| ==> Good(Await(awaiting, b)[i], g, t)
  {
    hide Good;
  }

  /** `next` moves to the awaiting intervals. */
  lemma AwaitFewer(s: Stream, b: Buffer, g: Guid, t: Track)
    requires g != ZERO_GUID && b.guid == s.next.guid && b.active == s.next.active && Content(b) == Content(s.next)
    ensures Fewer(s, s.(awaiting := Await(s.awaiting, b), next := EMPTY), g, t)
    ensures Fewer(s, s.(next := EMPTY), g, t)
  {
    hide Count;
    EmptyGood(g, t);
    SameGood(s.next, b, g, t);
    CountAwait(s.awaiting, b, g);
    hide Content, Good;
    if AllGood(s, g, t) {
      AwaitGood(s.awaiting, b, g, t);
    }
  }

  lemma MovedOnFewer(s: Stream, g: Guid, t: Track)
    requires g != ZERO_GUID
    ensures Fewer(s, NextMovedOn(s), g, t)
    ensures AllGood(s, g, t) ==> NextMovedOn(s).next.guid != g
  {
    hide IntervalOf, ToInt32, Received, Count, Await, OwnInterval;
    AwaitFewer(s, s.next, g, t);
    AwaitFewer(s, s.next.(ownInterval := OwnInterval(s.next.audioGuid)), g, t);
  }

  // ----- the three ways a step keeps everything -----

  ghost predicate Whole(s: Stream, g: Guid, t: Track) {
    AllGood(s, g, t) && AccGood(s, g, t) && NextGood(s, g, t) && (t.strays == 0 ==> Carriers(s, g) <= 1)
  }

  function Now(r: Stream, t: Track, g: Guid): Track {
    t.(left := t.left || r.acc.guid != g || Elsewhere(r, g))
  }

  /** `accumulating` stays as it was. */
  lemma MovesKeep(s: Stream, r: Stream, g: Guid, t: Track)
    requires Whole(s, g, t) && Fewer(s, r, g, t) && r.acc == s.acc
    requires r.next.guid == g ==> s.next.guid == g
    ensures Whole(r, g, Now(r, t, g))
  {
    hide Content, Received, Elsewhere, Carriers, AllGood;
    CarriersHave(r, g);
    OtherwiseSame(r, r, g, t, Now(r, t, g));
  }

  /** `accumulating` is not of g, or no longer. */
  lemma AccGoneKeeps(s: Stream, r: Stream, g: Guid, t: Track)
    requires Whole(s, g, t) && Fewer(s, r, g, t) && r.acc.guid != g
    requires r.next.guid == g ==> g !in t.tracked
    ensures Whole(r, g, Now(r, t, g))
  {
    hide Content, Received, Elsewhere, Carriers, AllGood;
    OtherwiseSame(r, r, g, t, Now(r, t, g));
  }

  /** With a frame in it, `accumulating` is as good as any buffer. */
  lemma AccIsGood(s: Stream, g: Guid, t: Track, b: Buffer)
    requires AccGood(s, g, t) && s.acc.guid == g && s.acc.frames >= 1
    requires b.guid == g && b.active == s.acc.active && Content(b) == Content(s.acc)
    ensures Good(b, g, t) && (t.strays == 0 ==> !t.left && Carriers(s, g) == 0)
  {
    hide Received, Carriers;
  }

  lemma StartKeeps(s: Stream, g: Guid, t: Track)
    requires Whole(s, g, t) && s.acc.frames >= 1 && !s.next.active && g != ZERO_GUID
    requires s.acc.guid == g && Received(t.sent).data != []
    ensures Whole(StartedPlaying(s), g, Now(StartedPlaying(s), t, g))
  {
    var r := StartedPlaying(s);
    AccIsGood(s, g, t, s.acc);
    hide Count, Received;
    OtherwiseSame(r, r, g, t, Now(r, t, g));
    hide Good, Content;
    assert AllGood(r, g, t);
  }

  lemma FallbackKeeps(s: Stream, chs: seq<Channel>, g: Guid, t: Track)
    requires Whole(s, g, t) && Ready(s.acc) && g != ZERO_GUID
    requires s.acc.guid == g ==> Received(t.sent).data != []
    ensures Whole(FellBack(s, chs), g, Now(FellBack(s, chs), t, g))
  {
    var r := FellBack(s, chs);
    hide Count, Received;
    if r == s {
      MovesKeep(s, s, g, t);
    } else if s.acc.guid == g {
      AccIsGood(s, g, t, s.acc);
      OtherwiseSame(r, r, g, t, Now(r, t, g));
      hide Good, Content;
      assert AllGood(r, g, t);
    } else {
      NotCarried(s.acc, g, t);
      hide Good, Content;
      AccGoneKeeps(s, r, g, t);
    }
  }

  // ----- BEGIN, END and the resets -----

  lemma BeginOtherKeeps(s: Stream, h: Guid, seqNo: int, g: Guid, t: Track)
    requires Whole(s, g, t) && g != ZERO_GUID && h != g
    ensures Whole(Begun(s, h, seqNo), g, Now(Begun(s, h, seqNo), t, g))
  {
    hide NextMovedOn, SelectedComplete, Carriers, Good, AccGood, NextGood;
    var u := if s.appending then NotAppending(SelectedComplete(s)) else s;
    CompleteFewer(s, g, t);
    MovedOnFewer(u, g, t);
    FewerTwice(s, u, NextMovedOn(u), g, t);
    var r := Begun(s, h, seqNo);
    OtherwiseSame(NextMovedOn(u), r, g, t, t);
    AccGoneKeeps(s, r, g, t);
  }

  lemma BeginOwn(s: Stream, seqNo: int, g: Guid, t: Track)
    requires g != ZERO_GUID && g !in R.Guids(s)
    requires g !in R.Guids(Begun(s, ZERO_GUID, seqNo))
    ensures Whole(Begun(s, g, seqNo), g, Track(true, false, [], 0, t.tracked + {g}))
  {
    var z, r := Begun(s, ZERO_GUID, seqNo), Begun(s, g, seqNo);
    var u := Track(true, false, [], 0, t.tracked + {g});
    hide Begun;
    UnknownNotCarried(z, g, u);
    assert r == z.(acc := EMPTY.(guid := g, active := true, intervalSeq := seqNo)) by {
      BegunAlike(s, g, seqNo);
    }
    OtherwiseSame(z, r, g, u, u);
    assert Received([]) == EMPTY;
  }

  lemma BegunAlike(s: Stream, g: Guid, seqNo: int)
    ensures Begun(s, g, seqNo) == Begun(s, ZERO_GUID, seqNo).(acc := EMPTY.(guid := g, active := true, intervalSeq := seqNo))
  {
    hide NextMovedOn, SelectedComplete;
  }

  lemma UnknownNotCarried(s: Stream, g: Guid, t: Track)
    requires g !in R.Guids(s)
    ensures AllGood(s, g, t) && Carriers(s, g) == 0 && !Elsewhere(s, g) && s.next.guid != g
  {
    hide Content, Received;
    CountHas(s.awaiting, g);
    forall i | 0 <= i < |s.awaiting|
      ensures s.awaiting[i].guid != g
    {
      assert s.awaiting[i].guid in R.Guids(s) || s.awaiting[i].guid != g;
    }
  }

  lemma LessTracked(s: Stream, g: Guid, t: Track, fewer: set<Guid>)
    requires Whole(s, g, t) && fewer <= t.tracked
    ensures Whole(s, g, t.(tracked := fewer))
  {
    hide Received, Content, Carriers, AllGood;
    OtherwiseSame(s, s, g, t, t.(tracked := fewer));
  }

  lemma {:induction false} AllCompleteFewer(s: Stream, h: Guid, g: Guid, t: Track)
    ensures Fewer(s, s.(awaiting := AllComplete(s.awaiting, h), expected := LastCount(s.awaiting, h, s.expected)), g, t)
  {
    hide LastCount, Count;
    var all := AllComplete(s.awaiting, h);
    CountSame(s.awaiting, all, g);
    forall i | 0 <= i < |all|
      ensures Good(s.awaiting[i], g, t) ==> Good(all[i], g, t)
    {
      SameGood(s.awaiting[i], all[i], g, t);
    }
    hide Good;
  }

  /** The end of a download that is still accumulating. */
  lemma AccToNext(s: Stream, g: Guid, t: Track)
    requires Whole(s, g, t) && g != ZERO_GUID && s.acc.frames > 1 && (s.acc.guid == g ==> g !in t.tracked)
    ensures var r := s.(expected := s.acc.frames, next := s.acc.(totalFrames := s.acc.frames), acc := EMPTY);
            Whole(r, g, Now(r, t, g))
  {
    var c := s.acc.(totalFrames := s.acc.frames);
    var r := s.(expected := s.acc.frames, next := c, acc := EMPTY);
    hide Count, Received;
    if s.acc.guid == g {
      AccIsGood(s, g, t, c);
    } else {
      NotCarried(c, g, t);
    }
    OtherwiseSame(r, r, g, t, Now(r, t, g));
    hide Good, Content;
    assert AllGood(r, g, t);
  }

  lemma FinishedKeeps(s: Stream, h: Guid, g: Guid, t: Track)
    requires Whole(s, g, t) && g != ZERO_GUID && R.Mentions(s, h) && h in t.tracked
    ensures Whole(Finished(s, h), g, Now(Finished(s, h), t, g).(tracked := t.tracked - {h}))
  {
    hide Received, AllComplete, LastCount, SelectedComplete, Content, Carriers, Elsewhere, AllGood;
    var r := Finished(s, h);
    var u := t.(tracked := t.tracked - {h});
    LessTracked(s, g, t, u.tracked);
    if IsAwaiting(s, h) {
      AllCompleteFewer(s, h, g, u);
      MovesKeep(s, r, g, u);
    } else if s.appending && s.appendGuid == h {
      CompleteFewer(s, g, u);
      MovesKeep(s, r, g, u);
    } else if s.acc.frames > 1 {
      AccToNext(s, g, u);
    } else {
      OtherwiseSame(s, r, g, u, u);
      AccGoneKeeps(s, r, g, u);
    }
  }

  lemma LeaveKeeps(s: Stream, g: Guid, t: Track)
    requires Whole(s, g, t) && g != ZERO_GUID
    ensures Whole(UserLeft(s), g, Now(UserLeft(s), t, g).(tracked := {}))
    ensures Whole(ForegroundReset(s), g, Now(ForegroundReset(s), t, g))
  {
    hide Received, Content;
    EmptyGood(g, t);
    hide Good;
    var r := UserLeft(s);
    AccGoneKeeps(s, r, g, t);
    LessTracked(r, g, Now(r, t, g), {});
    AccGoneKeeps(s, ForegroundReset(s), g, t);
  }

  // ----- a swap -----

  lemma PromotedFewer(s: Stream, g: Guid, t: Track)
    requires g != ZERO_GUID
    ensures Fewer(s, Unrouted(Promoted(s)), g, t)
  {
    hide Count;
    EmptyGood(g, t);
    hide Good;
  }

  lemma CountHead(bs: seq<Buffer>, g: Guid)
    requires bs != []
    ensures Count(bs, g) == One(bs[0], g) + Count(bs[1..], g)
  {
  }

  /** The oldest waiting interval leaves, to anywhere or nowhere. */
  lemma HeadLeaves(s: Stream, g: Guid, t: Track)
    requires s.awaiting != []
    ensures var b, rest := s.awaiting[0], s.awaiting[1..];
            && Fewer(s, Matched(s, b).(playing := b, frameIdx := 0, awaiting := rest), g, t)
            && Fewer(s, ToPendingSlot(Matched(s, b), b).(awaiting := rest), g, t)
            && Fewer(s, s.(awaiting := rest), g, t)
  {
    CountHead(s.awaiting, g);
    hide Count, Good;
    var rest := s.awaiting[1..];
    assert forall i :: 0 <= i < |rest| ==> rest[i] == s.awaiting[i + 1];
  }

  lemma {:induction false} SweptFewer(s: Stream, chs: seq<Channel>, g: Guid, t: Track)
    ensures Fewer(s, Swept(s, chs), g, t)
    ensures Swept(s, chs).acc == s.acc && Swept(s, chs).next == s.next
    decreases |s.awaiting|
  {
    hide AwaitPosition, StillWaits, AllGood, Carriers;
    if s.awaiting != [] && !StillWaits(s.awaiting[0], chs) {
      var b, rest := s.awaiting[0], s.awaiting[1..];
      HeadLeaves(s, g, t);
      if AwaitPosition(b, chs) == 0 && OwnMatch(b) {
        SweptFewer(Matched(s, b).(playing := b, frameIdx := 0, awaiting := rest), chs, g, t);
      } else if AwaitPosition(b, chs) != 0 {
        SweptFewer(s.(awaiting := rest), chs, g, t);
      }
    }
  }

  /** `next` goes to `pending` or to `playing`. */
  lemma AcceptedFewer(s: Stream, dsMatch: bool, g: Guid, t: Track)
    requires g != ZERO_GUID
    ensures Fewer(s, Accepted(s, dsMatch), g, t)
    ensures Accepted(s, dsMatch).acc == s.acc && Accepted(s, dsMatch).next == EMPTY
  {
    EmptyGood(g, t);
    hide Count, Good;
  }

  /** Counters and match records do not matter. */
  lemma SameBuffersFewer(s: Stream, q: Stream, r: Stream, g: Guid, t: Track)
    requires Fewer(s, q, g, t)
    requires r.next == q.next && r.pending == q.pending && r.playing == q.playing && r.awaiting == q.awaiting
    ensures Fewer(s, r, g, t)
  {
    hide AllGood, Carriers, Elsewhere;
    OtherwiseSame(q, r, g, t, t);
  }

  lemma LookedFewer(s: Stream, chs: seq<Channel>, g: Guid, t: Track)
    requires g != ZERO_GUID
    ensures Fewer(s, Looked(s, chs), g, t) && Looked(s, chs).acc == s.acc
    ensures Looked(s, chs).next.guid == g ==> s.next.guid == g
  {
    hide MatchOf, QueuePosition, FirstAudible, Await, Accepted, Content, Fewer;
    var r := Looked(s, chs);
    AwaitFewer(s, s.next, g, t);
    AcceptedFewer(s, MatchOf(s, chs).DsMatch?, g, t);
    NothingFewer(s, g, t);
    var mismatch := MatchOf(s, chs).Mismatch?;
    if FirstAudible(chs).None? {
      SameBuffersFewer(s, s, r, g, t);
    } else if mismatch && QueuePosition(chs, s.next.audioGuid) > 0 {
      SameBuffersFewer(s, s.(awaiting := Await(s.awaiting, s.next), next := EMPTY), r, g, t);
    } else if mismatch && s.holdCount + 1 >= HOLD_CAP {
      SameBuffersFewer(s, s.(next := EMPTY), r, g, t);
    } else if mismatch {
      SameBuffersFewer(s, s, r, g, t);
    }
  }

  lemma NothingFewer(s: Stream, g: Guid, t: Track)
    ensures Fewer(s, s, g, t)
  {
    hide AllGood, Carriers;
  }

  lemma EvaluatedFewer(s: Stream, chs: seq<Channel>, g: Guid, t: Track)
    requires g != ZERO_GUID
    ensures Fewer(s, Evaluated(s, chs), g, t) && Evaluated(s, chs).acc == s.acc
    ensures Evaluated(s, chs).next.guid == g ==> s.next.guid == g
  {
    hide FirstHolding, HeardGuid, FollowsMarker, Await, Looked, Fewer;
    var w := FirstHolding(chs, s.next.audioGuid);
    if s.next.audioGuid != ZERO_GUID && w < |chs| {
      var own := FollowsMarker(chs[w].ds.value.guid, s.next.audioGuid);
      var slot := if own then s.next.(audioGuid := chs[w].ds.value.guid, ownAudio := true) else s.next;
      AwaitFewer(s, slot, g, t);
    } else {
      LookedFewer(s, chs, g, t);
      SameBuffersFewer(s, Looked(s, chs), Evaluated(s, chs), g, t);
    }
  }

  lemma SwapKeeps(s: Stream, chs: seq<Channel>, g: Guid, t: Track)
    requires Whole(s, g, t) && g != ZERO_GUID
    requires s.acc.guid == g && Ready(s.acc) ==> Received(t.sent).data != []
    ensures Whole(SwappedStream(s, chs), g, Now(SwappedStream(s, chs), t, g))
  {
    hide Swept, Evaluated, FellBack, Promoted, Unrouted, Carriers, AllGood, Received, Content;
    var u := Unrouted(Promoted(s));
    PromotedFewer(s, g, t);
    PromotedSame(s);
    SweptFewer(u, chs, g, t);
    var q := Swept(u, chs);
    FewerTwice(s, u, q, g, t);
    var r := SwappedStream(s, chs);
    if Ready(q.next) {
      EvaluatedFewer(q, chs, g, t);
      FewerTwice(s, q, r, g, t);
      MovesKeep(s, r, g, t);
    } else {
      MovesKeep(s, q, g, t);
      if Ready(q.acc) {
        FallbackKeeps(q, chs, g, Now(q, t, g));
        NowTwice(s, q, r, g, t);
      } else {
        SameBuffersFewer(s, q, r, g, t);
        MovesKeep(s, r, g, t);
      }
    }
  }

  lemma PromotedSame(s: Stream)
    ensures Unrouted(Promoted(s)).acc == s.acc && Unrouted(Promoted(s)).next == s.next
  {
  }

  lemma NowTwice(s: Stream, q: Stream, r: Stream, g: Guid, t: Track)
    requires Whole(s, g, t) && Fewer(s, q, g, t) && q.acc == s.acc
    ensures Now(r, Now(q, t, g), g) == Now(r, t, g)
  {
    hide Content, Received, Elsewhere, Carriers, AllGood;
    CarriersHave(q, g);
  }

  // ----- WRITE -----

  /** A buffer of another download changes. */
  lemma PutOther(s: Stream, slot: Slot, c: Buffer, g: Guid, t: Track)
    requires (slot.Awaiting? ==> slot.i < |s.awaiting|) && At(s, slot).guid != g && c.guid != g
    ensures Fewer(s, PutAt(s, slot, c), g, t)
    ensures PutAt(s, slot, c).acc == if slot.Accumulating? then c else s.acc
    ensures PutAt(s, slot, c).next.guid == g ==> s.next.guid == g
  {
    NotCarried(c, g, t);
    hide Good, Count;
    if slot.Awaiting? {
      CountPut(s.awaiting, slot.i, c, g);
    }
  }

  lemma {:induction false} CountPut(bs: seq<Buffer>, i: nat, c: Buffer, g: Guid)
    requires i < |bs|
    ensures Count(bs[i := c], g) == Count(bs, g) - One(bs[i], g) + One(c, g)
  {
    if i == 0 {
      assert bs[0 := c][1..] == bs[1..];
    } else {
      assert bs[i := c][1..] == bs[1..][i - 1 := c];
      CountPut(bs[1..], i - 1, c, g);
    }
  }

  /** One more WRITE of g, and all its bytes count. */
  ghost predicate More(t: Track, u: Track, w: seq<Byte>) {
    && w != [] && u == t.(sent := t.sent + [w], strays := u.strays)
    && Received(u.sent) == Appended(Received(t.sent), w)
    && |Received(u.sent).data| == |Received(t.sent).data| + |w|
  }

  lemma GrowsAlike(b: Buffer, c: Buffer, w: seq<Byte>)
    ensures Content(b) == Content(c) ==> Content(Appended(b, w)) == Content(Appended(c, w))
    ensures |Appended(b, w).data| <= |b.data| + |w|
    ensures Appended(b, w).guid == b.guid && Appended(b, w).active == b.active
  {
    hide BodyLength, Resized;
  }

  lemma GoodGrows(b: Buffer, g: Guid, t: Track, u: Track, w: seq<Byte>)
    requires More(t, u, w) && u.strays == t.strays && b.guid == g && Good(b, g, t)
    ensures Good(Appended(b, w), g, u) && Appended(b, w).guid == g
  {
    GrowsAlike(b, Received(t.sent), w);
    hide Received, Appended;
  }

  lemma GoodStays(b: Buffer, g: Guid, t: Track, u: Track, w: seq<Byte>)
    requires More(t, u, w) && u.strays > 0 && Good(b, g, t)
    ensures Good(b, g, u)
  {
    hide Received, Appended;
  }

  lemma AllStay(s: Stream, g: Guid, t: Track, u: Track, w: seq<Byte>)
    requires More(t, u, w) && u.strays > 0 && AllGood(s, g, t)
    ensures AllGood(s, g, u)
  {
    GoodStays(s.next, g, t, u, w);
    GoodStays(s.pending, g, t, u, w);
    GoodStays(s.playing, g, t, u, w);
    forall i | 0 <= i < |s.awaiting|
      ensures Good(s.awaiting[i], g, u)
    {
      GoodStays(s.awaiting[i], g, t, u, w);
    }
    hide Good, More;
  }

  /** With no stray there is no second buffer that the WRITE should have reached. */
  lemma OthersNotCarried(s: Stream, slot: Slot, g: Guid, u: Track)
    requires (slot.Awaiting? ==> slot.i < |s.awaiting|) && slot != Nowhere && slot != Accumulating
    requires Carriers(s, g) <= 1 && At(s, slot).guid == g
    ensures (slot != Next ==> Good(s.next, g, u)) && (slot != Pending ==> Good(s.pending, g, u))
    ensures slot != Playing ==> Good(s.playing, g, u)
    ensures forall i :: 0 <= i < |s.awaiting| && slot != Awaiting(i) ==> Good(s.awaiting[i], g, u)
  {
    CountHas(s.awaiting, g);
    if slot.Awaiting? {
      CountOnlyOne(s.awaiting, g, slot.i);
    }
    forall b: Buffer | b.guid != g
      ensures Good(b, g, u)
    {
      NotCarried(b, g, u);
    }
    hide Good, Count;
  }

  lemma PutGood(s: Stream, slot: Slot, c: Buffer, g: Guid, t: Track, u: Track, w: seq<Byte>)
    requires (slot.Awaiting? ==> slot.i < |s.awaiting|) && slot != Nowhere && slot != Accumulating
    requires AllGood(s, g, t) && (t.strays == 0 ==> Carriers(s, g) <= 1) && At(s, slot).guid == g
    requires More(t, u, w) && u.strays == t.strays && Good(c, g, u) && c.guid == g
    ensures AllGood(PutAt(s, slot, c), g, u) && Carriers(PutAt(s, slot, c), g) == Carriers(s, g)
  {
    hide Good, More, Count;
    if u.strays > 0 {
      AllStay(s, g, t, u, w);
    } else {
      OthersNotCarried(s, slot, g, u);
    }
    if slot.Awaiting? {
      CountPut(s.awaiting, slot.i, c, g);
    }
  }

  /** The WRITE reaches a buffer that carries g. */
  lemma PutCarrier(s: Stream, slot: Slot, g: Guid, t: Track, u: Track, w: seq<Byte>)
    requires (slot.Awaiting? ==> slot.i < |s.awaiting|) && slot != Nowhere && slot != Accumulating
    requires Whole(s, g, t) && At(s, slot).guid == g && More(t, u, w) && u.strays == t.strays
    ensures Whole(PutAt(s, slot, Appended(At(s, slot), w)), g, u)
  {
    assert Good(At(s, slot), g, t);
    GoodGrows(At(s, slot), g, t, u, w);
    var c := Appended(At(s, slot), w);
    PutGood(s, slot, c, g, t, u, w);
    CarriersHave(s, g);
    hide Appended, Received, Content, AllGood, Carriers;
    assert Elsewhere(s, g);
  }

  /** The WRITE reaches `accumulating`: at the start of g, or astray. */
  lemma AccAppended(s: Stream, g: Guid, t: Track, u: Track, w: seq<Byte>)
    requires Whole(s, g, t) && s.acc.guid == g && More(t, u, w)
    requires u.strays == t.strays + if t.left then 1 else 0
    ensures Whole(s.(acc := Appended(s.acc, w)), g, u)
  {
    GrowsAlike(s.acc, Received(t.sent), w);
    var r := s.(acc := Appended(s.acc, w));
    OtherwiseSame(s, r, g, u, u);
    if t.left {
      AllStay(s, g, t, u, w);
    } else {
      CarriersHave(s, g);
      forall b: Buffer | b.guid != g
        ensures Good(b, g, u)
      {
        NotCarried(b, g, u);
      }
    }
    hide Appended, Received, Content, Good, Carriers;
  }

  lemma AccMarked(s: Stream, g: Guid, t: Track, c: Buffer)
    requires Whole(s, g, t) && c.guid == s.acc.guid && c.active == s.acc.active && Content(c) == Content(s.acc)
    ensures Whole(s.(acc := c), g, t)
  {
    hide Received, AllGood, Carriers;
    OtherwiseSame(s, s.(acc := c), g, t, t);
  }

  /** The WRITE of a download that no buffer carries any more. */
  lemma NowhereKeeps(s: Stream, g: Guid, t: Track, u: Track, w: seq<Byte>)
    requires Whole(s, g, t) && g in t.tracked && R.Routed(s, t.tracked) && WriteSlot(s, g) == Nowhere
    requires More(t, u, w) && u.strays == t.strays
    ensures Whole(s, g, u)
  {
    CountHas(s.awaiting, g);
    hide Received, Content;
  }

  lemma StartOther(s: Stream, g: Guid, t: Track)
    requires s.acc.guid != g
    ensures Fewer(s, StartedPlaying(s), g, t) && StartedPlaying(s).acc.guid == s.acc.guid
  {
    NotCarried(s.acc, g, t);
    hide Good, Count;
  }

  /** What a WRITE stores keeps the guid of the buffer. */
  function Stored(b: Buffer, w: seq<Byte>, live: bool, first: bool): Buffer {
    var a := Appended(b, w);
    if !Completes(b, w) then a
    else if live then (if a.frames > 0 then LiveRemoved(a) else a)
    else if first && a.frames == 1 then MarkerRead(a)
    else a
  }

  lemma StoredGuid(b: Buffer, w: seq<Byte>, live: bool, first: bool)
    ensures Stored(b, w, live, first).guid == b.guid
    ensures Completes(b, w) ==> Appended(b, w).frames > 0
  {
    hide Appended, LiveRemoved, MarkerRead, Completes;
    R.AppendKeepsIdentity(b, w);
    if Completes(b, w) {
      R.CompletedHasFrame(b, w);
    }
  }

  lemma WrittenElse(s: Stream, h: Guid, w: seq<Byte>, live: bool)
    requires var slot := WriteSlot(s, h); slot != Nowhere && slot != Accumulating
    ensures var slot := WriteSlot(s, h);
            var p := PutAt(Redirected(s, h, slot), slot, Stored(At(s, slot), w, live, false));
            Written(s, h, w, live) == p.(liveIdx := Written(s, h, w, live).liveIdx)
  {
    StoredGuid(At(s, WriteSlot(s, h)), w, live, false);
    RedirectOnlyFlags(s, h, WriteSlot(s, h));
    hide WriteSlot, Appended, LiveRemoved, Completes, Redirected;
  }

  lemma WrittenAcc(s: Stream, h: Guid, w: seq<Byte>, live: bool)
    requires WriteSlot(s, h) == Accumulating
    ensures var p, r := s.(acc := Stored(s.acc, w, live, true)), Written(s, h, w, live);
            r == p.(liveIdx := r.liveIdx) || r == StartedPlaying(p)
  {
    StoredGuid(s.acc, w, live, true);
    OwnAccSlot(s, h);
    hide WriteSlot, Appended, LiveRemoved, Completes, MarkerRead, StartedPlaying;
  }

  /** A WRITE of another download. */
  lemma DataOther(s: Stream, h: Guid, w: seq<Byte>, live: bool, g: Guid, t: Track)
    requires Whole(s, g, t) && h != g && h in t.tracked && R.Routed(s, t.tracked)
    ensures Whole(Written(s, h, w, live), g, Now(Written(s, h, w, live), t, g))
  {
    hide Stored, WriteSlot, PutAt, StartedPlaying, Fewer, Redirected, R.Routed, Written, Whole;
    var slot, r := WriteSlot(s, h), Written(s, h, w, live);
    R.WriteSlotCarriesGuid(s, h, t.tracked);
    NothingFewer(s, g, t);
    if slot == Nowhere {
      assert r == s by { WrittenNowhere(s, h, w, live); }
      MovesKeep(s, r, g, t);
    } else if slot == Accumulating {
      OtherAccumulates(s, h, w, live, g, t);
    } else {
      var q, c := Redirected(s, h, slot), Stored(At(s, slot), w, live, false);
      StoredGuid(At(s, slot), w, live, false);
      RedirectOnlyFlags(s, h, slot);
      SameBuffersFewer(s, s, q, g, t);
      PutOther(q, slot, c, g, t);
      WrittenElse(s, h, w, live);
      FewerTwice(s, q, PutAt(q, slot, c), g, t);
      SameBuffersFewer(s, PutAt(q, slot, c), r, g, t);
      MovesKeep(s, r, g, t);
    }
  }

  lemma WrittenNowhere(s: Stream, h: Guid, w: seq<Byte>, live: bool)
    requires WriteSlot(s, h) == Nowhere
    ensures Written(s, h, w, live) == s
  {
  }

  lemma OtherAccumulates(s: Stream, h: Guid, w: seq<Byte>, live: bool, g: Guid, t: Track)
    requires Whole(s, g, t) && h != g && h in t.tracked && WriteSlot(s, h) == Accumulating
    ensures Whole(Written(s, h, w, live), g, Now(Written(s, h, w, live), t, g))
  {
    OwnAccSlot(s, h);
    hide Stored, WriteSlot, StartedPlaying, Fewer, Written, AllGood, AccGood, Carriers;
    var c, r := Stored(s.acc, w, live, true), Written(s, h, w, live);
    var p := s.(acc := c);
    StoredGuid(s.acc, w, live, true);
    NothingFewer(s, g, t);
    SameBuffersFewer(s, s, p, g, t);
    SameBuffersFewer(s, s, p.(liveIdx := r.liveIdx), g, t);
    StartOther(p, g, t);
    FewerTwice(s, p, StartedPlaying(p), g, t);
    StartedNext(p);
    WrittenAcc(s, h, w, live);
    AccGoneKeeps(s, r, g, t);
  }

  lemma RedirectOnlyFlags(s: Stream, h: Guid, slot: Slot)
    ensures Redirected(s, h, slot) ==
            s.(appendGuid := Redirected(s, h, slot).appendGuid, appending := Redirected(s, h, slot).appending,
               toNext := Redirected(s, h, slot).toNext, toPending := Redirected(s, h, slot).toPending)
  {
  }

  lemma StartedNext(s: Stream)
    ensures StartedPlaying(s).next.guid == s.acc.guid
  {
  }

  /** A WRITE of g itself. */
  lemma DataOwn(s: Stream, w: seq<Byte>, g: Guid, t: Track, u: Track)
    requires Whole(s, g, t) && g != ZERO_GUID && g in t.tracked && R.Routed(s, t.tracked)
    requires More(t, u, w) && u.strays == t.strays + if Strays(s, t, g, w) then 1 else 0
    ensures Whole(Written(s, g, w, false), g, Now(Written(s, g, w, false), u, g))
  {
    hide Appended, MarkerRead, Completes, WriteSlot, StartedPlaying, Redirected, R.Routed;
    hide Content, Received, Carriers, AllGood, AccGood, NextGood;
    var slot, r := WriteSlot(s, g), Written(s, g, w, false);
    R.WriteSlotCarriesGuid(s, g, t.tracked);
    NothingFewer(r, g, u);
    if slot == Nowhere {
      NowhereKeeps(s, g, t, u, w);
      MovesKeep(r, r, g, u);
    } else if slot == Accumulating {
      OwnAccumulates(s, w, g, t, u);
    } else {
      var q := Redirected(s, g, slot);
      RedirectOnlyFlags(s, g, slot);
      RedirectWhole(s, q, g, t);
      PutCarrier(q, slot, g, t, u, w);
      MovesKeep(r, r, g, u);
    }
  }

  lemma RedirectWhole(s: Stream, q: Stream, g: Guid, t: Track)
    requires Whole(s, g, t)
    requires q == s.(appendGuid := q.appendGuid, appending := q.appending, toNext := q.toNext, toPending := q.toPending)
    ensures Whole(q, g, t)
  {
    hide Content, Received, Carriers, AllGood;
    OtherwiseSame(s, q, g, t, t);
  }

  lemma OwnAccumulates(s: Stream, w: seq<Byte>, g: Guid, t: Track, u: Track)
    requires Whole(s, g, t) && g != ZERO_GUID && WriteSlot(s, g) == Accumulating
    requires More(t, u, w) && u.strays == t.strays + if t.left then 1 else 0
    ensures Whole(Written(s, g, w, false), g, Now(Written(s, g, w, false), u, g))
  {
    AccAppended(s, g, t, u, w);
    OwnAccSlot(s, g);
    OwnStored(s.acc, w);
    var c, r := Stored(s.acc, w, false, true), Written(s, g, w, false);
    var p := s.(acc := c);
    hide Appended, WriteSlot, StartedPlaying, Content, Received, Whole, Stored, Completes, MarkerRead;
    AccMarked(s.(acc := Appended(s.acc, w)), g, u, c);
    NothingFewer(p, g, u);
    MovesKeep(p, p, g, u);
    OwnWritten(s, g, w);
    if r != p {
      StartKeeps(p, g, u);
    }
  }

  lemma OwnStored(b: Buffer, w: seq<Byte>)
    ensures var c := Stored(b, w, false, true);
            && Content(c) == Content(Appended(b, w)) && c.guid == b.guid && c.active == b.active
            && Appended(b, w).guid == b.guid && Appended(b, w).active == b.active
            && (Completes(b, w) ==> c.frames >= 1)
  {
    hide Appended, MarkerRead, Completes;
    R.AppendKeepsIdentity(b, w);
    MarkerContent(Appended(b, w));
    StoredGuid(b, w, false, true);
  }

  lemma OwnWritten(s: Stream, g: Guid, w: seq<Byte>)
    requires WriteSlot(s, g) == Accumulating
    ensures var p, r := s.(acc := Stored(s.acc, w, false, true)), Written(s, g, w, false);
            r == p || (r == StartedPlaying(p) && !s.next.active && Completes(s.acc, w))
  {
    StoredGuid(s.acc, w, false, true);
    OwnAccSlot(s, g);
    hide WriteSlot, Appended, LiveRemoved, Completes, MarkerRead, StartedPlaying;
  }

  lemma OwnAccSlot(s: Stream, g: Guid)
    requires WriteSlot(s, g) == Accumulating
    ensures s.acc.guid == g && Redirected(s, g, Accumulating) == s
  {
  }

  lemma MarkerContent(b: Buffer)
    ensures Content(MarkerRead(b)) == Content(b) && MarkerRead(b).guid == b.guid && MarkerRead(b).active == b.active
    ensures MarkerRead(b).frames == b.frames
  {
    hide BodyLength;
  }
}
