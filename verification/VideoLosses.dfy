/** Two runs in which a WRITE goes astray: an interval held in `next` while it arrives loses a
    frame, and one that fell back in the middle of a frame hands over what never was one. */
module VideoLosses {
  import opened Bytes
  import opened IntervalTag
  import opened Options
  import opened Channels
  import opened VideoBuffers
  import opened VideoStreams
  import opened VideoSync
  import opened VideoBytes
  import opened VideoBytesRuns

  /** A frame that fits one WRITE. */
  lemma SmallFrame(body: seq<Byte>)
    requires 4 + |body| <= MAX_ENC_BLOCKSIZE
    ensures Chunks(Item(body)) == [Item(body)] && |Item(body)| == 4 + |body|
  {
    ItemLength(body);
    ChunkSmall(Item(body));
  }

  lemma CompletesIff(b: Buffer, w: seq<Byte>)
    ensures Completes(b, w) <==> Appended(b, w).frames == b.frames + 1
    ensures !Completes(b, w) ==> Appended(b, w).frames == b.frames
  {
    hide BodyLength, Resized;
  }

  /** The first WRITE of a frame, with nothing in progress. */
  lemma FirstWrite(b: Buffer, body: seq<Byte>, w: seq<Byte>)
    requires AtFrameEnd(b) && Sendable(body) && |w| >= 4 && w <= Item(body)
    ensures Appended(b, w) == b.(data := b.data + w, offsets := b.offsets + [|b.data|], pending := |Item(body)| - |w|,
                                 frames := if w == Item(body) then b.frames + 1 else b.frames)
    ensures Completes(b, w) <==> w == Item(body)
  {
    hide Item, Appended, Completes;
    assert [] + w == w;
    ItemLength(body);
    ChunkEffect(b, body, [], w);
    CompletesIff(b, w);
  }

  const V: Guid := GuidNo(101)

  /** The body of a first frame that names no audio, and of a later frame. */
  const UNNAMED: seq<Byte> := [0, 0, 0, 0]
  const LATER: seq<Byte> := [7]

  function Fresh(g: Guid): Buffer {
    EMPTY.(guid := g, active := true, intervalSeq := 0)
  }

  function FirstFrame(g: Guid): Buffer {
    Fresh(g).(data := Item(UNNAMED), offsets := [0], frames := 1, senderSeq := 0)
  }

  lemma FirstFrameRead(g: Guid)
    ensures Completes(Fresh(g), Item(UNNAMED)) && Appended(Fresh(g), Item(UNNAMED)).frames == 1
    ensures MarkerRead(Appended(Fresh(g), Item(UNNAMED))) == FirstFrame(g)
  {
    FirstWrite(Fresh(g), UNNAMED, Item(UNNAMED));
    SmallFrame(UNNAMED);
  }

  /** Frames V sends in the next run. */
  function TwoFrames(): seq<seq<Byte>> {
    [UNNAMED, LATER]
  }

  lemma TwoFramesSent()
    ensures Writes(TwoFrames()) == [Item(UNNAMED), Item(LATER)] && AllSendable(TwoFrames())
  {
    hide Item, Chunks;
    assert TwoFrames()[..1] == [UNNAMED] && [UNNAMED][..0] == [];
    SmallFrame(UNNAMED);
    SmallFrame(LATER);
    assert Writes([UNNAMED]) == [Item(UNNAMED)];
  }

  /** The first frame moves the interval to `next`, a swap with no audio to be heard holds it
      there, its second frame comes and with it the END; then it plays. */
  function HeldRun(): seq<Event> {
    [Begin(V, 0), Data(V, Item(UNNAMED), false), Swap([]), Data(V, Item(LATER), false), End(V), Swap(PlayingOnly(GuidNo(1)))]
  }

  /** After the first frame, before the swap. */
  predicate Started(s: Stream) {
    s == StartedPlaying(NEW_STREAM.(acc := FirstFrame(V)))
  }

  /** Still in `next`, nothing else anywhere. */
  predicate HeldBack(s: Stream) {
    && s.next == FirstFrame(V) && s.pending == EMPTY && s.playing == EMPTY && s.awaiting == [] && !s.appending
  }

  lemma HeldStart()
    ensures var s1 := Step(NEW_STREAM, Begin(V, 0));
            && s1 == NEW_STREAM.(acc := Fresh(V)) && Started(Step(s1, Data(V, Item(UNNAMED), false)))
    ensures WriteSlot(NEW_STREAM.(acc := Fresh(V)), V) == Accumulating
  {
    var s1 := NEW_STREAM.(acc := Fresh(V));
    assert Step(NEW_STREAM, Begin(V, 0)) == s1;
    FirstFrameRead(V);
    hide Appended, MarkerRead, Completes, FirstFrame;
    assert WriteSlot(s1, V) == Accumulating;
  }

  lemma HeldSwap(s: Stream)
    requires Started(s)
    ensures var r := SwappedStream(s, []);
            HeldBack(r) && r.acc == Fresh(V).(senderSeq := 0)
  {
    hide Item;
  }

  lemma HeldStray(s: Stream)
    requires HeldBack(s) && s.acc == Fresh(V).(senderSeq := 0)
    ensures WriteSlot(s, V) == Accumulating
    ensures var r := Written(s, V, Item(LATER), false);
            HeldBack(r) && r.acc.guid == V && r.acc.frames == 1
  {
    hide Item;
    ItemLength(LATER);
    FirstWrite(s.acc, LATER, Item(LATER));
    hide Appended, MarkerRead, Completes, FirstFrame;
    assert WriteSlot(s, V) == Accumulating by { assert FirstFrame(V).active; }
  }

  lemma HeldEnd(s: Stream)
    requires HeldBack(s) && s.acc.guid == V && s.acc.frames == 1
    ensures HeldBack(Finished(s, V)) && R.Mentions(s, V) && Finished(s, V).acc == EMPTY
  {
    hide Item;
  }

  lemma HeldPlays(s: Stream, a: Guid)
    requires HeldBack(s)
    ensures SwappedStream(s, PlayingOnly(a)).playing == FirstFrame(V)
  {
    hide Item;
    var chs := PlayingOnly(a);
    assert Audible(chs[0]) && FirstAudible(chs) == Some(a);
    var u := Unrouted(Promoted(s));
    assert Swept(u, chs) == u && u.next == s.next && MatchOf(u, chs) == NoMarker;
  }

  /** Nothing of V elsewhere than where the state says. */
  lemma HeldElsewhere(s: Stream)
    ensures Started(s) || HeldBack(s) ==> Elsewhere(s, V)
    ensures s == NEW_STREAM.(acc := Fresh(V)) ==> !Elsewhere(s, V)
  {
  }

  function HeldTrack(sent: seq<seq<Byte>>, strays: nat): Track {
    Track(true, sent != [], sent, strays, {V})
  }

  lemma HeldBegins()
    ensures var e := Begin(V, 0);
            && Fair(NEW_STREAM, NO_TRACK, e, V) && Followed(NEW_STREAM, NO_TRACK, e, V) == HeldTrack([], 0)
            && Step(NEW_STREAM, e) == NEW_STREAM.(acc := Fresh(V))
  {
    HeldStart();
  }

  lemma HeldStarts()
    ensures var s, t, e := NEW_STREAM.(acc := Fresh(V)), HeldTrack([], 0), Data(V, Item(UNNAMED), false);
            && Fair(s, t, e, V) && Started(Step(s, e)) && Followed(s, t, e, V) == HeldTrack([Item(UNNAMED)], 0)
  {
    HeldStart();
    hide Step, Started, Item;
    var s := NEW_STREAM.(acc := Fresh(V));
    HeldElsewhere(Step(s, Data(V, Item(UNNAMED), false)));
  }

  lemma HeldHolds(s: Stream)
    requires Started(s)
    ensures var t, e := HeldTrack([Item(UNNAMED)], 0), Swap([]);
            && Fair(s, t, e, V) && Followed(s, t, e, V) == t
            && HeldBack(Step(s, e)) && Step(s, e).acc == Fresh(V).(senderSeq := 0)
  {
    hide Item;
    HeldSwap(s);
  }

  lemma HeldStrays(s: Stream)
    requires HeldBack(s) && s.acc == Fresh(V).(senderSeq := 0)
    ensures var t, e := HeldTrack([Item(UNNAMED)], 0), Data(V, Item(LATER), false);
            && Fair(s, t, e, V) && Followed(s, t, e, V) == HeldTrack([Item(UNNAMED), Item(LATER)], 1)
            && HeldBack(Step(s, e)) && Step(s, e).acc.guid == V && Step(s, e).acc.frames == 1
  {
    HeldStray(s);
    ItemLength(LATER);
    hide Item, Written, WriteSlot, HeldBack;
    HeldElsewhere(s);
  }

  lemma HeldEnds(s: Stream, chs: seq<Channel>)
    requires HeldBack(s) && s.acc.guid == V && s.acc.frames == 1
    ensures var t, u := HeldTrack([Item(UNNAMED), Item(LATER)], 1), HeldTrack([Item(UNNAMED), Item(LATER)], 1).(tracked := {});
            && Fair(s, t, End(V), V) && Followed(s, t, End(V), V) == u && HeldBack(Step(s, End(V)))
            && forall q: Stream :: Fair(q, u, Swap(chs), V) && Followed(q, u, Swap(chs), V) == u
  {
    hide Item, SwappedStream;
    HeldEnd(s);
    assert {V} - {V} == {};
  }

  /** The WRITE of the second frame strays, so the interval plays without it, though both
      frames and the END have arrived. */
  lemma HeldIntervalLosesFrame()
    ensures FairRun(HeldRun(), V) && Following(HeldRun(), V).sent == Writes(TwoFrames()) && AllSendable(TwoFrames())
    ensures Following(HeldRun(), V).strays == 1
    ensures Ran(NEW_STREAM, HeldRun()).playing == FirstFrame(V)
  {
    hide Step, Item, HeldBack, Started, Fair, Followed, Writes;
    var es := HeldRun();
    assert es[..1] == [] + [es[0]] && es[..2] == es[..1] + [es[1]] && es[..3] == es[..2] + [es[2]];
    assert es[..4] == es[..3] + [es[3]] && es[..5] == es[..4] + [es[4]] && es == es[..5] + [es[5]];
    assert Ran(NEW_STREAM, []) == NEW_STREAM && Following([], V) == NO_TRACK && FairRun([], V);
    hide Ran, FairRun, Following;
    HeldBegins();
    OneMore([], es[0], V);
    HeldStarts();
    OneMore(es[..1], es[1], V);
    HeldHolds(Ran(NEW_STREAM, es[..2]));
    OneMore(es[..2], es[2], V);
    HeldStrays(Ran(NEW_STREAM, es[..3]));
    OneMore(es[..3], es[3], V);
    HeldEnds(Ran(NEW_STREAM, es[..4]), PlayingOnly(GuidNo(1)));
    OneMore(es[..4], es[4], V);
    OneMore(es[..5], es[5], V);
    HeldPlays(Ran(NEW_STREAM, es[..5]), GuidNo(1));
    StepIs(Ran(NEW_STREAM, es[..5]), PlayingOnly(GuidNo(1)));
    TwoFramesSent();
  }

  lemma StepIs(s: Stream, chs: seq<Channel>)
    ensures Step(s, Swap(chs)) == SwappedStream(s, chs)
  {
  }

  // ----- a FALLBACK in the middle of a frame -----

  const U: Guid := GuidNo(102)
  const T: Guid := GuidNo(103)

  /** The body of a frame that takes two WRITEs. */
  function Large(): (r: seq<Byte>)
    ensures |r| == 10000
  {
    seq(10000, _ => 0)
  }

  function FirstPart(): (r: seq<Byte>)
    ensures |r| == MAX_ENC_BLOCKSIZE
  {
    ItemLength(Large());
    Item(Large())[..MAX_ENC_BLOCKSIZE]
  }

  function LastPart(): (r: seq<Byte>)
    ensures |r| == 10004 - MAX_ENC_BLOCKSIZE
  {
    ItemLength(Large());
    Item(Large())[MAX_ENC_BLOCKSIZE..]
  }

  lemma LargeSent()
    ensures Writes([UNNAMED, Large()]) == [Item(UNNAMED), FirstPart(), LastPart()] && AllSendable([UNNAMED, Large()])
    ensures FirstPart() < Item(Large()) && |Item(Large())| == 10004
  {
    hide Item, Chunks, Large;
    var bodies := [UNNAMED, Large()];
    assert bodies[..1] == [UNNAMED] && [UNNAMED][..0] == [];
    SmallFrame(UNNAMED);
    ItemLength(Large());
    ChunkLarge(Item(Large()));
    ChunkSmall(LastPart());
    assert Writes([UNNAMED]) == [Item(UNNAMED)];
  }

  /** The first frame of an interval of g, naming audio a. */
  function Named(g: Guid, a: Guid): Buffer {
    Fresh(g).(data := MarkerFrame(a), offsets := [0], frames := 1, audioGuid := a, senderSeq := 0)
  }

  lemma NamedItem(a: Guid)
    ensures Item([0, 0, 0, 0] + a) == MarkerFrame(a) && |MarkerFrame(a)| == 24
  {
    assert MarkerFrame(a)[4..] == [0, 0, 0, 0] + a;
  }

  lemma MarkerIs(b: Buffer, a: Guid)
    requires b.data == MarkerFrame(a) && b.offsets == [0] && b.frames == 1
    ensures MarkerRead(b) == b.(audioGuid := a, senderSeq := 0)
  {
    var d := b.data;
    NamedItem(a);
    assert d[8..24] == a && d[4..8] == [0, 0, 0, 0];
    hide MarkerFrame;
  }

  lemma NamedRead(g: Guid, a: Guid)
    ensures Completes(Fresh(g), MarkerFrame(a)) && Appended(Fresh(g), MarkerFrame(a)).frames == 1
    ensures MarkerRead(Appended(Fresh(g), MarkerFrame(a))) == Named(g, a)
  {
    var body: seq<Byte> := [0, 0, 0, 0] + a;
    NamedItem(a);
    hide MarkerFrame, Item, Appended, Completes, MarkerRead;
    FirstWrite(Fresh(g), body, MarkerFrame(a));
    assert [] + MarkerFrame(a) == MarkerFrame(a);
    assert [] + [0] == [0];
    MarkerIs(Appended(Fresh(g), MarkerFrame(a)), a);
  }

  /** V's buffer when the swap comes: one frame, and most of the next. */
  function Half(): Buffer {
    FirstFrame(V).(data := Item(UNNAMED) + FirstPart(), offsets := [0, 8], pending := |LastPart()|)
  }

  lemma HalfArrives()
    ensures Appended(FirstFrame(V), FirstPart()) == Half() && !Completes(FirstFrame(V), FirstPart())
  {
    hide Item, Large;
    LargeSent();
    SmallFrame(UNNAMED);
    FirstWrite(FirstFrame(V), Large(), FirstPart());
    assert [0] + [8] == [0, 8];
  }

  /** What the FALLBACK leaves in `accumulating`, and what the rest of the frame makes of it. */
  function Left(): Buffer {
    Half().(data := [], offsets := [], frames := 0)
  }

  function Garbage(): Buffer {
    Half().(data := LastPart(), offsets := [], frames := 1, pending := 0)
  }

  lemma RestArrives()
    ensures Appended(Left(), LastPart()) == Garbage() && Completes(Left(), LastPart()) && MarkerRead(Garbage()) == Garbage()
  {
    hide Item, Large, LastPart, FirstPart;
    StrayTakenForRest(Left(), LastPart());
    var w := LastPart();
    assert w[..|w|] == w && [] + w == w;
  }

  /** Two intervals are on their way besides V's: U's, already playing, and T's, which waits for
      its audio. U's WRITE makes U the append target, so V's frames stay in `accumulating`; the
      swap finds nothing else and falls back to it, in the middle of V's second frame. T's
      interval takes over, and the rest of V's frame comes. */
  function FallbackRun(): seq<Event> {
    [Begin(U, 0), Data(U, MarkerFrame(GuidNo(1)), false), Swap(PlayingOnly(GuidNo(1))),
     Begin(T, 0), Data(T, MarkerFrame(GuidNo(3)), false),
     Begin(V, 0), Data(U, Item(LATER), false), Data(V, Item(UNNAMED), false), Data(V, FirstPart(), false),
     Swap([IDLE.(ds := Some(Decode(GuidNo(2), 0.0, 0.0)), next0 := Some(Decode(GuidNo(3), 0.0, 0.0)))]),
     Swap(PlayingOnly(GuidNo(3))), Swap(PlayingOnly(GuidNo(4))),
     Data(V, LastPart(), false), Swap(PlayingOnly(GuidNo(5)))]
  }

  predicate Holding(s: Stream, acc: Buffer, next: Buffer, pending: Buffer, playing: Buffer, awaiting: seq<Buffer>) {
    s.acc == acc && s.next == next && s.pending == pending && s.playing == playing && s.awaiting == awaiting
  }

  const UU := Named(U, GuidNo(1))
  const TT := Named(T, GuidNo(3))

  lemma FallbackStep0()
    ensures Step(NEW_STREAM, Begin(U, 0)) == NEW_STREAM.(acc := Fresh(U))
  {
  }

  lemma FallbackStep1()
    ensures Step(NEW_STREAM.(acc := Fresh(U)), Data(U, MarkerFrame(GuidNo(1)), false))
            == StartedPlaying(NEW_STREAM.(acc := UU))
  {
    var s := NEW_STREAM.(acc := Fresh(U));
    NamedRead(U, GuidNo(1));
    hide Appended, MarkerRead, Completes, Named, MarkerFrame;
    assert WriteSlot(s, U) == Accumulating;
  }

  lemma FallbackStep2()
    ensures var r := SwappedStream(StartedPlaying(NEW_STREAM.(acc := UU)), PlayingOnly(GuidNo(1)));
            && Holding(r, r.acc, EMPTY, UU, EMPTY, []) && r.acc.guid == U && r.synced && r.appending && r.toPending
  {
    hide MarkerFrame, IntervalOf;
    var chs := PlayingOnly(GuidNo(1));
    assert Audible(chs[0]) && PlaysNow(chs, GuidNo(1));
    assert chs[1..] == [];
  }

  /** T's interval, its frame count final. */
  function Waiter(): Buffer {
    TT.(totalFrames := 1)
  }

  function UPlays(): Buffer {
    UU.(totalFrames := 1)
  }

  lemma FallbackStep3(s: Stream)
    requires Holding(s, s.acc, EMPTY, UU, EMPTY, []) && s.synced && s.appending && s.toPending
    ensures var r := Begun(s, T, 0);
            Holding(r, Fresh(T), EMPTY, UPlays(), EMPTY, []) && r.synced && !r.appending
  {
    hide MarkerFrame;
  }

  lemma FallbackStep4(s: Stream)
    requires Holding(s, Fresh(T), EMPTY, UPlays(), EMPTY, []) && s.synced && !s.appending
    ensures var r := Written(s, T, MarkerFrame(GuidNo(3)), false);
            Holding(r, r.acc, TT, UPlays(), EMPTY, []) && r.acc.guid == T && r.synced && r.appending && r.toNext && !r.toPending
  {
    NamedRead(T, GuidNo(3));
    hide Appended, MarkerRead, Completes, MarkerFrame;
    assert WriteSlot(s, T) == Accumulating;
  }

  lemma FallbackStep5(s: Stream)
    requires Holding(s, s.acc, TT, UPlays(), EMPTY, []) && s.synced && s.appending && s.toNext && !s.toPending
    ensures var r := Begun(s, V, 0);
            Holding(r, Fresh(V), EMPTY, UPlays(), EMPTY, [Waiter()]) && r.synced && !r.appending
  {
    hide MarkerFrame;
  }

  /** U's interval has one more frame. */
  function UGrown(): Buffer {
    Appended(UPlays(), Item(LATER))
  }

  lemma GrownIs()
    ensures UGrown().guid == U && UGrown().active && UGrown().frames == 2
  {
    hide MarkerFrame;
    ItemLength(LATER);
    FirstWrite(UPlays(), LATER, Item(LATER));
  }

  lemma FallbackStep6(s: Stream)
    requires Holding(s, Fresh(V), EMPTY, UPlays(), EMPTY, [Waiter()]) && s.synced && !s.appending
    ensures var r := Written(s, U, Item(LATER), false);
            Holding(r, Fresh(V), EMPTY, UGrown(), EMPTY, [Waiter()]) && r.synced && r.appending && r.appendGuid == U
  {
    hide MarkerFrame, Item, Appended, Completes;
    assert WriteSlot(s, U) == Pending;
  }

  lemma FallbackStep7(s: Stream)
    requires Holding(s, Fresh(V), EMPTY, UGrown(), EMPTY, [Waiter()]) && s.synced && s.appending && s.appendGuid == U
    ensures var r := Written(s, V, Item(UNNAMED), false);
            Holding(r, FirstFrame(V), EMPTY, UGrown(), EMPTY, [Waiter()]) && r.synced && r.appending && r.appendGuid == U
  {
    GrownIs();
    FirstFrameRead(V);
    hide MarkerFrame, Item, Appended, Completes, MarkerRead, FirstFrame, UGrown;
    assert FirstAwaiting(s.awaiting, V, 0) == 1;
    assert WriteSlot(s, V) == Accumulating;
  }

  lemma FallbackStep8(s: Stream)
    requires Holding(s, FirstFrame(V), EMPTY, UGrown(), EMPTY, [Waiter()]) && s.synced && s.appending && s.appendGuid == U
    ensures var r := Written(s, V, FirstPart(), false);
            Holding(r, Half(), EMPTY, UGrown(), EMPTY, [Waiter()]) && r.synced
  {
    GrownIs();
    HalfArrives();
    hide MarkerFrame, Item, Appended, Completes, MarkerRead, UGrown, Half, FirstPart;
    assert FirstAwaiting(s.awaiting, V, 0) == 1;
    assert WriteSlot(s, V) == Accumulating;
  }

  function TwoQueued(): seq<Channel> {
    [IDLE.(ds := Some(Decode(GuidNo(2), 0.0, 0.0)), next0 := Some(Decode(GuidNo(3), 0.0, 0.0)))]
  }

  lemma FallbackStep9(s: Stream)
    requires Holding(s, Half(), EMPTY, UGrown(), EMPTY, [Waiter()]) && s.synced
    ensures Holding(SwappedStream(s, TwoQueued()), Left(), EMPTY, EMPTY, Half(), [Waiter()])
  {
    GrownIs();
    hide MarkerFrame, Item, UGrown, IntervalOf, FirstPart, LastPart;
    var chs := TwoQueued();
    assert chs[1..] == [];
    assert QueuePosition(chs, GuidNo(3)) == 1;
    assert StillWaits(Waiter(), chs);
  }

  lemma FallbackStep10(s: Stream)
    requires Holding(s, Left(), EMPTY, EMPTY, Half(), [Waiter()])
    ensures Holding(SwappedStream(s, PlayingOnly(GuidNo(3))), Left(), EMPTY, Waiter(), Half(), [])
  {
    hide MarkerFrame, Item, IntervalOf, FirstPart, LastPart;
    var chs := PlayingOnly(GuidNo(3));
    assert QueuePosition(chs, GuidNo(3)) == 0;
    assert !StillWaits(Waiter(), chs) && !OwnMatch(Waiter());
  }

  lemma FallbackStep11(s: Stream, chs: seq<Channel>)
    requires Holding(s, Left(), EMPTY, Waiter(), Half(), [])
    ensures Holding(SwappedStream(s, chs), Left(), EMPTY, EMPTY, Waiter(), []) && !SwappedStream(s, chs).appending
  {
    hide MarkerFrame, Item, IntervalOf, FirstPart, LastPart;
  }

  lemma FallbackStep12(s: Stream)
    requires Holding(s, Left(), EMPTY, EMPTY, Waiter(), []) && !s.appending
    ensures WriteSlot(s, V) == Accumulating
    ensures var r := Written(s, V, LastPart(), false);
            Holding(r, r.acc, Garbage(), EMPTY, Waiter(), []) && r.acc.guid == V
  {
    RestArrives();
    hide MarkerFrame, Item, Appended, Completes, MarkerRead, FirstPart, LastPart;
    assert WriteSlot(s, V) == Accumulating;
  }

  lemma FallbackStep13(s: Stream, a: Guid)
    requires Holding(s, s.acc, Garbage(), EMPTY, Waiter(), [])
    ensures SwappedStream(s, PlayingOnly(a)).playing == Garbage()
  {
    hide MarkerFrame, Item, FirstPart, LastPart;
    var chs := PlayingOnly(a);
    assert Audible(chs[0]) && FirstAudible(chs) == Some(a);
    var u := Unrouted(Promoted(s));
    assert Swept(u, chs) == u && u.next == s.next && MatchOf(u, chs) == NoMarker;
  }

  // ----- what is known of V along that run -----

  function Known(left: bool, sent: seq<seq<Byte>>, strays: nat): Track {
    Track(true, left, sent, strays, {U, T, V})
  }

  /** Events before V's BEGIN. */
  lemma BeforeV(s: Stream, t: Track, e: Event)
    requires !t.begun && t.sent == [] && t.strays == 0 && Step(s, e).acc.guid != V
    requires match e { case Begin(h, _) => h == U || h == T case Data(h, _, _) => h in t.tracked && h != V case Swap(_) => true case _ => false }
    ensures Fair(s, t, e, V)
    ensures Followed(s, t, e, V) == Track(false, true, [], 0, t.tracked + if e.Begin? then {e.guid} else {})
  {
    hide Step, Elsewhere, Strays;
  }

  lemma VBegins(s: Stream, t: Track)
    requires t == Track(false, true, [], 0, {U, T})
    ensures Fair(s, t, Begin(V, 0), V) && Followed(s, t, Begin(V, 0), V) == Known(false, [], 0)
  {
    hide Step, Elsewhere;
    assert {U, T} + {V} == {U, T, V};
  }

  /** Events until a swap takes V out of `accumulating`. */
  lemma WhileAccumulating(s: Stream, sent: seq<seq<Byte>>, e: Event)
    requires Step(s, e).acc.guid == V && !Elsewhere(Step(s, e), V) && e.Data? && (e.guid == U || e.guid == V) && !e.live
    ensures Fair(s, Known(false, sent, 0), e, V)
    ensures Followed(s, Known(false, sent, 0), e, V) == Known(false, if e.guid == V then sent + [e.w] else sent, 0)
  {
    hide Step, Elsewhere;
  }

  lemma OutOfAcc(s: Stream, left: bool, sent: seq<seq<Byte>>, strays: nat, chs: seq<Channel>)
    requires left || Elsewhere(Step(s, Swap(chs)), V)
    ensures Fair(s, Known(left, sent, strays), Swap(chs), V)
    ensures Followed(s, Known(left, sent, strays), Swap(chs), V) == Known(true, sent, strays)
  {
    hide Step, Elsewhere;
  }

  lemma VStrays(s: Stream, sent: seq<seq<Byte>>, w: seq<Byte>)
    requires WriteSlot(s, V) == Accumulating && w != []
    ensures Fair(s, Known(true, sent, 0), Data(V, w, false), V)
    ensures Followed(s, Known(true, sent, 0), Data(V, w, false), V) == Known(true, sent + [w], 1)
  {
    hide Step, Elsewhere, WriteSlot;
  }

  /** The state and the track after the first n events. */
  ghost predicate After(n: nat, s: Stream, t: Track)
    requires n <= |FallbackRun()|
  {
    var es := FallbackRun()[..n];
    Ran(NEW_STREAM, es) == s && Following(es, V) == t && FairRun(es, V)
  }

  lemma Onwards(n: nat, s: Stream, t: Track)
    requires n < |FallbackRun()| && After(n, s, t) && Fair(s, t, FallbackRun()[n], V)
    ensures After(n + 1, Step(s, FallbackRun()[n]), Followed(s, t, FallbackRun()[n], V))
  {
    hide Step, Followed, Fair, Ran, Following, FairRun;
    var es := FallbackRun();
    assert es[..n + 1] == es[..n] + [es[n]];
    OneMore(es[..n], es[n], V);
  }

  lemma StepMeans(s: Stream, e: Event)
    ensures e.Begin? ==> Step(s, e) == Begun(s, e.guid, e.seqNo)
    ensures e.Data? ==> Step(s, e) == Written(s, e.guid, e.w, e.live)
    ensures e.Swap? ==> Step(s, e) == SwappedStream(s, e.chs)
  {
  }

  lemma AtStart()
    ensures After(0, NEW_STREAM, NO_TRACK)
  {
    assert FallbackRun()[..0] == [];
  }

  lemma NotElsewhere(s: Stream)
    requires Holding(s, s.acc, EMPTY, s.pending, EMPTY, s.awaiting)
    requires s.pending.guid != V && forall i :: 0 <= i < |s.awaiting| ==> s.awaiting[i].guid != V
    ensures !Elsewhere(s, V)
  {
  }

  lemma Distinct()
    ensures U != V && T != V && U != T
  {
    assert U[0] == 102 && V[0] == 101 && T[0] == 103;
  }

  lemma FirstEvents()
    ensures var es := FallbackRun();
            && |es| == 14
            && es[0] == Begin(U, 0) && es[1] == Data(U, MarkerFrame(GuidNo(1)), false) && es[2] == Swap(PlayingOnly(GuidNo(1)))
            && es[3] == Begin(T, 0) && es[4] == Data(T, MarkerFrame(GuidNo(3)), false) && es[5] == Begin(V, 0)
  {
    hide GuidNo, MarkerFrame, PlayingOnly;
  }

  lemma UntilUPlays() returns (s: Stream)
    ensures After(3, s, Track(false, true, [], 0, {U}))
    ensures Holding(s, s.acc, EMPTY, UU, EMPTY, []) && s.acc.guid == U && s.synced && s.appending && s.toPending
  {
    hide After, Followed, Fair, MarkerFrame, SwappedStream, Written, Begun, StartedPlaying, Step, PlayingOnly, GuidNo, FallbackRun;
    Distinct();
    FirstEvents();
    s := NEW_STREAM;
    AtStart();
    var es := FallbackRun();
    FallbackStep0();
    BeforeV(s, NO_TRACK, es[0]);
    Onwards(0, s, NO_TRACK);
    assert {} + {U} == {U};
    s := Step(s, es[0]);
    var t := Track(false, true, [], 0, {U});
    FallbackStep1();
    StartedAcc(NEW_STREAM.(acc := UU));
    BeforeV(s, t, es[1]);
    assert {U} + {} == {U};
    Onwards(1, s, t);
    s := Step(s, es[1]);
    StepMeans(s, es[2]);
    FallbackStep2();
    BeforeV(s, t, es[2]);
    Onwards(2, s, t);
    s := Step(s, es[2]);
  }

  lemma UntilTBegins() returns (s: Stream)
    ensures After(4, s, Track(false, true, [], 0, {U, T}))
    ensures Holding(s, Fresh(T), EMPTY, UPlays(), EMPTY, []) && s.synced && !s.appending
  {
    hide After, Followed, Fair, MarkerFrame, SwappedStream, Written, Begun, StartedPlaying, Step, PlayingOnly, GuidNo, FallbackRun;
    Distinct();
    FirstEvents();
    s := UntilUPlays();
    var t := Track(false, true, [], 0, {U});
    var es := FallbackRun();
    StepMeans(s, es[3]);
    FallbackStep3(s);
    BeforeV(s, t, es[3]);
    Onwards(3, s, t);
    s := Step(s, es[3]);
    assert {U} + {T} == {U, T};
  }

  lemma StartedAcc(s: Stream)
    ensures StartedPlaying(s).acc.guid == s.acc.guid
  {
  }

  lemma UntilVBegins() returns (s: Stream)
    ensures After(6, s, Known(false, [], 0))
    ensures Holding(s, Fresh(V), EMPTY, UPlays(), EMPTY, [Waiter()]) && s.synced && !s.appending
  {
    hide After, Followed, Fair, MarkerFrame, SwappedStream, Written, Begun, Step, PlayingOnly, GuidNo, FallbackRun;
    Distinct();
    FirstEvents();
    s := UntilTBegins();
    assert {U, T} + {} == {U, T};
    var t := Track(false, true, [], 0, {U, T});
    var es := FallbackRun();
    StepMeans(s, es[4]);
    FallbackStep4(s);
    BeforeV(s, t, es[4]);
    Onwards(4, s, t);
    s := Step(s, es[4]);
    StepMeans(s, es[5]);
    FallbackStep5(s);
    VBegins(s, t);
    Onwards(5, s, t);
    s := Step(s, es[5]);
  }

  lemma UntilFallback() returns (s: Stream)
    ensures After(9, s, Known(false, [Item(UNNAMED), FirstPart()], 0))
    ensures Holding(s, Half(), EMPTY, UGrown(), EMPTY, [Waiter()]) && s.synced
  {
    hide After, Followed, Fair, MarkerFrame, Item, FirstPart, SwappedStream, Written, Begun, Step, UGrown, Elsewhere;
    GrownIs();
    s := UntilVBegins();
    var es := FallbackRun()[..9];
    StepMeans(s, es[6]);
    FallbackStep6(s);
    NotElsewhere(Step(s, es[6]));
    WhileAccumulating(s, [], es[6]);
    Onwards(6, s, Known(false, [], 0));
    s := Step(s, es[6]);
    StepMeans(s, es[7]);
    FallbackStep7(s);
    NotElsewhere(Step(s, es[7]));
    WhileAccumulating(s, [], es[7]);
    assert [] + [Item(UNNAMED)] == [Item(UNNAMED)];
    Onwards(7, s, Known(false, [], 0));
    s := Step(s, es[7]);
    StepMeans(s, es[8]);
    FallbackStep8(s);
    NotElsewhere(Step(s, es[8]));
    WhileAccumulating(s, [Item(UNNAMED)], es[8]);
    assert [Item(UNNAMED)] + [FirstPart()] == [Item(UNNAMED), FirstPart()];
    Onwards(8, s, Known(false, [Item(UNNAMED)], 0));
    s := Step(s, es[8]);
  }

  lemma PlaysElsewhere(s: Stream)
    requires s.playing == Half()
    ensures Elsewhere(s, V)
  {
  }

  lemma UntilReplaced() returns (s: Stream)
    ensures After(12, s, Known(true, [Item(UNNAMED), FirstPart()], 0))
    ensures Holding(s, Left(), EMPTY, EMPTY, Waiter(), []) && !s.appending
  {
    hide After, Followed, Fair, MarkerFrame, Item, FirstPart, LastPart, SwappedStream, Written, Begun, Step, UGrown, Elsewhere, Half;
    s := UntilFallback();
    var sent := [Item(UNNAMED), FirstPart()];
    var es := FallbackRun()[..12];
    StepMeans(s, es[9]);
    FallbackStep9(s);
    PlaysElsewhere(Step(s, es[9]));
    OutOfAcc(s, false, sent, 0, TwoQueued());
    Onwards(9, s, Known(false, sent, 0));
    s := Step(s, es[9]);
    StepMeans(s, es[10]);
    FallbackStep10(s);
    OutOfAcc(s, true, sent, 0, es[10].chs);
    Onwards(10, s, Known(true, sent, 0));
    s := Step(s, es[10]);
    StepMeans(s, es[11]);
    FallbackStep11(s, es[11].chs);
    OutOfAcc(s, true, sent, 0, es[11].chs);
    Onwards(11, s, Known(true, sent, 0));
    s := Step(s, es[11]);
  }

  /** The rest of V's second frame is handed to the application as a frame, four of its bytes
      taken for a length; V sent no such frame. */
  lemma FallbackHandsOverGarbage()
    ensures FairRun(FallbackRun(), V) && Following(FallbackRun(), V).strays == 1
    ensures Following(FallbackRun(), V).sent == Writes([UNNAMED, Large()]) && AllSendable([UNNAMED, Large()])
    ensures var b := Ran(NEW_STREAM, FallbackRun()).playing;
            && b.guid == V && b.frames == 1 && b.data == LastPart()
            && DispatchSlice(b, 0) == LastPart()[4..] && DispatchSlice(b, 0) != UNNAMED && DispatchSlice(b, 0) != Large()
  {
    hide After, Followed, Fair, MarkerFrame, Item, FirstPart, LastPart, Large, SwappedStream, Written, Begun, Step, Elsewhere, Half, Writes, WriteSlot;
    LargeSent();
    var s := UntilReplaced();
    var sent := [Item(UNNAMED), FirstPart()];
    var es := FallbackRun();
    StepMeans(s, es[12]);
    FallbackStep12(s);
    VStrays(s, sent, LastPart());
    Onwards(12, s, Known(true, sent, 0));
    s, sent := Step(s, es[12]), sent + [LastPart()];
    StepMeans(s, es[13]);
    FallbackStep13(s, GuidNo(5));
    OutOfAcc(s, true, sent, 1, es[13].chs);
    Onwards(13, s, Known(true, sent, 1));
    WholeRun(Step(s, es[13]), Known(true, sent, 1));
    GarbageSlice();
  }

  lemma WholeRun(s: Stream, t: Track)
    requires After(14, s, t)
    ensures Ran(NEW_STREAM, FallbackRun()) == s && Following(FallbackRun(), V) == t && FairRun(FallbackRun(), V)
  {
    assert FallbackRun()[..14] == FallbackRun();
  }

  lemma GarbageSlice()
    ensures Garbage().guid == V && Garbage().frames == 1 && DispatchSlice(Garbage(), 0) == LastPart()[4..]
  {
    hide Item, FirstPart, LastPart;
  }
}
