/** Whole runs of the recorder's two threads: what the encoder is handed, when frames are lost,
    and what stop()'s final drain adds (SessionRecorder.cpp). */
module RecorderRuns {
  import opened Options
  import opened RecorderRing

  // ----- whole runs -----

  /** The ring as start() leaves it; its cells hold anything. */
  predicate Started(s: State) {
    && Shape(s) && s.writePos == 0 && s.readPos == 0 && s.writer == Outside && s.reader == Waiting
    && s.errors == 0 && !s.stopping
    && s.written == [] && s.published == 0 && s.released == 0 && s.chunks == [] && s.results == [] && s.final == None
  }

  /** Each step is one some thread can take. */
  ghost predicate Possible(s: State, es: seq<Event>)
    decreases |es|
  {
    Shape(s) && (es != [] ==> Enabled(s, es[0]) && Possible(Step(s, es[0]), es[1..]))
  }

  function After(s: State, es: seq<Event>): (t: State)
    requires Possible(s, es)
    ensures Shape(t)
    decreases |es|
  {
    if es == [] then s else After(Step(s, es[0]), es[1..])
  }

  ghost predicate RoomyRun(s: State, es: seq<Event>)
    requires Possible(s, es)
    decreases |es|
  {
    es != [] ==> Roomy(s, es[0]) && RoomyRun(Step(s, es[0]), es[1..])
  }

  lemma StartedInv(s: State)
    requires Started(s)
    ensures Inv(s) && ValuesOk(s) && FinalOk(s)
  {
    assert s.chunks[0..] == [] && s.chunks[..0] == [];
    assert WriterOk(s);
    hide HoldsLast, WriterOk, Wrap;
  }

  lemma {:induction false} RunKeeps(s: State, es: seq<Event>)
    requires Possible(s, es) && Inv(s)
    ensures Inv(After(s, es))
    ensures RoomyRun(s, es) && ValuesOk(s) && FinalOk(s) ==> ValuesOk(After(s, es)) && FinalOk(After(s, es))
    decreases |es|
  {
    hide Inv, Step, ValuesOk, FinalOk, Roomy;
    if es != [] {
      StepKeeps(s, es[0]);
      if FinalOk(s) && Roomy(s, es[0]) {
        RoomyLooks(s, es[0]);
        FinalStepOk(s, es[0]);
      }
      RunKeeps(Step(s, es[0]), es[1..]);
    }
  }

  lemma RoomyLooks(s: State, e: Event)
    requires Shape(s) && Enabled(s, e) && Roomy(s, e)
    ensures ShortLook(s, e)
  {
  }

  /** All frames handed to the encoder. */
  function Handed(cs: seq<Chunk>): seq<Frame> {
    if cs == [] then [] else Handed(cs[..|cs| - 1]) + cs[|cs| - 1].frames
  }

  lemma {:induction false} HandedIs(cs: seq<Chunk>, from: nat, upTo: nat, written: seq<Frame>)
    requires Contiguous(cs, from, upTo)
    requires forall c :: c in cs ==> c.End() <= |written| && c.frames == written[c.start..c.End()]
    ensures cs != [] ==> from <= upTo <= |written|
    ensures if cs == [] then Handed(cs) == [] && from == upTo else Handed(cs) == written[from..upTo]
  {
    if cs != [] {
      var z := |cs| - 1;
      HandedIs(cs[..z], from, cs[z].start, written);
      assert Contiguous(cs[..z], from, cs[z].start) && cs[z].End() == upTo;
    }
  }

  /** However the steps of the two threads interleave, up to the final drain, the frames handed
      to the encoder are the first frames written, in order, and each once. */
  lemma EachFrameOnceInOrder(s: State, es: seq<Event>)
    requires Started(s) && Possible(s, es) && RoomyRun(s, es) && After(s, es).final.None?
    ensures var t := After(s, es);
            && Handed(t.chunks) <= t.written
            && (t.reader.Waiting? ==> t.released <= |t.written| && Handed(t.chunks) == t.written[..t.released])
  {
    hide Step, After;
    StartedInv(s);
    RunKeeps(s, es);
    var t := After(s, es);
    hide WriterOk, ResultsOk, Contiguous;
    assert t.chunks[0..] == t.chunks;
    var upTo := HandedUpTo(t.chunks, 0, t);
    HandedIs(t.chunks, 0, upTo, t.written);
  }

  lemma HandedUpTo(cs: seq<Chunk>, from: nat, s: State) returns (upTo: nat)
    requires Fresh(cs, from, s)
    ensures Contiguous(cs, from, upTo)
    ensures s.reader.Waiting? ==> upTo == s.released
  {
    upTo := match s.reader
      case Fed(_, _, size) => s.released + size
      case Stopped => cs[|cs| - 1].End()
      case _ => s.released;
  }

  // ----- what is lost -----

  /** Whatever is read now, a whole ring or more stays behind. */
  predicate Behind(s: State) {
    s.published - s.released - (if s.reader.Copying? || s.reader.Fed? then s.reader.available else 0) >= RING_BUFFER_SIZE
  }

  lemma BehindStays(s: State, e: Event)
    requires Inv(s) && Enabled(s, e) && (Behind(s) || !ShortLook(s, e))
    ensures Behind(Step(s, e))
  {
    hide HoldsLast, ChunksOk, ResultsOk;
    if e.Load? || e.FinalDrain? {
      AheadIs(s.published, s.released);
      WholeRingsStay(s.published - s.released);
    }
    hide Wrap;
  }

  lemma WholeRingsStay(diff: nat)
    requires diff >= RING_BUFFER_SIZE
    ensures diff - diff % RING_BUFFER_SIZE >= RING_BUFFER_SIZE
  {
  }

  ghost predicate ShortLooks(s: State, es: seq<Event>)
    requires Possible(s, es)
    decreases |es|
  {
    es != [] ==> ShortLook(s, es[0]) && ShortLooks(Step(s, es[0]), es[1..])
  }

  lemma {:induction false} BehindForever(s: State, es: seq<Event>)
    requires Possible(s, es) && Inv(s) && (Behind(s) || !ShortLooks(s, es))
    ensures Behind(After(s, es))
    decreases |es|
  {
    hide Inv, Step, Behind, ShortLook;
    if es != [] {
      StepKeeps(s, es[0]);
      if Behind(s) || !ShortLook(s, es[0]) {
        BehindStays(s, es[0]);
      }
      BehindForever(Step(s, es[0]), es[1..]);
    }
  }

  /** The loop looks at the write position once more, and finds nothing: then all that is
      published was handed over exactly when no look in the whole run, this one included, found
      a whole ring or more. */
  lemma NothingLostIff(s: State, es: seq<Event>)
    requires Started(s) && Possible(s, es) && Enabled(After(s, es), Load) && Step(After(s, es), Load).reader.Waiting?
    ensures var t := After(s, es);
            && Contiguous(t.chunks, 0, t.released)
            && (t.released == t.published <==> ShortLooks(s, es) && ShortLook(t, Load))
  {
    hide Step, After, ShortLooks;
    StartedInv(s);
    RunKeeps(s, es);
    var t := After(s, es);
    assert t.chunks[0..] == t.chunks;
    if !ShortLooks(s, es) {
      BehindForever(s, es);
    }
    hide HoldsLast, Contiguous, ResultsOk;
    LookFinds(t);
  }

  lemma LookFinds(t: State)
    requires Shape(t) && WriterOk(t) && ReaderOk(t) && Enabled(t, Load) && Step(t, Load).reader.Waiting?
    ensures (t.published - t.released) % RING_BUFFER_SIZE == 0
  {
    hide HoldsLast;
    AheadIs(t.published, t.released);
  }

  // ----- the final drain -----

  function ChunksNeeded(frames: nat): nat {
    (frames + 4096 - 1) / 4096
  }

  /** How far the final drain is. */
  predicate FinalOk(s: State) {
    s.final.Some? ==>
      var f := s.final.value;
      var m := |s.results| - f.feeds;
      && f.released <= f.published && f.feeds <= |s.results| && (f.released == f.published ==> Calm(s.results, 0, f.feeds))
      && match s.reader
         case Waiting => s.released == f.published && m == ChunksNeeded(f.published - f.released)
         case Copying(_, available, _, _, _) => s.released == f.released + CHUNK_FRAMES * m && available == f.published - s.released
         case Fed(_, available, _) =>
           m >= 1 && s.released == f.released + CHUNK_FRAMES * (m - 1) && available == f.published - s.released
         case Stopped =>
           && m >= 1 && s.released == f.released + CHUNK_FRAMES * (m - 1) < f.published
           && s.chunks != [] && s.chunks[|s.chunks| - 1].End() == s.released + Min(f.published - s.released, CHUNK_FRAMES)
  }

  lemma FinalStepOk(s: State, e: Event)
    requires Inv(s) && FinalOk(s) && Enabled(s, e) && ShortLook(s, e)
    ensures FinalOk(Step(s, e))
  {
    hide HoldsLast, ChunksOk, ResultsOk;
    if e.FinalDrain? {
      FinalBegins(s);
    } else if e.Feed? {
      FinalFeeds(s, e.ok);
    } else if e.Release? {
      FinalReleases(s);
    } else {
      hide Wrap;
    }
  }

  lemma FinalBegins(s: State)
    requires Inv(s) && Enabled(s, FinalDrain) && ShortLook(s, FinalDrain)
    ensures FinalOk(Step(s, FinalDrain))
  {
    AheadIs(s.published, s.released);
    hide HoldsLast, ChunksOk, Calm, Streak, Wrap;
  }

  lemma FinalFeeds(s: State, ok: bool)
    requires Inv(s) && FinalOk(s) && Enabled(s, Feed(ok))
    ensures FinalOk(Step(s, Feed(ok)))
  {
    hide HoldsLast, WriterOk, Wrap, Streak, Calm, Contiguous;
    if s.final.Some? {
      CalmPrefix(s.results, ok, s.final.value.feeds);
    }
  }

  lemma FinalReleases(s: State)
    requires Inv(s) && FinalOk(s) && Enabled(s, Release)
    ensures FinalOk(Step(s, Release))
  {
    hide HoldsLast, WriterOk, Wrap, ChunksOk, ResultsOk;
  }

  /** stop()'s final drain has ended. */
  predicate Complete(s: State) {
    s.final.Some? && (s.reader.Waiting? || s.reader.Stopped?)
  }

  /** No frame is handed to the encoder twice, or out of order. */
  predicate NoneTwice(cs: seq<Chunk>) {
    forall i, j :: 0 <= i < j < |cs| ==> cs[i].End() <= cs[j].start
  }

  lemma {:induction false} ContiguousApart(cs: seq<Chunk>, from: nat, upTo: nat)
    requires Contiguous(cs, from, upTo)
    ensures NoneTwice(cs) && from <= upTo && (cs != [] ==> cs[0].start == from)
    ensures forall i :: 0 <= i < |cs| ==> from <= cs[i].start && cs[i].End() <= upTo
  {
    if cs != [] {
      var z := |cs| - 1;
      ContiguousApart(cs[..z], from, cs[z].start);
      if z == 0 {
        assert cs[..0] == [];
      }
    }
  }

  /** The last frame published when the final drain began was handed over. */
  predicate AllHanded(s: State)
    requires s.final.Some?
  {
    s.final.value.published == s.final.value.released || (s.chunks != [] && s.chunks[|s.chunks| - 1].End() == s.final.value.published)
  }

  /** Results of the final drain before its last chunk. */
  function BeforeLast(s: State): nat
    requires s.final.Some?
  {
    var f := s.final.value;
    var needed := if f.published <= f.released then 0 else ChunksNeeded(f.published - f.released) - 1;
    Min(|s.results|, f.feeds + needed)
  }

  /** The first chunk of the final drain starts where the chunk before it started, when that one
      was not released. */
  lemma TwiceIffGivenUp(s: State)
    requires Inv(s) && FinalOk(s) && Complete(s)
    ensures s.final.value.feeds <= |s.results|
    ensures NoneTwice(s.chunks) <==> Calm(s.results, 0, s.final.value.feeds)
  {
    hide WriterOk, Streak, Calm, Contiguous, NoneTwice;
    var f := s.final.value;
    var first, second := s.chunks[..f.feeds], s.chunks[f.feeds..];
    var upTo := HandedUpTo(second, f.released, s);
    ContiguousApart(second, f.released, upTo);
    if Calm(s.results, 0, f.feeds) {
      ContiguousApart(first, 0, f.released);
      TwoApart(s.chunks, f.feeds, f.released);
    } else {
      assert s.chunks[f.feeds - 1] == first[f.feeds - 1] && s.chunks[f.feeds] == second[0];
      OneTwice(s.chunks, f.feeds - 1, f.feeds);
    }
  }

  lemma TwoApart(cs: seq<Chunk>, n: nat, at: nat)
    requires n <= |cs| && NoneTwice(cs[..n]) && NoneTwice(cs[n..])
    requires (forall i :: 0 <= i < n ==> cs[..n][i].End() <= at) && (forall i :: 0 <= i < |cs| - n ==> at <= cs[n..][i].start)
    ensures NoneTwice(cs)
  {
    forall i, j | 0 <= i < j < |cs|
      ensures cs[i].End() <= cs[j].start
    {
      assert i < n ==> cs[..n][i] == cs[i];
      assert i >= n ==> cs[n..][i - n] == cs[i];
      assert j < n ==> cs[..n][j] == cs[j];
      assert j >= n ==> cs[n..][j - n] == cs[j];
    }
  }

  lemma OneTwice(cs: seq<Chunk>, i: nat, j: nat)
    requires i < j < |cs| && cs[i].End() > cs[j].start
    ensures !NoneTwice(cs)
  {
  }

  lemma HandedIffCalm(s: State)
    requires Inv(s) && FinalOk(s) && Complete(s)
    ensures s.final.value.feeds <= BeforeLast(s) <= |s.results|
    ensures AllHanded(s) <==> Calm(s.results, s.final.value.feeds, BeforeLast(s))
  {
    hide WriterOk, Streak, Contiguous;
    var f := s.final.value;
    var n := |s.results|;
    assert s.results[..n] == s.results;
    if s.reader.Waiting? && f.released < f.published {
      EndsAtReleased(s.chunks[f.feeds..], f.released, s.released);
    }
  }

  lemma EndsAtReleased(cs: seq<Chunk>, from: nat, upTo: nat)
    requires Contiguous(cs, from, upTo) && from < upTo
    ensures cs != [] && cs[|cs| - 1].End() == upTo
  {
  }

  /** stop() was called and the final drain has ended, after any interleaving. No frame was
      handed over twice exactly when no ten failures in a row came before the final drain; and
      the last frame published was handed over exactly when no ten in a row, counted on from
      before, came in the final drain before its last chunk. With neither, the encoder got
      exactly the frames published, in order. */
  lemma WholeRecording(s: State, es: seq<Event>)
    requires Started(s) && Possible(s, es) && RoomyRun(s, es) && Complete(After(s, es))
    ensures var t := After(s, es);
            var f := t.final.value;
            && f.feeds <= BeforeLast(t) <= |t.results|
            && (NoneTwice(t.chunks) <==> Calm(t.results, 0, f.feeds))
            && (AllHanded(t) <==> Calm(t.results, f.feeds, BeforeLast(t)))
            && (NoneTwice(t.chunks) && AllHanded(t) ==> f.published <= |t.written| && Handed(t.chunks) == t.written[..f.published])
  {
    hide Step, After;
    StartedInv(s);
    RunKeeps(s, es);
    var t := After(s, es);
    TwiceIffGivenUp(t);
    HandedIffCalm(t);
    if NoneTwice(t.chunks) && AllHanded(t) {
      AllInOrder(t);
    }
  }

  lemma AllInOrder(t: State)
    requires Inv(t) && FinalOk(t) && ValuesOk(t) && Complete(t) && AllHanded(t)
    requires t.final.value.feeds <= |t.results| && Calm(t.results, 0, t.final.value.feeds)
    ensures t.final.value.published <= |t.written| && Handed(t.chunks) == t.written[..t.final.value.published]
  {
    hide WriterOk, Streak, Calm, Contiguous;
    var f := t.final.value;
    var first, second := t.chunks[..f.feeds], t.chunks[f.feeds..];
    var upTo := HandedUpTo(second, f.released, t);
    ContiguousJoins(first, second, 0, f.released, upTo);
    assert t.chunks == first + second;
    HandedIs(t.chunks, 0, upTo, t.written);
    LastEnds(t.chunks, 0, upTo);
    if t.chunks == [] {
      assert second == [];
    }
    if second == [] {
      NoChunks(f.released, upTo);
    }
  }

  lemma NoChunks(from: nat, upTo: nat)
    ensures Contiguous([], from, upTo) ==> from == upTo
  {
  }

  lemma LastEnds(cs: seq<Chunk>, from: nat, upTo: nat)
    requires Contiguous(cs, from, upTo)
    ensures if cs == [] then from == upTo else cs[|cs| - 1].End() == upTo
  {
  }

  lemma {:induction false} ContiguousJoins(a: seq<Chunk>, b: seq<Chunk>, from: nat, mid: nat, upTo: nat)
    requires Contiguous(a, from, mid) && Contiguous(b, mid, upTo)
    ensures Contiguous(a + b, from, upTo)
    decreases |b|
  {
    if b == [] {
      assert a + b == a;
    } else {
      var z := |b| - 1;
      ContiguousJoins(a, b[..z], from, mid, b[z].start);
      assert (a + b)[..|a + b| - 1] == a + b[..z];
    }
  }

  // ----- a simple guard for the writer -----

  /** The writer, with the cell it is about to fill, stays less than the ring's size ahead of
      the read position. */
  predicate Ahead(s: State, e: Event) {
    e.WriteLeft? ==> |s.written| + 1 - s.released < 96000
  }

  ghost predicate AheadRun(s: State, es: seq<Event>)
    requires Possible(s, es)
    decreases |es|
  {
    es != [] ==> Ahead(s, es[0]) && AheadRun(Step(s, es[0]), es[1..])
  }

  lemma {:induction false} AheadIsRoomy(s: State, es: seq<Event>)
    requires Possible(s, es) && AheadRun(s, es) && Inv(s) && LeftWritten(s) - s.released < 96000
    ensures RoomyRun(s, es)
    decreases |es|
  {
    hide Inv, Step, Roomy;
    if es != [] {
      AheadStep(s, es[0]);
      StepKeeps(s, es[0]);
      AheadIsRoomy(Step(s, es[0]), es[1..]);
    }
  }

  lemma AheadStep(s: State, e: Event)
    requires Inv(s) && Enabled(s, e) && Ahead(s, e) && LeftWritten(s) - s.released < RING_BUFFER_SIZE
    ensures Roomy(s, e) && LeftWritten(Step(s, e)) - Step(s, e).released < RING_BUFFER_SIZE
  {
    hide HoldsLast, Wrap, ChunksOk, ResultsOk;
  }

  // ----- when the writer runs a whole ring ahead -----

  /** A writer that publishes while the loop is waiting, and leaves a whole ring or more to
      read: whatever happens from then on, the reader never gets to the end. */
  lemma PublishTooMuch(s: State, es: seq<Event>)
    requires Inv(s) && Enabled(s, Publish) && !s.reader.Copying? && !s.reader.Fed?
    requires |s.written| - s.released >= 96000 && Possible(Step(s, Publish), es)
    ensures After(Step(s, Publish), es).released < After(Step(s, Publish), es).published
  {
    StepKeeps(s, Publish);
    assert Behind(Step(s, Publish));
    BehindForever(Step(s, Publish), es);
  }

  /** The steps of the writer for some frames. */
  function Writes(n: nat): seq<Event> {
    if n == 0 then [Publish] else [WriteLeft, WriteRight] + Writes(n - 1)
  }

  lemma {:induction false} WritesRun(s: State, frames: seq<Frame>)
    requires Shape(s) && s.writer.Writing? && s.writer.frames == frames && !s.writer.leftDone
    ensures Possible(s, Writes(|frames|))
    ensures var t := After(s, Writes(|frames|));
            && t.writePos == Wrap(s.writer.wp + |frames|) && t.writer == Outside && t.written == s.written + frames
            && t.reader == s.reader && t.readPos == s.readPos && t.chunks == s.chunks && t.final == s.final
    decreases |frames|
  {
    hide Step, Wrap, After, Possible, Writes;
    if frames == [] {
      OnePublished(s);
    } else {
      OneWritten(s);
      var u := Step(Step(s, WriteLeft), WriteRight);
      WritesRun(u, frames[1..]);
      WrapSum(s.writer.wp + 1, |frames| - 1);
      assert u.written + frames[1..] == s.written + frames;
      WritesUnfold(|frames|);
      Unfold(s, Step(s, WriteLeft), u, Writes(|frames|), Writes(|frames| - 1));
    }
  }

  lemma WritesUnfold(n: nat)
    requires n > 0
    ensures var es, rest := Writes(n), Writes(n - 1);
            |es| == |rest| + 2 && es[0] == WriteLeft && es[1] == WriteRight && es[2..] == rest
  {
  }

  lemma OnePublished(s: State)
    requires Shape(s) && s.writer.Writing? && s.writer.frames == [] && !s.writer.leftDone
    ensures Possible(s, Writes(0))
    ensures var t := After(s, Writes(0));
            && t.writePos == s.writer.wp == Wrap(s.writer.wp) && t.writer == Outside && t.written == s.written
            && t.reader == s.reader && t.readPos == s.readPos && t.chunks == s.chunks && t.final == s.final
  {
    var es := Writes(0);
    assert es == [Publish] && es[1..] == [];
    assert Possible(Step(s, Publish), []);
    assert After(s, es) == After(Step(s, Publish), []);
  }

  lemma OneWritten(s: State)
    requires Shape(s) && s.writer.Writing? && s.writer.frames != [] && !s.writer.leftDone
    ensures Enabled(Step(s, WriteLeft), WriteRight)
    ensures var w, u := s.writer, Step(Step(s, WriteLeft), WriteRight);
            && u.writer == Writing(Wrap(w.wp + 1), w.frames[1..], false) && u.written == s.written + [w.frames[0]]
            && u.reader == s.reader && u.readPos == s.readPos && u.chunks == s.chunks && u.final == s.final
  {
  }

  lemma Unfold(s: State, t: State, u: State, es: seq<Event>, rest: seq<Event>)
    requires Shape(s) && |es| == |rest| + 2 && es[0] == WriteLeft && es[1] == WriteRight && es[2..] == rest
    requires Enabled(s, WriteLeft) && t == Step(s, WriteLeft) && Enabled(t, WriteRight) && u == Step(t, WriteRight)
    requires Possible(u, rest)
    ensures Possible(s, es) && After(s, es) == After(u, rest)
  {
    hide Step;
    assert es[1..][0] == WriteRight && es[1..][1..] == rest;
    assert Possible(t, es[1..]);
  }

  /** A whole ring written and published with no reading in between: the reader finds nothing at
      all. */
  lemma WholeRingIsLost(s: State, frames: seq<Frame>)
    requires Started(s) && |frames| == 96000
    ensures var es := [Call(frames)] + Writes(|frames|);
            && Possible(s, es) && After(s, es).written == frames && Enabled(After(s, es), Load)
            && Step(After(s, es), Load).reader.Waiting? && After(s, es).chunks == []
  {
    var es := [Call(frames)] + Writes(|frames|);
    var t := Step(s, Call(frames));
    WritesRun(t, frames);
    assert es[1..] == Writes(|frames|);
    assert [] + frames == frames;
    hide Writes;
    assert After(s, es) == After(t, Writes(|frames|));
  }
}
