/** The session recorder's ring buffer between the audio thread and the encode thread, up to
    stop()'s final drain (SessionRecorder.cpp): every single access to shared memory is a step,
    and the steps interleave in any order. */
module RecorderRing {
  import opened Options

  const RING_BUFFER_SIZE := 96000
  const CHUNK_FRAMES := 4096
  const MAX_CONSECUTIVE_ERRORS := 10

  datatype Frame = Frame(left: real, right: real)

  /** The audio thread: in writeSamples with the frames still to write, or outside. */
  datatype Writer = Outside | Writing(wp: nat, frames: seq<Frame>, leftDone: bool)

  /** The thread that drains: waiting, gathering a chunk, with a chunk fed and not yet released,
      or after too many failures. */
  datatype Reader =
    | Waiting
    | Copying(rp: nat, available: nat, size: nat, got: seq<Frame>, left: Option<real>)
    | Fed(rp: nat, available: nat, size: nat)
    | Stopped

  /** Frames handed to the encoder, and which place in the recording the reader takes them for. */
  datatype Chunk = Chunk(start: nat, frames: seq<Frame>) {
    function End(): nat {
      start + |frames|
    }
  }

  /** What stop()'s final drain found: the chunks fed before, the frames released, and published. */
  datatype Final = Final(feeds: nat, released: nat, published: nat)

  /** Shared memory, the two threads, and the history: the frames written to the ring, how many
      of them are published and released, the chunks handed to the encoder, and what it said. */
  datatype State = State(
    ringL: seq<real>, ringR: seq<real>, writePos: nat, readPos: nat,
    writer: Writer, reader: Reader, errors: nat, stopping: bool,
    written: seq<Frame>, published: nat, released: nat, chunks: seq<Chunk>, results: seq<bool>, final: Option<Final>)

  predicate Shape(s: State) {
    && |s.ringL| == |s.ringR| == RING_BUFFER_SIZE && s.writePos < RING_BUFFER_SIZE && s.readPos < RING_BUFFER_SIZE
    && (s.writer.Writing? ==> s.writer.wp < RING_BUFFER_SIZE)
  }

  datatype Event =
    | Call(frames: seq<Frame>) // writeSamples is entered
    | WriteLeft
    | WriteRight
    | Publish
    | Load // drainRingBuffer looks at the write position
    | CopyLeft
    | CopyRight
    | Feed(ok: bool)
    | Release // m_readPos is stored
    | Stop // stop() is called: no more calls of writeSamples
    | FinalDrain // the encode thread has ended; the final drain looks at the write position

  function Min(a: nat, b: nat): nat {
    if a < b then a else b
  }

  function Wrap(x: int): (r: nat)
    ensures r < RING_BUFFER_SIZE
  {
    x % RING_BUFFER_SIZE
  }

  function StartChunk(rp: nat, available: nat): Reader {
    if available == 0 then Waiting else Copying(rp, available, Min(available, CHUNK_FRAMES), [], None)
  }

  predicate Enabled(s: State, e: Event) {
    match e
    case Call(_) => s.writer.Outside? && !s.stopping
    case WriteLeft => s.writer.Writing? && s.writer.frames != [] && !s.writer.leftDone
    case WriteRight => s.writer.Writing? && s.writer.frames != [] && s.writer.leftDone
    case Publish => s.writer.Writing? && s.writer.frames == []
    case Load => s.reader.Waiting? && s.final.None?
    case CopyLeft => s.reader.Copying? && |s.reader.got| < s.reader.size && s.reader.left.None?
    case CopyRight => s.reader.Copying? && |s.reader.got| < s.reader.size && s.reader.left.Some?
    case Feed(_) => s.reader.Copying? && |s.reader.got| == s.reader.size
    case Release => s.reader.Fed? && s.reader.size <= s.reader.available
    case Stop => !s.stopping
    case FinalDrain => s.stopping && s.final.None? && (s.reader.Waiting? || s.reader.Stopped?)
  }

  function Look(s: State): Reader {
    StartChunk(s.readPos, Wrap(s.writePos - s.readPos + RING_BUFFER_SIZE))
  }

  function Step(s: State, e: Event): (t: State)
    requires Shape(s) && Enabled(s, e)
    ensures Shape(t)
  {
    match e
    case Call(frames) => s.(writer := Writing(s.writePos, frames, false))
    case WriteLeft =>
      s.(ringL := s.ringL[s.writer.wp := s.writer.frames[0].left], writer := s.writer.(leftDone := true))
    case WriteRight =>
      var w := s.writer;
      s.(ringR := s.ringR[w.wp := w.frames[0].right], writer := Writing(Wrap(w.wp + 1), w.frames[1..], false),
         written := s.written + [w.frames[0]])
    case Publish => s.(writePos := s.writer.wp, writer := Outside, published := |s.written|)
    case Load => s.(reader := Look(s))
    case CopyLeft =>
      var r := s.reader;
      s.(reader := r.(left := Some(s.ringL[Wrap(r.rp + |r.got|)])))
    case CopyRight =>
      var r := s.reader;
      s.(reader := r.(got := r.got + [Frame(r.left.value, s.ringR[Wrap(r.rp + |r.got|)])], left := None))
    case Feed(ok) =>
      var r := s.reader;
      var t := s.(chunks := s.chunks + [Chunk(s.released, r.got)], results := s.results + [ok], errors := if ok then 0 else s.errors + 1);
      t.(reader := if t.errors >= MAX_CONSECUTIVE_ERRORS then Stopped else Fed(r.rp, r.available, r.size))
    case Release =>
      var r := s.reader;
      var rp := Wrap(r.rp + r.size);
      s.(readPos := rp, released := s.released + r.size, reader := StartChunk(rp, r.available - r.size))
    case Stop => s.(stopping := true)
    case FinalDrain => s.(reader := Look(s), final := Some(Final(|s.results|, s.released, s.published)))
  }

  // ----- the ring -----

  /** Samples written to the left ring. */
  function LeftWritten(s: State): nat {
    |s.written| + if s.writer.Writing? && s.writer.leftDone then 1 else 0
  }

  function LeftSample(s: State, k: nat): real
    requires k < LeftWritten(s) && (s.writer.Writing? && s.writer.leftDone ==> s.writer.frames != [])
  {
    if k < |s.written| then s.written[k].left else s.writer.frames[0].left
  }

  /** Each ring holds the last samples written, as many as it has cells: whatever the reader
      does. */
  ghost predicate HoldsLast(s: State)
    requires Shape(s)
  {
    && (s.writer.Writing? && s.writer.leftDone ==> s.writer.frames != [])
    && (forall k :: 0 <= k < LeftWritten(s) <= k + RING_BUFFER_SIZE ==> s.ringL[Wrap(k)] == LeftSample(s, k))
    && (forall k :: 0 <= k < |s.written| <= k + RING_BUFFER_SIZE ==> s.ringR[Wrap(k)] == s.written[k].right)
  }

  ghost predicate WriterOk(s: State)
    requires Shape(s)
  {
    && s.published <= |s.written| && s.writePos == Wrap(s.published) && s.readPos == Wrap(s.released)
    && (s.writer.Outside? ==> s.published == |s.written|)
    && (s.writer.Writing? ==> s.writer.wp == Wrap(|s.written|))
    && (s.reader.Copying? || s.reader.Fed? ==> s.reader.rp == s.readPos)
    && HoldsLast(s)
  }

  /** Positions in the ring of frames less than a ring apart. */
  lemma OtherCell(k: nat, n: nat)
    requires k < n < k + RING_BUFFER_SIZE
    ensures Wrap(k) != Wrap(n)
  {
  }

  lemma AheadIs(w: nat, r: nat)
    requires r <= w
    ensures Wrap(Wrap(w) - Wrap(r) + RING_BUFFER_SIZE) == (w - r) % RING_BUFFER_SIZE
  {
  }

  lemma WrapSum(n: nat, c: nat)
    ensures Wrap(Wrap(n) + c) == Wrap(n + c)
  {
  }

  lemma WriteLeftHolds(s: State)
    requires WriterOkShape(s) && Enabled(s, WriteLeft)
    ensures WriterOkShape(Step(s, WriteLeft))
  {
    var t := Step(s, WriteLeft);
    hide Wrap;
    forall k | 0 <= k < LeftWritten(t) <= k + RING_BUFFER_SIZE
      ensures t.ringL[Wrap(k)] == LeftSample(t, k)
    {
      if k < |s.written| {
        OtherCell(k, |s.written|);
      }
    }
  }

  ghost predicate WriterOkShape(s: State) {
    Shape(s) && WriterOk(s)
  }

  lemma WriteRightHolds(s: State)
    requires WriterOkShape(s) && Enabled(s, WriteRight)
    ensures WriterOkShape(Step(s, WriteRight))
  {
    var t := Step(s, WriteRight);
    WrapSum(|s.written|, 1);
    hide Wrap;
    forall k | 0 <= k < |t.written| <= k + RING_BUFFER_SIZE
      ensures t.ringR[Wrap(k)] == t.written[k].right && t.ringL[Wrap(k)] == t.written[k].left
    {
      if k < |s.written| {
        OtherCell(k, |s.written|);
      }
      assert s.ringL[Wrap(k)] == LeftSample(s, k);
    }
  }

  lemma WriterStepHolds(s: State, e: Event)
    requires WriterOkShape(s) && Enabled(s, e)
    ensures WriterOkShape(Step(s, e))
  {
    if e.WriteLeft? {
      WriteLeftHolds(s);
    } else if e.WriteRight? {
      WriteRightHolds(s);
    } else {
      if e.Release? {
        WrapSum(s.released, s.reader.size);
      }
      hide Wrap;
      RingsUntouched(s, Step(s, e));
      hide HoldsLast;
    }
  }

  lemma RingsUntouched(s: State, t: State)
    requires Shape(s) && Shape(t) && HoldsLast(s) && t.ringL == s.ringL && t.ringR == s.ringR && t.written == s.written
    requires t.writer == s.writer || (!(t.writer.Writing? && t.writer.leftDone) && !(s.writer.Writing? && s.writer.leftDone))
    ensures HoldsLast(t)
  {
    hide Wrap;
    assert LeftWritten(s) == LeftWritten(t);
    assert forall k :: 0 <= k < LeftWritten(t) ==> LeftSample(t, k) == LeftSample(s, k);
  }

  // ----- the chunks -----

  /** The chunks follow each other from one place to another. */
  predicate Contiguous(cs: seq<Chunk>, from: nat, upTo: nat) {
    if cs == [] then from == upTo
    else cs[|cs| - 1].End() == upTo && Contiguous(cs[..|cs| - 1], from, cs[|cs| - 1].start)
  }

  /** How many failures in a row there are at the end. */
  function Streak(results: seq<bool>): nat {
    if results == [] || results[|results| - 1] then 0 else 1 + Streak(results[..|results| - 1])
  }

  /** None of these results is the tenth failure in a row, or a later one. */
  predicate Calm(results: seq<bool>, from: nat, upTo: nat)
    requires upTo <= |results|
  {
    forall n :: from < n <= upTo ==> Streak(results[..n]) < 10
  }

  predicate ReaderOk(s: State) {
    match s.reader
    case Copying(rp, available, size, got, left) =>
      && 0 < size == Min(available, CHUNK_FRAMES) && s.released + available <= s.published
      && |got| <= size && (left.Some? ==> |got| < size)
    case Fed(rp, available, size) => 0 < size == Min(available, CHUNK_FRAMES) && s.released + available <= s.published
    case Waiting => s.released <= s.published
    case Stopped => s.released < s.published
  }

  /** The last of the chunks was fed, and not released. */
  predicate GivenUp(cs: seq<Chunk>, from: nat, released: nat) {
    cs != [] && cs[|cs| - 1].start == released < cs[|cs| - 1].End() && Contiguous(cs, from, cs[|cs| - 1].End())
  }

  /** The chunks of one of the threads that drain, from one place on. */
  predicate Fresh(cs: seq<Chunk>, from: nat, s: State) {
    match s.reader
    case Fed(_, _, size) => Contiguous(cs, from, s.released + size)
    case Stopped => GivenUp(cs, from, s.released)
    case _ => Contiguous(cs, from, s.released)
  }

  /** Where the drain that is under way began, in chunks fed and frames released. */
  function Begun(s: State): (nat, nat) {
    if s.final.Some? then (s.final.value.feeds, s.final.value.released) else (0, 0)
  }

  /** Among the feeds of the drain under way none but the last made it give up. */
  predicate ResultsOk(s: State) {
    var feeds := Begun(s).0;
    var calm := |s.results| - if s.reader.Stopped? then 1 else 0;
    && s.errors == Streak(s.results) && feeds <= calm && Calm(s.results, feeds, calm)
    && (s.reader.Stopped? ==> s.errors >= MAX_CONSECUTIVE_ERRORS)
  }

  predicate ChunksOk(s: State) {
    var (feeds, from) := Begun(s);
    && |s.chunks| == |s.results| && feeds <= |s.results| && from <= s.released
    && Fresh(s.chunks[feeds..], from, s)
    && (if Calm(s.results, 0, feeds) then Contiguous(s.chunks[..feeds], 0, from) else GivenUp(s.chunks[..feeds], 0, from))
  }

  lemma ReaderStepOk(s: State, e: Event)
    requires Shape(s) && WriterOk(s) && ReaderOk(s) && Enabled(s, e)
    ensures ReaderOk(Step(s, e))
  {
    hide HoldsLast;
    if e.Load? || e.FinalDrain? {
      AheadIs(s.published, s.released);
      AtMostAhead(s.published, s.released);
    }
    hide Wrap;
  }

  lemma AtMostAhead(w: nat, r: nat)
    requires r <= w
    ensures r + (w - r) % RING_BUFFER_SIZE <= w
  {
  }

  lemma CalmMore(results: seq<bool>, from: nat, ok: bool)
    requires from <= |results| && Calm(results, from, |results|)
    ensures Calm(results + [ok], from, |results|)
    ensures Calm(results + [ok], from, |results| + 1) <==> Streak(results + [ok]) < MAX_CONSECUTIVE_ERRORS
    ensures Streak(results + [ok]) == if ok then 0 else Streak(results) + 1
  {
    var more := results + [ok];
    assert more[..|results|] == results && more[..|results| + 1] == more;
    forall n | from < n <= |results|
      ensures Streak(more[..n]) < MAX_CONSECUTIVE_ERRORS
    {
      assert more[..n] == results[..n];
    }
  }

  lemma CalmPrefix(results: seq<bool>, ok: bool, n: nat)
    requires n <= |results|
    ensures Calm(results + [ok], 0, n) == Calm(results, 0, n)
  {
    assert forall k :: 0 <= k <= n ==> (results + [ok])[..k] == results[..k];
  }

  lemma ContiguousMore(cs: seq<Chunk>, from: nat, c: Chunk)
    requires Contiguous(cs, from, c.start)
    ensures Contiguous(cs + [c], from, c.End())
  {
    assert (cs + [c])[..|cs|] == cs;
  }

  lemma ResultsStepOk(s: State, e: Event)
    requires Shape(s) && ResultsOk(s) && Enabled(s, e)
    ensures ResultsOk(Step(s, e))
  {
    hide Streak, Calm, Wrap;
    if e.Feed? {
      CalmMore(s.results, Begun(s).0, e.ok);
    } else if e.FinalDrain? {
      NothingYetCalm(s.results);
    } else {
      var t := Step(s, e);
      assert t.results == s.results && Begun(t) == Begun(s) && t.errors == s.errors && t.reader.Stopped? == s.reader.Stopped?;
    }
  }

  lemma NothingYetCalm(results: seq<bool>)
    ensures Calm(results, |results|, |results|)
  {
  }

  lemma FreshFed(cs: seq<Chunk>, from: nat, s: State, ok: bool)
    requires Shape(s) && ReaderOk(s) && Enabled(s, Feed(ok)) && Fresh(cs, from, s)
    ensures Fresh(cs + [Chunk(s.released, s.reader.got)], from, Step(s, Feed(ok)))
  {
    hide Contiguous, GivenUp, Wrap;
    var c := Chunk(s.released, s.reader.got);
    ContiguousMore(cs, from, c);
    GivenUpNow(cs, from, c);
  }

  lemma SliceMore(cs: seq<Chunk>, c: Chunk, n: nat)
    requires n <= |cs|
    ensures (cs + [c])[n..] == cs[n..] + [c] && (cs + [c])[..n] == cs[..n]
  {
  }

  lemma FeedChunksOk(s: State, ok: bool)
    requires Shape(s) && ReaderOk(s) && ChunksOk(s) && Enabled(s, Feed(ok))
    ensures ChunksOk(Step(s, Feed(ok)))
  {
    var (feeds, from) := Begun(s);
    CalmPrefix(s.results, ok, feeds);
    SliceMore(s.chunks, Chunk(s.released, s.reader.got), feeds);
    FreshFed(s.chunks[feeds..], from, s, ok);
    hide Fresh, Streak, Wrap, Calm, Contiguous, GivenUp;
  }

  lemma GivenUpNow(cs: seq<Chunk>, from: nat, c: Chunk)
    requires Contiguous(cs + [c], from, c.End()) && c.frames != []
    ensures GivenUp(cs + [c], from, c.start)
  {
  }

  lemma FinalChunksOk(s: State)
    requires Shape(s) && ChunksOk(s) && ResultsOk(s) && Enabled(s, FinalDrain)
    ensures ChunksOk(Step(s, FinalDrain))
  {
    hide Streak, Wrap;
    assert s.chunks[0..] == s.chunks && s.chunks[..|s.results|] == s.chunks && s.chunks[|s.results|..] == [];
    if s.reader.Stopped? {
      assert s.results[..|s.results|] == s.results;
    }
  }

  lemma ChunkStepOk(s: State, e: Event)
    requires Shape(s) && ReaderOk(s) && ChunksOk(s) && ResultsOk(s) && Enabled(s, e)
    ensures ChunksOk(Step(s, e))
  {
    if e.Feed? {
      FeedChunksOk(s, e.ok);
    } else if e.FinalDrain? {
      FinalChunksOk(s);
    } else {
      OtherChunksOk(s, e);
    }
  }

  lemma OtherChunksOk(s: State, e: Event)
    requires Shape(s) && ChunksOk(s) && Enabled(s, e) && !e.Feed? && !e.FinalDrain?
    ensures ChunksOk(Step(s, e))
  {
    hide Streak, Calm, Contiguous, Wrap, GivenUp;
  }

  // ----- what the reader reads -----

  /** The newest of the first n positions that shares a cell with position k. */
  function Newest(k: nat, n: nat): (j: nat)
    requires k < n
    ensures k <= j < n
  {
    k + (n - 1 - k) / RING_BUFFER_SIZE * RING_BUFFER_SIZE
  }

  lemma NewestIs(k: nat, n: nat)
    requires k < n
    ensures Wrap(Newest(k, n)) == Wrap(k) && n <= Newest(k, n) + RING_BUFFER_SIZE
    ensures Newest(k, n) == k <==> n <= k + RING_BUFFER_SIZE
  {
    var q := (n - 1 - k) / RING_BUFFER_SIZE;
    assert (k + q * RING_BUFFER_SIZE) % RING_BUFFER_SIZE == k % RING_BUFFER_SIZE;
  }

  /** Where the reader is about to read. */
  function ReadsAt(s: State): nat
    requires s.reader.Copying?
  {
    s.released + |s.reader.got|
  }

  /** What the reader copies is the newest sample in that cell, which is the sample of its place
      exactly when the writer is no more than a ring ahead of that place. */
  lemma CopyReadsNewest(s: State)
    requires Inv(s) && (Enabled(s, CopyLeft) || Enabled(s, CopyRight))
    ensures var k := ReadsAt(s);
            && k < |s.written|
            && s.ringL[Wrap(s.reader.rp + |s.reader.got|)] == LeftSample(s, Newest(k, LeftWritten(s)))
            && s.ringR[Wrap(s.reader.rp + |s.reader.got|)] == s.written[Newest(k, |s.written|)].right
            && (Newest(k, LeftWritten(s)) == k <==> LeftWritten(s) <= k + RING_BUFFER_SIZE)
            && (Newest(k, |s.written|) == k <==> |s.written| <= k + RING_BUFFER_SIZE)
  {
    hide ChunksOk, ResultsOk, Wrap, Newest;
    var k := ReadsAt(s);
    WrapSum(s.released, |s.reader.got|);
    NewestIs(k, LeftWritten(s));
    NewestIs(k, |s.written|);
  }

  ghost predicate ChunkValues(s: State) {
    forall c :: c in s.chunks ==> c.End() <= |s.written| && c.frames == s.written[c.start..c.End()]
  }

  ghost predicate GatheredValues(s: State) {
    s.reader.Copying? ==>
      && ReadsAt(s) <= |s.written| && s.reader.got == s.written[s.released..ReadsAt(s)]
      && (s.reader.left.Some? ==> ReadsAt(s) < |s.written| && s.reader.left.value == s.written[ReadsAt(s)].left)
  }

  /** The frames of the chunks so far, and those being gathered, are the ones written at their
      places. */
  ghost predicate ValuesOk(s: State) {
    ChunkValues(s) && GatheredValues(s)
  }

  /** The reader copies no cell that was written over, and no look at the write position finds a
      whole ring or more to read. */
  predicate Roomy(s: State, e: Event)
    requires Shape(s) && Enabled(s, e)
  {
    match e
    case CopyLeft => LeftWritten(s) <= ReadsAt(s) + 96000
    case CopyRight => |s.written| <= ReadsAt(s) + 96000
    case _ => ShortLook(s, e)
  }

  predicate ShortLook(s: State, e: Event) {
    e.Load? || e.FinalDrain? ==> s.published - s.released < 96000
  }

  lemma ChunksCarryOver(s: State, t: State)
    requires ChunkValues(s) && t.chunks == s.chunks && s.written <= t.written
    ensures ChunkValues(t)
  {
    forall c | c in s.chunks
      ensures c.End() <= |t.written| && c.frames == t.written[c.start..c.End()]
    {
      assert t.written[c.start..c.End()] == s.written[c.start..c.End()];
    }
  }

  lemma CopyLeftGathers(s: State)
    requires Shape(s) && GatheredValues(s) && Enabled(s, CopyLeft) && ReadsAt(s) < |s.written|
    requires s.ringL[Wrap(s.reader.rp + |s.reader.got|)] == s.written[ReadsAt(s)].left
    ensures GatheredValues(Step(s, CopyLeft))
  {
    hide Wrap;
  }

  lemma CopyRightGathers(s: State)
    requires Shape(s) && GatheredValues(s) && Enabled(s, CopyRight) && ReadsAt(s) < |s.written|
    requires s.ringR[Wrap(s.reader.rp + |s.reader.got|)] == s.written[ReadsAt(s)].right
    ensures GatheredValues(Step(s, CopyRight))
  {
    hide Wrap;
    var k := ReadsAt(s);
    assert s.written[s.released..k + 1] == s.written[s.released..k] + [s.written[k]];
  }

  lemma CopyValuesOk(s: State, e: Event)
    requires Inv(s) && ValuesOk(s) && Enabled(s, e) && (e.CopyLeft? || e.CopyRight?) && Roomy(s, e)
    ensures ValuesOk(Step(s, e))
  {
    CopyReadsNewest(s);
    ChunksCarryOver(s, Step(s, e));
    hide Step, Wrap, Newest, WriterOk, ReaderOk, ChunksOk, ResultsOk, ChunkValues, GatheredValues;
    if e.CopyLeft? {
      CopyLeftGathers(s);
    } else {
      CopyRightGathers(s);
    }
  }

  lemma FeedValuesOk(s: State, ok: bool)
    requires Inv(s) && ValuesOk(s) && Enabled(s, Feed(ok))
    ensures ValuesOk(Step(s, Feed(ok)))
  {
    hide Wrap, HoldsLast, Inv;
  }

  lemma ValuesCarryOver(s: State, t: State)
    requires ValuesOk(s) && t.chunks == s.chunks && s.written <= t.written
    requires t.reader.Copying? ==>
               (t.reader == s.reader && t.released == s.released) ||
               (t.reader.got == [] && t.reader.left.None? && t.released <= |t.written|)
    ensures ValuesOk(t)
  {
    ChunksCarryOver(s, t);
    hide ChunkValues;
    if t.reader.Copying? && t.reader == s.reader && t.released == s.released {
      assert t.written[s.released..ReadsAt(s)] == s.written[s.released..ReadsAt(s)];
    }
  }

  lemma OtherValuesOk(s: State, e: Event)
    requires Inv(s) && ValuesOk(s) && Enabled(s, e) && !e.CopyLeft? && !e.CopyRight? && !e.Feed?
    ensures ValuesOk(Step(s, e))
  {
    ReaderStepOk(s, e);
    WriterStepHolds(s, e);
    hide ValuesOk, Wrap, HoldsLast, ChunksOk, ResultsOk;
    ValuesCarryOver(s, Step(s, e));
  }

  /** What every single step keeps, whatever the reader and the writer do. */
  ghost predicate Inv(s: State) {
    Shape(s) && WriterOk(s) && ReaderOk(s) && ResultsOk(s) && ChunksOk(s)
  }

  lemma StepKeeps(s: State, e: Event)
    requires Inv(s) && Enabled(s, e)
    ensures Inv(Step(s, e))
    ensures ValuesOk(s) && Roomy(s, e) ==> ValuesOk(Step(s, e))
  {
    WriterStepHolds(s, e);
    ReaderStepOk(s, e);
    ResultsStepOk(s, e);
    ChunkStepOk(s, e);
    hide Step, WriterOk, ReaderOk, ResultsOk, ChunksOk;
    if ValuesOk(s) && Roomy(s, e) {
      if e.CopyLeft? || e.CopyRight? {
        CopyValuesOk(s, e);
      } else if e.Feed? {
        FeedValuesOk(s, e.ok);
      } else {
        OtherValuesOk(s, e);
      }
    }
  }
}
