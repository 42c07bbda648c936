/** Handing the frames of the playing video to the application: three at once at the start of
    the interval, the others spread evenly over it (njclient.cpp, AudioProc). */
module FramePacing {
  import opened Bytes
  import opened VideoBuffers
  import opened VideoStreams
  import opened VideoRecvStates
  import Division

  const INT_MAX := 0x7fff_ffff

  /** A frame handed to the application, with the frame count it is told to expect. */
  datatype Delivery = Delivery(idx: nat, expected: int, bytes: seq<Byte>)

  function ReadyFrames(b: Buffer): nat {
    if b.active then b.frames else 0
  }

  /** The frame count that sets the pace. */
  function ExpectedFrames(s: Stream): int {
    if s.playing.totalFrames > 0 then s.playing.totalFrames
    else if s.expected > 0 then s.expected
    else ReadyFrames(s.playing)
  }

  function Slots(expected: int): (r: int)
    ensures r >= 1
  {
    if expected > 2 then expected - 2 else 1
  }

  /** The sample position from which frame idx is due, as a 32-bit int. */
  function Threshold(idx: nat, expected: int, length: nat): int {
    if idx <= 2 then 0 else ToInt32((idx - 2) * length / Slots(expected))
  }

  /** The first frame from idx on that is not ready or not due. */
  function NextFrame(idx: nat, ready: nat, expected: int, pos: int, length: nat): (r: nat)
    ensures r >= idx && (idx <= ready ==> r <= ready)
    ensures forall i :: idx <= i < r ==> i < ready && pos >= Threshold(i, expected, length)
    ensures r >= ready || pos < Threshold(r, expected, length)
    decreases ready - idx
  {
    if idx < ready && pos >= Threshold(idx, expected, length) then NextFrame(idx + 1, ready, expected, pos, length)
    else idx
  }

  /** Frames from..to of a buffer; one with no bytes is passed over. */
  function Deliveries(b: Buffer, expected: int, from: nat, end: nat): seq<Delivery>
    requires end <= b.frames || end <= from
    decreases end - from
  {
    if from >= end then []
    else (if DispatchSlice(b, from) == [] then [] else [Delivery(from, expected, DispatchSlice(b, from))])
         + Deliveries(b, expected, from + 1, end)
  }

  /** What the audio callback hands over after a block that ends at pos. */
  function Due(s: Stream, pos: int, length: nat): (r: nat)
    ensures r >= s.frameIdx && (r > s.frameIdx ==> r <= s.playing.frames)
  {
    NextFrame(s.frameIdx, ReadyFrames(s.playing), ExpectedFrames(s), pos, length)
  }

  function Handed(s: Stream, pos: int, length: nat): seq<Delivery> {
    Deliveries(s.playing, ExpectedFrames(s), s.frameIdx, Due(s, pos, length))
  }

  lemma {:induction false} DeliveriesSnoc(b: Buffer, expected: int, from: nat, end: nat)
    requires from <= end < b.frames
    ensures Deliveries(b, expected, from, end + 1) ==
            Deliveries(b, expected, from, end) +
            if DispatchSlice(b, end) == [] then [] else [Delivery(end, expected, DispatchSlice(b, end))]
    decreases end - from
  {
    hide DispatchSlice;
    if from < end {
      DeliveriesSnoc(b, expected, from + 1, end);
    }
  }

  /** The loop over the frames that are ready and due. */
  method DeliverDue(b: Buffer, from: nat, ready: nat, expected: int, pos: int, length: nat)
    returns (handed: seq<Delivery>, idx: nat)
    requires ready <= b.frames
    ensures idx == NextFrame(from, ready, expected, pos, length)
    ensures handed == Deliveries(b, expected, from, idx)
  {
    hide DispatchSlice, Threshold, NextFrame;
    handed, idx := [], from;
    while idx < ready
      invariant from <= idx && (idx > from ==> idx <= ready)
      invariant NextFrame(from, ready, expected, pos, length) == NextFrame(idx, ready, expected, pos, length)
      invariant handed == Deliveries(b, expected, from, idx)
    {
      NextFrameStep(idx, ready, expected, pos, length);
      if pos >= Threshold(idx, expected, length) {
        DeliveriesSnoc(b, expected, from, idx);
        var bytes := DispatchSlice(b, idx);
        if bytes != [] {
          handed := handed + [Delivery(idx, expected, bytes)];
        }
        idx := idx + 1;
      } else {
        return;
      }
    }
    NextFrameStep(idx, ready, expected, pos, length);
  }

  method DeliverFrames(vs: VideoRecvState, pos: int, length: nat) returns (handed: seq<Delivery>)
    requires vs.Valid() && length > 0
    modifies vs`frameIdx
    ensures vs.Valid() && vs.State() == old(vs.State()).(frameIdx := Due(old(vs.State()), pos, length))
    ensures handed == Handed(old(vs.State()), pos, length)
  {
    hide VideoRecvBuffer.Value, DispatchSlice, Threshold, NextFrame, Deliveries;
    var b := vs.playing.Value();
    var readyFrames := ReadyFrames(b);
    var expected := if b.totalFrames > 0 then b.totalFrames else if vs.expectedFrames > 0 then vs.expectedFrames else readyFrames;
    handed := [];
    if readyFrames > 0 && expected > 0 {
      var idx: nat;
      handed, idx := DeliverDue(b, vs.frameIdx, readyFrames, expected, pos, length);
      vs.frameIdx := idx;
    } else {
      NextFrameStep(vs.frameIdx, readyFrames, expected, pos, length);
      NothingDelivered(b, expected, vs.frameIdx);
    }
  }

  lemma NothingDelivered(b: Buffer, expected: int, idx: nat)
    ensures Deliveries(b, expected, idx, idx) == []
  {
  }

  lemma NextFrameStep(idx: nat, ready: nat, expected: int, pos: int, length: nat)
    ensures NextFrame(idx, ready, expected, pos, length) ==
            if idx < ready && pos >= Threshold(idx, expected, length) then NextFrame(idx + 1, ready, expected, pos, length) else idx
  {
    hide Threshold;
  }

  // ----- thresholds -----

  lemma Fraction(k: nat, n: nat, length: nat)
    requires k < n && 0 < length <= INT_MAX
    ensures 0 <= k * length / n < length && ToInt32(k * length / n) == k * length / n
  {
    hide ToInt32;
    Division.AtLeast(n - k, length);
    assert n * length - k * length == (n - k) * length;
    QuotientBelow(k * length, n, length);
    SmallInt(k * length / n);
  }

  lemma QuotientBelow(a: nat, n: nat, m: nat)
    requires n > 0 && a < n * m
    ensures 0 <= a / n < m
  {
    var q := a / n;
    assert a == q * n + a % n;
    TimesGrows(m, q, n);
  }

  lemma TimesGrows(m: nat, q: nat, n: nat)
    ensures m <= q ==> m * n <= q * n
  {
    assert q * n - m * n == (q - m) * n;
  }

  lemma SmallInt(q: nat)
    requires q <= INT_MAX
    ensures ToInt32(q) == q
  {
  }

  lemma MonotoneDivision(a: nat, b: nat, n: nat)
    requires a <= b && n > 0
    ensures a / n <= b / n
  {
    var d := a / n - b / n;
    assert d * n == (a - a % n) - (b - b % n);
    if d >= 1 {
      Division.AtLeast(d, n);
    }
  }

  lemma ThresholdIs(i: nat, expected: int, length: nat)
    requires i < expected && 0 < length <= INT_MAX
    ensures Threshold(i, expected, length) == if i <= 2 then 0 else (i - 2) * length / (expected - 2)
    ensures 0 <= Threshold(i, expected, length) < length
  {
    hide ToInt32;
    if i > 2 {
      Fraction(i - 2, expected - 2, length);
    }
  }

  /** Up to the frame count that sets the pace, no threshold wraps, they grow with the frame,
      and all lie before the interval's end. */
  lemma ThresholdsGrow(i: nat, j: nat, expected: int, length: nat)
    requires i <= j < expected && 0 < length <= INT_MAX
    ensures 0 <= Threshold(i, expected, length) <= Threshold(j, expected, length) < length
  {
    hide Threshold;
    ThresholdIs(i, expected, length);
    ThresholdIs(j, expected, length);
    if i > 2 {
      assert (i - 2) * length <= (j - 2) * length;
      MonotoneDivision((i - 2) * length, (j - 2) * length, expected - 2);
    }
  }

  lemma QuotientAtMost(a: nat, n: nat, pos: nat)
    requires n > 0
    ensures pos >= a / n <==> (pos + 1) * n > a
  {
    var q := a / n;
    assert a == q * n + a % n;
    if pos >= q {
      TimesGrows(q + 1, pos + 1, n);
      assert (q + 1) * n == q * n + n;
    } else {
      TimesGrows(pos + 1, q, n);
    }
  }

  /** The pace: the first three frames go out at once, and frame idx of n is handed over from the
      sample on at which the fraction (idx - 2) / (n - 2) of the interval has passed. */
  lemma DueWhen(s: Stream, idx: nat, n: nat, pos: nat, length: nat)
    requires s.playing.active && s.frameIdx <= idx < s.playing.frames <= n && 0 < length <= INT_MAX
    requires n == if s.playing.totalFrames > 0 then s.playing.totalFrames else if s.expected > 0 then s.expected else s.playing.frames
    ensures Due(s, pos, length) > idx <==> idx <= 2 || (pos + 1) * (n - 2) > (idx - 2) * length
  {
    hide Threshold;
    var r := Due(s, pos, length);
    ThresholdIs(idx, n, length);
    if idx > 2 {
      QuotientAtMost((idx - 2) * length, n - 2, pos);
    }
    if r <= idx {
      ThresholdsGrow(r, idx, n, length);
    }
  }

  // ----- a whole interval -----

  /** One look of the audio callback at the stream, at the end of a block. */
  datatype Look = Look(playing: Buffer, expected: nat, pos: int, length: nat)

  function Seen(s: Stream, l: Look): Stream {
    s.(playing := l.playing, expected := l.expected)
  }

  /** Everything handed over in a run of looks, and the frame reached. Between two looks the
      network may append to the buffer and set its counts. */
  function Played(s: Stream, looks: seq<Look>): (seq<Delivery>, nat) {
    if looks == [] then ([], s.frameIdx)
    else
      var l := looks[|looks| - 1];
      var (handed, idx) := Played(s, looks[..|looks| - 1]);
      var t := Seen(s, l).(frameIdx := idx);
      (handed + Handed(t, l.pos, l.length), Due(t, l.pos, l.length))
  }

  predicate Increasing(ds: seq<Delivery>, from: nat, end: nat) {
    && (forall i :: 0 <= i < |ds| ==> from <= ds[i].idx < end)
    && (forall i, j :: 0 <= i < j < |ds| ==> ds[i].idx < ds[j].idx)
  }

  lemma {:induction false} DeliveriesIncrease(b: Buffer, expected: int, from: nat, end: nat)
    requires end <= b.frames || end <= from
    ensures Increasing(Deliveries(b, expected, from, end), from, end)
    ensures forall d :: d in Deliveries(b, expected, from, end) ==> d.idx < b.frames && d.bytes == DispatchSlice(b, d.idx)
    ensures forall k :: from <= k < end && DispatchSlice(b, k) != [] ==>
              Delivery(k, expected, DispatchSlice(b, k)) in Deliveries(b, expected, from, end)
    decreases end - from
  {
    hide DispatchSlice;
    if from < end {
      DeliveriesIncrease(b, expected, from + 1, end);
    }
  }

  /** No frame is handed over twice or out of order, however the looks fall. */
  lemma {:induction false} InOrderOnce(s: Stream, looks: seq<Look>)
    ensures Increasing(Played(s, looks).0, s.frameIdx, Played(s, looks).1) && Played(s, looks).1 >= s.frameIdx
  {
    hide Due, Deliveries, ExpectedFrames;
    if looks != [] {
      var l := looks[|looks| - 1];
      InOrderOnce(s, looks[..|looks| - 1]);
      var t := Seen(s, l).(frameIdx := Played(s, looks[..|looks| - 1]).1);
      DeliveriesIncrease(t.playing, ExpectedFrames(t), t.frameIdx, Due(t, l.pos, l.length));
    }
  }

  /** Every frame passed was handed over, unless it had no bytes at that look. */
  predicate HandedAt(ds: seq<Delivery>, looks: seq<Look>, k: nat) {
    exists m :: 0 <= m < |looks| && k < looks[m].playing.frames &&
      (DispatchSlice(looks[m].playing, k) == []
       || exists d :: d in ds && d.idx == k && d.bytes == DispatchSlice(looks[m].playing, k))
  }

  lemma {:induction false} NoneMissed(s: Stream, looks: seq<Look>, k: nat)
    requires s.frameIdx <= k < Played(s, looks).1
    ensures HandedAt(Played(s, looks).0, looks, k)
  {
    hide Due, Deliveries, ExpectedFrames, DispatchSlice;
    var z := |looks| - 1;
    var l, before := looks[z], Played(s, looks[..z]);
    var t := Seen(s, l).(frameIdx := before.1);
    DeliveriesIncrease(t.playing, ExpectedFrames(t), t.frameIdx, Due(t, l.pos, l.length));
    if k < before.1 {
      NoneMissed(s, looks[..z], k);
      var m :| 0 <= m < z && k < looks[..z][m].playing.frames &&
        (DispatchSlice(looks[..z][m].playing, k) == []
         || exists d :: d in before.0 && d.idx == k && d.bytes == DispatchSlice(looks[..z][m].playing, k));
      assert looks[m] == looks[..z][m];
    } else {
      assert k < looks[z].playing.frames;
      if DispatchSlice(l.playing, k) != [] {
        assert Delivery(k, ExpectedFrames(t), DispatchSlice(l.playing, k)) in Played(s, looks).0;
      }
    }
  }

  /** The last look finds the whole interval received and its END processed. */
  predicate Whole(b: Buffer, n: nat) {
    b.active && b.frames == n == b.totalFrames
  }

  /** With the total known, all frames are handed over exactly from the position at which the
      last one is due; by the end of the interval that is always so. */
  lemma AllByTheEnd(s: Stream, looks: seq<Look>, n: nat)
    requires looks != [] && n > 0 && Whole(looks[|looks| - 1].playing, n) && 0 < looks[|looks| - 1].length <= INT_MAX
    requires Played(s, looks[..|looks| - 1]).1 < n
    ensures var l := looks[|looks| - 1];
            && (Played(s, looks).1 == n <==> l.pos >= Threshold(n - 1, n, l.length))
            && (l.pos >= l.length ==> Played(s, looks).1 == n)
  {
    var l := looks[|looks| - 1];
    var idx := Played(s, looks[..|looks| - 1]).1;
    var r := NextFrame(idx, n, n, l.pos, l.length);
    ThresholdsGrow(if r < n then r else n - 1, n - 1, n, l.length);
  }

  /** From the swap to the end of the interval: every frame of the interval exactly once, in
      order, provided its total was known by the last block. */
  lemma WholeIntervalPlays(s: Stream, looks: seq<Look>, n: nat)
    requires s.frameIdx == 0 && looks != [] && n > 0
    requires forall m :: 0 <= m < |looks| ==> looks[m].playing.frames <= n
    requires var l := looks[|looks| - 1]; Whole(l.playing, n) && l.pos >= l.length > 0 && l.length <= INT_MAX
    ensures Played(s, looks).1 == n && Increasing(Played(s, looks).0, 0, n)
    ensures forall k :: 0 <= k < n ==> HandedAt(Played(s, looks).0, looks, k)
  {
    hide Played;
    InOrderOnce(s, looks);
    NeverBeyond(s, looks, n);
    forall k | 0 <= k < Played(s, looks).1
      ensures HandedAt(Played(s, looks).0, looks, k)
    {
      NoneMissed(s, looks, k);
    }
    NeverBeyond(s, looks[..|looks| - 1], n);
    if Played(s, looks[..|looks| - 1]).1 < n {
      AllByTheEnd(s, looks, n);
    } else {
      StaysAtEnd(s, looks);
    }
  }

  lemma StaysAtEnd(s: Stream, looks: seq<Look>)
    requires looks != []
    ensures Played(s, looks).1 >= Played(s, looks[..|looks| - 1]).1
  {
    hide Due;
  }

  lemma {:induction false} NeverBeyond(s: Stream, looks: seq<Look>, n: nat)
    requires s.frameIdx <= n && forall m :: 0 <= m < |looks| ==> looks[m].playing.frames <= n
    ensures Played(s, looks).1 <= n
  {
    hide Due, Handed;
    if looks != [] {
      NeverBeyond(s, looks[..|looks| - 1], n);
    }
  }
}
