/** The receive buffer of one video interval: frames, each a 4-byte big-endian length and a
    body, cut into WRITEs by the sender and put together again by the receiver
    (njclient.h, njclient.cpp). */
module VideoBuffers {
  import opened Bytes
  import opened IntervalTag

  const MAX_ENC_BLOCKSIZE := 8192 + 1024

  datatype Buffer = Buffer(
    data: seq<Byte>, offsets: seq<int>, frames: nat, pending: int,
    guid: Guid, audioGuid: Guid, active: bool,
    intervalSeq: int, senderSeq: int, totalFrames: int, ownAudio: bool, ownInterval: int)

  const EMPTY := Buffer([], [], 0, 0, ZERO_GUID, ZERO_GUID, false, -1, -1, 0, false, -1)

  // ----- sending -----

  function LengthPrefix(n: nat): (r: seq<Byte>)
    ensures |r| == 4
  {
    [ToByte(n / 0x100_0000), ToByte(n / 0x1_0000), ToByte(n / 0x100), ToByte(n)]
  }

  /** A frame as it is queued for sending. */
  function Item(body: seq<Byte>): seq<Byte> {
    LengthPrefix(|body|) + body
  }

  /** The length comes first, high byte first, then the body. */
  lemma ItemBytes(body: seq<Byte>)
    requires |body| < 0x1_0000_0000
    ensures var i := Item(body);
            && |i| == 4 + |body| && i[4..] == body
            && i[0] as int * 16777216 + i[1] as int * 65536 + i[2] as int * 256 + i[3] as int == |body|
  {
    var n := |body|;
    assert n / 0x1_0000 == n / 0x100_0000 * 0x100 + n / 0x1_0000 % 0x100;
    assert n / 0x100 == n / 0x1_0000 * 0x100 + n / 0x100 % 0x100;
    assert n == n / 0x100 * 0x100 + n % 0x100;
  }

  /** An item as the WRITEs that carry it. */
  function Chunks(item: seq<Byte>): (r: seq<seq<Byte>>)
    ensures |r| >= 1
  {
    if |item| <= MAX_ENC_BLOCKSIZE then [item]
    else [item[..MAX_ENC_BLOCKSIZE]] + Chunks(item[MAX_ENC_BLOCKSIZE..])
  }

  datatype Write = Write(data: seq<Byte>, end: bool)

  function Datas(ws: seq<Write>): (r: seq<seq<Byte>>)
    ensures |r| == |ws| && forall i :: 0 <= i < |ws| ==> r[i] == ws[i].data
  {
    seq(|ws|, i requires 0 <= i < |ws| => ws[i].data)
  }

  predicate Unended(ws: seq<Write>) {
    forall i :: 0 <= i < |ws| ==> !ws[i].end
  }

  /** Cuts one queued item into WRITEs of limited size; only the last may carry END. */
  method SendItem(item: seq<Byte>, end: bool) returns (ws: seq<Write>)
    ensures ws != [] && Datas(ws) == Chunks(item)
    ensures forall i :: 0 <= i < |ws| ==> |ws[i].data| <= MAX_ENC_BLOCKSIZE
    ensures Unended(ws[..|ws| - 1]) && ws[|ws| - 1].end == end
  {
    hide Chunks, Datas;
    if |item| == 0 {
      ChunkSmall(item);
      ws := [Write([], end)];
      assert Datas(ws) == [item];
      return;
    }
    ws := [];
    var rest := item;
    while rest != []
      invariant rest != [] ==> Chunks(item) == Datas(ws) + Chunks(rest) && Unended(ws)
      invariant rest == [] ==> ws != [] && Chunks(item) == Datas(ws) && Unended(ws[..|ws| - 1]) && ws[|ws| - 1].end == end
      invariant forall i :: 0 <= i < |ws| ==> |ws[i].data| <= MAX_ENC_BLOCKSIZE
      decreases |rest|
    {
      var chunk := |rest|;
      if chunk > MAX_ENC_BLOCKSIZE {
        chunk := MAX_ENC_BLOCKSIZE;
        ChunkLarge(rest);
      } else {
        ChunkSmall(rest);
        assert rest[..chunk] == rest && rest[chunk..] == [];
      }
      var w := Write(rest[..chunk], |rest| == chunk && end);
      assert Datas(ws + [w]) == Datas(ws) + [rest[..chunk]];
      assert (ws + [w])[..|ws|] == ws;
      ws, rest := ws + [w], rest[chunk..];
    }
  }

  lemma ChunkSmall(item: seq<Byte>)
    requires |item| <= MAX_ENC_BLOCKSIZE
    ensures Chunks(item) == [item]
  {
  }

  lemma ChunkLarge(item: seq<Byte>)
    requires |item| > MAX_ENC_BLOCKSIZE
    ensures Chunks(item) == [item[..MAX_ENC_BLOCKSIZE]] + Chunks(item[MAX_ENC_BLOCKSIZE..])
  {
  }

  // ----- receiving -----

  /** A resized offset table; entries it gains have no value of their own. */
  function Resized(offsets: seq<int>, n: nat): (r: seq<int>)
    ensures |r| == n
  {
    if n <= |offsets| then offsets[..n] else offsets + seq(n - |offsets|, _ => 0)
  }

  lemma ResizedSet(offsets: seq<int>, n: nat, x: int)
    ensures Resized(offsets, n + 1)[n := x] == Resized(offsets, n) + [x]
  {
  }

  function BodyLength(w: seq<Byte>): int
    requires |w| >= 4
  {
    ToInt32(w[0] as int * 0x100_0000 + w[1] as int * 0x1_0000 + w[2] as int * 0x100 + w[3] as int)
  }

  /** A WRITE that starts a frame announces its length. */
  function Opened(b: Buffer, w: seq<Byte>): Buffer {
    if b.pending == 0 && |w| >= 4 then
      b.(offsets := Resized(b.offsets, b.frames) + [|b.data|], pending := 4 + BodyLength(w))
    else b
  }

  /** The buffer after one WRITE. */
  function Appended(b: Buffer, w: seq<Byte>): Buffer {
    var o := Opened(b, w);
    if o.pending <= 0 then o
    else
      var take := if |w| < o.pending then |w| else o.pending;
      o.(data := o.data + w[..take], pending := o.pending - take,
         frames := if o.pending == take then o.frames + 1 else o.frames)
  }

  /** The WRITE completes a frame. */
  predicate Completes(b: Buffer, w: seq<Byte>) {
    var o := Opened(b, w);
    o.pending > 0 && |w| >= o.pending
  }

  /** Where frame i starts; a table that lost its entries reads as 0. */
  function FrameStart(b: Buffer, i: int): int {
    if 0 <= i < |b.offsets| then b.offsets[i] else 0
  }

  /** A completed frame of a voice-chat sender leaves the buffer at once. */
  function LiveRemoved(b: Buffer): Buffer
    requires b.frames > 0
  {
    var start := FrameStart(b, b.frames - 1);
    b.(data := if 0 <= start <= |b.data| then b.data[..start] else b.data,
       offsets := Resized(b.offsets, b.frames - 1), frames := b.frames - 1)
  }

  /** The first frame of an interval names the audio the video goes with. */
  function MarkerRead(b: Buffer): Buffer {
    var start := FrameStart(b, b.frames - 1);
    if 0 <= start && start + 24 == |b.data| then
      b.(audioGuid := b.data[start + 8..start + 24], senderSeq := BodyLength(b.data[start + 4..start + 8]))
    else if 0 <= start && start + 8 == |b.data| then
      b.(audioGuid := ZERO_GUID, senderSeq := BodyLength(b.data[start + 4..start + 8]))
    else b
  }

  function AppendedAll(b: Buffer, ws: seq<seq<Byte>>): Buffer
    decreases |ws|
  {
    if ws == [] then b else AppendedAll(Appended(b, ws[0]), ws[1..])
  }

  /** What the audio thread hands to the application as frame i of a buffer with the given
      number of ready frames; empty when it hands over nothing. */
  function DispatchSlice(b: Buffer, i: nat): seq<Byte>
    requires i < b.frames
  {
    var start := FrameStart(b, i) + 4;
    var next := if i + 1 < b.frames then FrameStart(b, i + 1) else |b.data|;
    if 0 <= start < next <= |b.data| then b.data[start..next] else []
  }

  /** The receive buffer object. */
  class VideoRecvBuffer {
    var data: seq<Byte>
    var frameOffsets: seq<int>
    var frameCount: nat
    var guid: Guid
    var intervalSeq: int
    var audioGuid: Guid
    var active: bool
    var pendingRemaining: int
    var senderSeq: int
    var totalFrames: int
    var ownAudio: bool
    var ownInterval: int

    function Value(): Buffer
      reads this
    {
      Buffer(data, frameOffsets, frameCount, pendingRemaining, guid, audioGuid, active,
             intervalSeq, senderSeq, totalFrames, ownAudio, ownInterval)
    }

    constructor ()
      ensures Value() == EMPTY
    {
      data, frameOffsets, frameCount, pendingRemaining := [], [], 0, 0;
      guid, audioGuid, active := ZERO_GUID, ZERO_GUID, false;
      intervalSeq, senderSeq, totalFrames, ownAudio, ownInterval := -1, -1, 0, false, -1;
    }

    method Reset()
      modifies this
      ensures Value() == EMPTY
    {
      data, frameOffsets, frameCount,
      intervalSeq, active, pendingRemaining, senderSeq, totalFrames,
      ownAudio, ownInterval, guid, audioGuid :=
        [], [], 0, -1, false, 0, -1, 0, false, -1, ZERO_GUID, ZERO_GUID;
    }

    /** Copies everything, including the start of a frame still arriving. */
    method CopyFrom(src: VideoRecvBuffer)
      modifies this
      ensures Value() == old(src.Value())
    {
      var sz, noffs := |src.data|, |src.frameOffsets|;
      assert src.data[..sz] == src.data && src.frameOffsets[..noffs] == src.frameOffsets;
      active, frameCount, guid, data, frameOffsets,
      intervalSeq, audioGuid, pendingRemaining,
      senderSeq, totalFrames, ownAudio, ownInterval :=
        src.active, src.frameCount, src.guid, src.data[..sz], src.frameOffsets[..noffs],
        src.intervalSeq, src.audioGuid, src.pendingRemaining,
        src.senderSeq, src.totalFrames, src.ownAudio, src.ownInterval;
    }

    /** Takes over what the other buffer holds. */
    method MoveFrom(src: VideoRecvBuffer)
      requires src != this
      modifies this, src
      ensures Value() == old(src.Value()) && src.Value() == EMPTY
    {
      Reset();
      CopyFrom(src);
      src.Reset();
    }

    /** Takes the bytes of one WRITE; tells whether that completed a frame. */
    method TakeWrite(w: seq<Byte>) returns (completed: bool)
      modifies this
      ensures Value() == Appended(old(Value()), w)
      ensures completed <==> Completes(old(Value()), w)
    {
      hide BodyLength, Resized;
      completed := false;
      if pendingRemaining == 0 {
        if |w| >= 4 {
          ResizedSet(frameOffsets, frameCount, |data|);
          frameOffsets := Resized(frameOffsets, frameCount + 1);
          frameOffsets := frameOffsets[frameCount := |data|];
          pendingRemaining := 4 + BodyLength(w);
        }
      }
      if pendingRemaining > 0 {
        var take := if |w| < pendingRemaining then |w| else pendingRemaining;
        data := data + w[..take];
        pendingRemaining := pendingRemaining - take;
        if pendingRemaining == 0 {
          frameCount := frameCount + 1;
          completed := true;
        }
      }
    }

    /** Takes the frame just completed out again. */
    method RemoveLastFrame()
      requires Value().frames > 0
      modifies this
      ensures Value() == LiveRemoved(old(Value()))
    {
      var fc := frameCount;
      var frameStart := if fc - 1 < |frameOffsets| then frameOffsets[fc - 1] else 0;
      if 0 <= frameStart <= |data| {
        data := data[..frameStart];
      }
      frameOffsets := Resized(frameOffsets, fc - 1);
      frameCount := fc - 1;
    }

    /** A new download arrives here. */
    method StartReceiving(downloadGuid: Guid, seqNo: int)
      modifies this
      ensures Value() == EMPTY.(guid := downloadGuid, active := true, intervalSeq := seqNo)
    {
      Reset();
      guid, active, intervalSeq := downloadGuid, true, seqNo;
    }

    /** Reads the sync marker in the first frame: 24 bytes with an audio guid, 8 without. */
    method ReadMarker()
      modifies this
      ensures Value() == MarkerRead(old(Value()))
    {
      hide BodyLength;
      var frameStart := FrameStart(Value(), frameCount - 1);
      if 0 <= frameStart {
        var frameSize := |data| - frameStart;
        if frameSize == 24 {
          audioGuid := data[frameStart + 8..frameStart + 24];
          senderSeq := BodyLength(data[frameStart + 4..frameStart + 8]);
        } else if frameSize == 8 {
          audioGuid := ZERO_GUID;
          senderSeq := BodyLength(data[frameStart + 4..frameStart + 8]);
        }
      }
    }

    /** Every frame of the interval has arrived. */
    method Complete()
      modifies this
      ensures Value() == old(Value()).(totalFrames := old(Value()).frames)
    {
      totalFrames := frameCount;
    }

    method WaitForInterval(interval: int)
      modifies this
      ensures Value() == old(Value()).(ownInterval := interval)
    {
      ownInterval := interval;
    }

    method WaitForAudio(g: Guid)
      modifies this
      ensures Value() == old(Value()).(audioGuid := g, ownAudio := true)
    {
      audioGuid, ownAudio := g, true;
    }

    /** Its frames moved on; a frame still arriving moved with them only if whole is set. */
    method DropFrames(whole: bool)
      modifies this
      ensures Value() == old(Value()).(data := [], offsets := [], frames := 0,
                                       pending := if whole then 0 else old(Value()).pending)
    {
      data, frameOffsets, frameCount := [], [], 0;
      if whole {
        pendingRemaining := 0;
      }
    }
  }

  // ----- reassembly -----

  function Concat(parts: seq<seq<Byte>>): seq<Byte> {
    if parts == [] then [] else Concat(parts[..|parts| - 1]) + parts[|parts| - 1]
  }

  function Items(bodies: seq<seq<Byte>>): seq<seq<Byte>> {
    seq(|bodies|, i requires 0 <= i < |bodies| => Item(bodies[i]))
  }

  /** The WRITEs of a list of frames. */
  function Writes(bodies: seq<seq<Byte>>): seq<seq<Byte>> {
    if bodies == [] then [] else Writes(bodies[..|bodies| - 1]) + Chunks(Item(bodies[|bodies| - 1]))
  }

  predicate Sendable(body: seq<Byte>) {
    |body| < TWO_31 - 4
  }

  predicate AllSendable(bodies: seq<seq<Byte>>) {
    forall i :: 0 <= i < |bodies| ==> Sendable(bodies[i])
  }

  /** No frame in progress, and one offset per frame. */
  predicate AtFrameEnd(b: Buffer) {
    b.pending == 0 && |b.offsets| == b.frames
  }

  lemma PrefixReadsBack(n: nat, w: seq<Byte>)
    requires n < TWO_31 && |w| >= 4 && w[..4] == LengthPrefix(n)
    ensures BodyLength(w) == n
  {
    FourDigits(n);
    assert w[0] == w[..4][0] && w[1] == w[..4][1] && w[2] == w[..4][2] && w[3] == w[..4][3];
    assert n % TWO_32 == n;
    hide ToInt32;
    assert BodyLength(w) == ToInt32(n % TWO_32);
    SmallIsItself(n);
  }

  lemma SmallIsItself(n: nat)
    requires n < TWO_31
    ensures ToInt32(n) == n
  {
  }

  lemma {:induction false} AppendedAllSplit(b: Buffer, ws: seq<seq<Byte>>, vs: seq<seq<Byte>>)
    ensures AppendedAll(b, ws + vs) == AppendedAll(AppendedAll(b, ws), vs)
    decreases |ws|
  {
    hide Appended;
    if ws == [] {
      assert ws + vs == vs;
    } else {
      assert (ws + vs)[1..] == ws[1..] + vs;
      AppendedAllSplit(Appended(b, ws[0]), ws[1..], vs);
    }
  }

  /** The rest of a frame, cut anywhere, completes it. */
  lemma {:induction false} RestOfFrame(b: Buffer, rest: seq<Byte>)
    requires b.pending == |rest| > 0
    ensures AppendedAll(b, Chunks(rest)) == b.(data := b.data + rest, pending := 0, frames := b.frames + 1)
    decreases |rest|
  {
    hide BodyLength;
    if |rest| <= MAX_ENC_BLOCKSIZE {
      ChunkSmall(rest);
      assert rest[..|rest|] == rest;
      OneWrite(b, rest);
    } else {
      var head, tail := rest[..MAX_ENC_BLOCKSIZE], rest[MAX_ENC_BLOCKSIZE..];
      ChunkLarge(rest);
      assert head[..|head|] == head;
      var c := b.(data := b.data + head, pending := |tail|);
      assert Appended(b, head) == c;
      assert ([head] + Chunks(tail))[1..] == Chunks(tail);
      RestOfFrame(c, tail);
      assert b.data + rest == c.data + tail;
    }
  }

  lemma OneWrite(b: Buffer, w: seq<Byte>)
    ensures AppendedAll(b, [w]) == Appended(b, w)
  {
    hide Appended;
    assert [w][1..] == [];
    assert AppendedAll(Appended(b, w), []) == Appended(b, w);
  }

  /** One whole frame goes in as one frame. */
  lemma FrameIn(b: Buffer, body: seq<Byte>)
    requires AtFrameEnd(b) && Sendable(body)
    ensures AppendedAll(b, Chunks(Item(body))) ==
            b.(data := b.data + Item(body), offsets := b.offsets + [|b.data|], frames := b.frames + 1)
  {
    var item := Item(body);
    var first := Chunks(item)[0];
    assert first[..4] == LengthPrefix(|body|);
    PrefixReadsBack(|body|, first);
    var o := Opened(b, first);
    assert o == b.(offsets := b.offsets + [|b.data|], pending := |item|);
    RestOfFrame(o, item);
    StartedTwice(b, first, Chunks(item)[1..]);
    assert [first] + Chunks(item)[1..] == Chunks(item);
    assert AppendedAll(o, Chunks(item)) == AppendedAll(b, Chunks(item));
  }

  /** Opening a frame before its first WRITE changes nothing. */
  lemma StartedTwice(b: Buffer, w: seq<Byte>, ws: seq<seq<Byte>>)
    requires Opened(b, w).pending > 0
    ensures AppendedAll(Opened(b, w), [w] + ws) == AppendedAll(b, [w] + ws)
  {
    hide BodyLength;
    assert ([w] + ws)[0] == w && ([w] + ws)[1..] == ws;
    assert Opened(Opened(b, w), w) == Opened(b, w);
  }

  /** Where frame i of a list of frames starts. */
  function StartOf(bodies: seq<seq<Byte>>, i: nat): nat
    requires i <= |bodies|
  {
    |Concat(Items(bodies[..i]))|
  }

  lemma ItemsSnoc(bodies: seq<seq<Byte>>)
    requires bodies != []
    ensures Items(bodies) == Items(bodies[..|bodies| - 1]) + [Item(bodies[|bodies| - 1])]
    ensures Concat(Items(bodies)) == Concat(Items(bodies[..|bodies| - 1])) + Item(bodies[|bodies| - 1])
  {
    hide Item;
    var z := |bodies| - 1;
    var all := Items(bodies);
    assert all[..z] == Items(bodies[..z]);
    assert all == all[..z] + [all[z]];
  }

  /** For any list of frames of any size, cutting and reassembling gives back the bytes, the
      start of every frame, the frame count, and nothing left over. */
  lemma {:induction false} ReassemblyRoundTrip(b: Buffer, bodies: seq<seq<Byte>>)
    requires b.data == [] && b.offsets == [] && b.frames == 0 && b.pending == 0 && AllSendable(bodies)
    ensures var r := AppendedAll(b, Writes(bodies));
            && r.data == Concat(Items(bodies)) && r.frames == |bodies| == |r.offsets| && r.pending == 0
            && (forall i :: 0 <= i < |bodies| ==> r.offsets[i] == StartOf(bodies, i))
            && r == b.(data := r.data, offsets := r.offsets, frames := r.frames)
    decreases |bodies|
  {
    hide Item, Chunks, Appended, Concat, Items, StartOf;
    if bodies == [] {
      NothingSent();
    } else {
      hide AppendedAll;
      var z := |bodies| - 1;
      var front, last := bodies[..z], bodies[z];
      ReassemblyRoundTrip(b, front);
      var r := AppendedAll(b, Writes(front));
      AppendedAllSplit(b, Writes(front), Chunks(Item(last)));
      FrameIn(r, last);
      ItemsSnoc(bodies);
      StartsOfFront(bodies);
    }
  }

  lemma NothingSent()
    ensures Writes([]) == [] && Concat(Items([])) == []
  {
  }

  lemma StartsOfFront(bodies: seq<seq<Byte>>)
    requires bodies != []
    ensures var front := bodies[..|bodies| - 1];
            && StartOf(bodies, |front|) == |Concat(Items(front))|
            && forall i :: 0 <= i < |front| ==> StartOf(bodies, i) == StartOf(front, i)
  {
    hide Concat, Items;
    var front := bodies[..|bodies| - 1];
    forall i | 0 <= i < |front|
      ensures StartOf(bodies, i) == StartOf(front, i)
    {
      assert bodies[..i] == front[..i];
    }
  }

  lemma {:induction false} ConcatSplit(bodies: seq<seq<Byte>>, i: nat)
    requires i < |bodies|
    ensures StartOf(bodies, i) + 4 <= StartOf(bodies, i + 1) <= |Concat(Items(bodies))|
    ensures Concat(Items(bodies))[StartOf(bodies, i)..StartOf(bodies, i + 1)] == Item(bodies[i])
    decreases |bodies|
  {
    hide Concat, Items, Item;
    var z := |bodies| - 1;
    var front := bodies[..z];
    ItemsSnoc(bodies);
    ItemLength(bodies[z]);
    if i == z {
      assert bodies[..z + 1] == bodies;
    } else {
      ConcatSplit(front, i);
      assert front[..i] == bodies[..i] && front[..i + 1] == bodies[..i + 1];
    }
  }

  /** Every frame handed to the application is exactly the body that was sent. */
  lemma DispatchIsExact(b: Buffer, bodies: seq<seq<Byte>>, i: nat)
    requires b.data == [] && b.offsets == [] && b.frames == 0 && b.pending == 0 && AllSendable(bodies)
    requires i < |bodies|
    ensures i < AppendedAll(b, Writes(bodies)).frames
    ensures DispatchSlice(AppendedAll(b, Writes(bodies)), i) == bodies[i]
  {
    hide LengthPrefix, Concat, Items, Writes, AppendedAll, Appended, Item, Chunks;
    var r := AppendedAll(b, Writes(bodies));
    ReassemblyRoundTrip(b, bodies);
    ConcatSplit(bodies, i);
    var s, e := StartOf(bodies, i), StartOf(bodies, i + 1);
    WholeIsLast(bodies);
    hide StartOf;
    assert r.data[s..e][4..] == r.data[s + 4..e];
    BodyOfItem(bodies[i]);
  }

  lemma WholeIsLast(bodies: seq<seq<Byte>>)
    ensures StartOf(bodies, |bodies|) == |Concat(Items(bodies))|
  {
    assert bodies[..|bodies|] == bodies;
  }

  lemma BodyOfItem(body: seq<Byte>)
    ensures |Item(body)| == 4 + |body| && Item(body)[4..] == body
  {
  }

  /** The same at the level of buffer objects: the bytes may move from object to object
      before any WRITE, also in the middle of a frame. */
  method ReassembleMoving(writes: seq<seq<Byte>>, moves: seq<bool>, start: VideoRecvBuffer)
    returns (r: VideoRecvBuffer)
    requires |moves| == |writes|
    modifies start
    ensures r == start || fresh(r)
    ensures r.Value() == AppendedAll(old(start.Value()), writes)
  {
    hide Appended, Completes;
    r := start;
    for i := 0 to |writes|
      invariant r == start || fresh(r)
      invariant AppendedAll(r.Value(), writes[i..]) == AppendedAll(old(start.Value()), writes)
    {
      if moves[i] {
        var other := new VideoRecvBuffer();
        other.CopyFrom(r);
        r.Reset();
        r := other;
      }
      assert writes[i..][0] == writes[i] && writes[i..][1..] == writes[i + 1..];
      var completed := r.TakeWrite(writes[i]);
    }
  }

  // ----- a frame in progress -----

  /** The buffer holds the first j frames and some bytes of the next one. */
  ghost predicate Midway(b: Buffer, bodies: seq<seq<Byte>>, j: nat, part: seq<Byte>)
    requires j <= |bodies|
  {
    && b.frames == j && b.data == Concat(Items(bodies[..j])) + part
    && (part == [] ==> b.pending == 0)
    && (part != [] ==> j < |bodies| && part < Item(bodies[j]) && b.pending == |Item(bodies[j])| - |part|)
    && |b.offsets| == j + (if part == [] then 0 else 1)
    && (forall i :: 0 <= i < |b.offsets| ==> b.offsets[i] == StartOf(bodies, i))
  }

  /** What is handed over for a complete frame, at any moment of the interval. */
  lemma SliceWhileArriving(b: Buffer, bodies: seq<seq<Byte>>, j: nat, part: seq<Byte>, i: nat)
    requires i < j <= |bodies| && Midway(b, bodies, j, part)
    ensures DispatchSlice(b, i) == bodies[i] + if i == j - 1 then part else []
  {
    hide LengthPrefix, Concat, Items, Item;
    var front := bodies[..j];
    ConcatSplit(front, i);
    assert bodies[..i] == front[..i] && bodies[..i + 1] == front[..i + 1] && front[i] == bodies[i];
    var s, e, whole := StartOf(bodies, i), StartOf(bodies, i + 1), Concat(Items(front));
    WholeIsLast(front);
    assert front[..j] == front;
    BodyOfItem(bodies[i]);
    hide StartOf, DispatchSlice, FrameStart;
    SliceIs(b, i, s, if i == j - 1 then |b.data| else e) by {
      Starts(b, bodies, j, part, i);
    }
    assert whole[s..e][4..] == whole[s + 4..e] == b.data[s + 4..e];
    if i == j - 1 {
      assert b.data[s + 4..] == whole[s + 4..] + part;
    }
  }

  lemma SliceIs(b: Buffer, i: nat, s: nat, e: nat)
    requires i < b.frames && FrameStart(b, i) == s && s + 4 <= e <= |b.data|
    requires e == if i + 1 < b.frames then FrameStart(b, i + 1) else |b.data|
    ensures DispatchSlice(b, i) == b.data[s + 4..e]
  {
  }

  lemma Starts(b: Buffer, bodies: seq<seq<Byte>>, j: nat, part: seq<Byte>, i: nat)
    requires i < j <= |bodies| && Midway(b, bodies, j, part)
    ensures FrameStart(b, i) == StartOf(bodies, i)
    ensures i + 1 < b.frames ==> FrameStart(b, i + 1) == StartOf(bodies, i + 1)
  {
    hide StartOf;
  }

  /** While bytes of a later frame are already in the buffer, the last complete frame is
      handed over with those bytes attached: it is exact just when no frame is in progress. */
  lemma LastSliceExactIffNothingPending(b: Buffer, bodies: seq<seq<Byte>>, j: nat, part: seq<Byte>)
    requires 1 <= j <= |bodies| && Midway(b, bodies, j, part)
    ensures DispatchSlice(b, j - 1) == bodies[j - 1] <==> b.pending == 0
  {
    hide LengthPrefix, Concat, StartOf, DispatchSlice;
    SliceWhileArriving(b, bodies, j, part, j - 1);
  }

  function WritesFrom(bodies: seq<seq<Byte>>, j: nat): seq<seq<Byte>>
    requires j <= |bodies|
    decreases |bodies| - j
  {
    if j == |bodies| then [] else Chunks(Item(bodies[j])) + WritesFrom(bodies, j + 1)
  }

  /** The WRITEs still to come when the buffer holds j frames and part of the next. */
  function ToCome(bodies: seq<seq<Byte>>, j: nat, part: seq<Byte>): seq<seq<Byte>>
    requires j <= |bodies| && (part != [] ==> j < |bodies| && part < Item(bodies[j]))
  {
    if part == [] then WritesFrom(bodies, j)
    else Chunks(Item(bodies[j])[|part|..]) + WritesFrom(bodies, j + 1)
  }

  lemma {:induction false} WritesAreFromStart(bodies: seq<seq<Byte>>, j: nat)
    requires j <= |bodies|
    ensures Writes(bodies) == Writes(bodies[..j]) + WritesFrom(bodies, j)
    decreases |bodies| - j
  {
    hide Item, Chunks;
    if j == |bodies| {
      assert bodies[..j] == bodies;
    } else {
      WritesAreFromStart(bodies, j + 1);
      assert bodies[..j + 1][..j] == bodies[..j];
    }
  }

  lemma OffsetsSoFar(bodies: seq<seq<Byte>>, j: nat)
    requires j < |bodies|
    ensures Concat(Items(bodies[..j + 1])) == Concat(Items(bodies[..j])) + Item(bodies[j])
    ensures StartOf(bodies, j) == |Concat(Items(bodies[..j]))|
  {
    hide Item;
    ItemsSnoc(bodies[..j + 1]);
    assert bodies[..j + 1][..j] == bodies[..j];
  }

  /** What the next WRITE of a frame does, whether it starts the frame or not. */
  lemma ChunkEffect(b: Buffer, body: seq<Byte>, part: seq<Byte>, w: seq<Byte>)
    requires Sendable(body) && part < Item(body) && w != []
    requires b.pending == (if part == [] then 0 else |Item(body)| - |part|)
    requires |b.offsets| == b.frames + (if part == [] then 0 else 1)
    requires part + w <= Item(body) && (part == [] ==> |w| >= 4)
    ensures Appended(b, w) ==
            b.(offsets := if part == [] then b.offsets + [|b.data|] else b.offsets,
               data := b.data + w, pending := |Item(body)| - |part + w|,
               frames := if part + w == Item(body) then b.frames + 1 else b.frames)
  {
    hide BodyLength, LengthPrefix;
    if part == [] {
      assert part + w == w;
      assert w[..4] == Item(body)[..4] == LengthPrefix(|body|);
      PrefixReadsBack(|body|, w);
    }
    assert w[..|w|] == w;
  }

  /** The first WRITE of what is left of a frame. */
  lemma FirstChunk(rest: seq<Byte>)
    requires rest != []
    ensures Chunks(rest)[0] != [] && Chunks(rest)[0] <= rest && (|rest| >= 4 ==> |Chunks(rest)[0]| >= 4)
    ensures Chunks(rest)[1..] == if Chunks(rest)[0] == rest then [] else Chunks(rest[|Chunks(rest)[0]|..])
  {
    if |rest| <= MAX_ENC_BLOCKSIZE {
      ChunkSmall(rest);
    } else {
      ChunkLarge(rest);
    }
  }

  lemma ToComeStarts(bodies: seq<seq<Byte>>, j: nat, part: seq<Byte>)
    requires j <= |bodies| && (part != [] ==> j < |bodies| && part < Item(bodies[j]))
    requires ToCome(bodies, j, part) != []
    ensures j < |bodies| && part < Item(bodies[j])
    ensures ToCome(bodies, j, part) == Chunks(Item(bodies[j])[|part|..]) + WritesFrom(bodies, j + 1)
  {
    hide Chunks, Item;
    assert j < |bodies|;
    ItemLength(bodies[j]);
    assert Item(bodies[j])[0..] == Item(bodies[j]);
  }

  /** The next WRITE carries on the frame in progress, or starts the next one. */
  lemma NextWrite(bodies: seq<seq<Byte>>, j: nat, part: seq<Byte>) returns (j': nat, part': seq<Byte>)
    requires j <= |bodies| && (part != [] ==> j < |bodies| && part < Item(bodies[j]))
    requires ToCome(bodies, j, part) != []
    ensures j < |bodies| && part < Item(bodies[j])
    ensures var w := ToCome(bodies, j, part)[0];
            && w != [] && part + w <= Item(bodies[j]) && (part == [] ==> |w| >= 4)
            && (if part + w == Item(bodies[j]) then j' == j + 1 && part' == [] else j' == j && part' == part + w)
    ensures ToCome(bodies, j', part') == ToCome(bodies, j, part)[1..]
  {
    hide Chunks, Item, WritesFrom;
    ToComeStarts(bodies, j, part);
    var item := Item(bodies[j]);
    ItemLength(bodies[j]);
    var rest := item[|part|..];
    FirstChunk(rest);
    var w := Chunks(rest)[0];
    assert part + rest == item;
    if w == rest {
      j', part' := j + 1, [];
    } else {
      j', part' := j, part + w;
      assert item[|part'|..] == rest[|w|..];
    }
  }

  /** One more WRITE keeps the buffer midway. */
  lemma MidwayStep(b: Buffer, bodies: seq<seq<Byte>>, j: nat, part: seq<Byte>) returns (j': nat, part': seq<Byte>)
    requires j <= |bodies| && Midway(b, bodies, j, part) && AllSendable(bodies)
    requires ToCome(bodies, j, part) != []
    ensures j' <= |bodies| && (part' != [] ==> j' < |bodies| && part' < Item(bodies[j']))
    ensures Midway(Appended(b, ToCome(bodies, j, part)[0]), bodies, j', part')
    ensures ToCome(bodies, j', part') == ToCome(bodies, j, part)[1..]
  {
    hide StartOf, Concat, Chunks, Item, Appended, ToCome, Items, WritesFrom;
    j', part' := NextWrite(bodies, j, part);
    var w := ToCome(bodies, j, part)[0];
    OffsetsSoFar(bodies, j);
    ChunkEffect(b, bodies[j], part, w);
    MidwayAfter(b, Appended(b, w), bodies, j, part, w, j', part');
  }

  lemma MidwayAfter(b: Buffer, c: Buffer, bodies: seq<seq<Byte>>, j: nat, part: seq<Byte>, w: seq<Byte>, j': nat, part': seq<Byte>)
    requires j < |bodies| && Midway(b, bodies, j, part) && w != [] && part + w <= Item(bodies[j])
    requires c.data == b.data + w && c.pending == |Item(bodies[j])| - |part + w|
    requires c.offsets == if part == [] then b.offsets + [|b.data|] else b.offsets
    requires c.frames == if part + w == Item(bodies[j]) then b.frames + 1 else b.frames
    requires if part + w == Item(bodies[j]) then j' == j + 1 && part' == [] else j' == j && part' == part + w
    requires StartOf(bodies, j) == |Concat(Items(bodies[..j]))|
    requires Concat(Items(bodies[..j + 1])) == Concat(Items(bodies[..j])) + Item(bodies[j])
    ensures Midway(c, bodies, j', part')
  {
    hide StartOf, Concat, Item, Items;
    var whole := Concat(Items(bodies[..j]));
    assert whole + part + w == whole + (part + w);
  }

  lemma ItemLength(body: seq<Byte>)
    ensures |Item(body)| == 4 + |body|
  {
  }

  /** Whatever number of WRITEs has arrived, the buffer is midway: so the previous lemma
      covers every moment at which the audio thread can look. */
  lemma {:induction false} EveryPrefixIsMidway(b: Buffer, bodies: seq<seq<Byte>>, j: nat, part: seq<Byte>, n: nat)
    returns (j': nat, part': seq<Byte>)
    requires j <= |bodies| && Midway(b, bodies, j, part) && AllSendable(bodies)
    requires n <= |ToCome(bodies, j, part)|
    ensures j' <= |bodies| && Midway(AppendedAll(b, ToCome(bodies, j, part)[..n]), bodies, j', part')
    ensures (part' != [] ==> j' < |bodies| && part' < Item(bodies[j'])) && ToCome(bodies, j', part') == ToCome(bodies, j, part)[n..]
    decreases n
  {
    hide Appended, Item, Chunks, StartOf, Concat;
    if n == 0 {
      assert ToCome(bodies, j, part)[..0] == [] && ToCome(bodies, j, part)[0..] == ToCome(bodies, j, part);
      j', part' := j, part;
    } else {
      var ws := ToCome(bodies, j, part);
      assert ws[1..][n - 1..] == ws[n..];
      assert AppendedAll(b, ws[..n]) == AppendedAll(Appended(b, ws[0]), ws[1..][..n - 1]) by {
        assert ws[..n][0] == ws[0] && ws[..n][1..] == ws[1..][..n - 1];
      }
      hide AppendedAll, ToCome;
      j', part' := MidwayStep(b, bodies, j, part);
      j', part' := EveryPrefixIsMidway(Appended(b, ws[0]), bodies, j', part', n - 1);
    }
  }

  /** From an empty buffer, for the WRITEs of any list of frames. */
  lemma ReceivedSoFar(b: Buffer, bodies: seq<seq<Byte>>, n: nat) returns (j: nat, part: seq<Byte>)
    requires b.data == [] && b.offsets == [] && b.frames == 0 && b.pending == 0 && AllSendable(bodies)
    requires n <= |Writes(bodies)|
    ensures j <= |bodies| && Midway(AppendedAll(b, Writes(bodies)[..n]), bodies, j, part)
    ensures (part != [] ==> j < |bodies| && part < Item(bodies[j])) && ToCome(bodies, j, part) == Writes(bodies)[n..]
  {
    hide Item, Chunks;
    WritesAreFromStart(bodies, 0);
    assert bodies[..0] == [];
    assert Writes([]) == [] && Items(bodies[..0]) == [] && Concat([]) == [];
    assert Midway(b, bodies, 0, []);
    assert ToCome(bodies, 0, []) == Writes(bodies);
    j, part := EveryPrefixIsMidway(b, bodies, 0, [], n);
  }

  /** Each WRITE that follows adds exactly its bytes. */
  lemma NextAddsBytes(b: Buffer, bodies: seq<seq<Byte>>, ws: seq<seq<Byte>>, w: seq<Byte>)
    requires b.data == [] && b.offsets == [] && b.frames == 0 && b.pending == 0 && AllSendable(bodies)
    requires ws + [w] <= Writes(bodies)
    ensures w != [] && AppendedAll(b, ws + [w]) == Appended(AppendedAll(b, ws), w)
    ensures AppendedAll(b, ws + [w]).data == AppendedAll(b, ws).data + w
  {
    hide Item, Chunks, Appended, Writes;
    var n := |ws|;
    assert Writes(bodies)[..n] == (ws + [w])[..n] == ws && Writes(bodies)[n..][0] == w;
    var j, part := ReceivedSoFar(b, bodies, n);
    AppendedAllSplit(b, ws, [w]);
    OneWrite(AppendedAll(b, ws), w);
    hide AppendedAll, ToCome, Concat, StartOf;
    var j', part' := NextWrite(bodies, j, part);
    ChunkEffect(AppendedAll(b, ws), bodies[j], part, w);
  }
}
