/** The recorder's two thread bodies in place, each run without interruption: writeSamples
    appends to the ring, drainRingBuffer empties it in chunks (SessionRecorder.cpp). What holds
    when they interleave is in RecorderRuns. */
module SessionRecorders {
  import opened RecorderRing
  import RecorderRuns

  /** What the encoder says to the chunks it is given, one after the other. */
  type Encoder = nat -> bool

  class SessionRecorder {
    const ringL: array<real>
    const ringR: array<real>
    var writePos: nat
    var readPos: nat
    var sampleCount: nat
    var consecutiveErrors: nat
    var encodeRunning: bool
    ghost var fed: seq<Frame>

    ghost predicate Valid()
      reads this`writePos, this`readPos
    {
      ringL.Length == ringR.Length == RING_BUFFER_SIZE && ringL != ringR && writePos < RING_BUFFER_SIZE && readPos < RING_BUFFER_SIZE
    }

    /** The cell of the n-th position, counted without wrapping. */
    ghost function Cell(n: nat): Frame
      requires Valid()
      reads this`writePos, this`readPos, ringL, ringR
    {
      Frame(ringL[Wrap(n)], ringR[Wrap(n)])
    }

    /** What is published and not yet released, oldest first. */
    ghost function Unread(): (r: seq<Frame>)
      requires Valid()
      reads this`writePos, this`readPos, ringL, ringR
      ensures |r| == Wrap(writePos - readPos + RING_BUFFER_SIZE)
    {
      Gathered(ringL[..], ringR[..], readPos, Wrap(writePos - readPos + RING_BUFFER_SIZE))
    }

    lemma UnreadCells()
      requires Valid()
      ensures forall i :: 0 <= i < |Unread()| ==> Unread()[i] == Cell(readPos + i)
    {
    }

    constructor ()
      ensures Valid() && fresh(ringL) && fresh(ringR) && Unread() == [] && fed == [] && encodeRunning && consecutiveErrors == 0
    {
      ringL, ringR := new real[RING_BUFFER_SIZE], new real[RING_BUFFER_SIZE];
      writePos, readPos, sampleCount, consecutiveErrors, encodeRunning := 0, 0, 0, 0, true;
      fed := [];
    }

    lemma UnreadAt(i: nat)
      requires Valid() && i < |Unread()|
      ensures Unread()[i] == Cell(readPos + i)
    {
    }

    lemma RoundAgain(n: nat, q: nat)
      requires Valid()
      ensures Cell(n + q * RING_BUFFER_SIZE) == Cell(n)
    {
      WholeRings(n, q);
    }

    /** When the ring holds the last of these frames, the writer behind them, they are unread
        but for whole rings. */
    lemma UnreadIs(all: seq<Frame>)
      requires Valid() && writePos == Wrap(readPos + |all|)
      requires forall k :: 0 <= k < |all| <= k + RING_BUFFER_SIZE ==> Cell(readPos + k) == all[k]
      ensures Unread() == LastRing(all)
    {
      hide Wrap, SessionRecorder.Unread, SessionRecorder.Cell, LastRing;
      SmallWrap(readPos);
      AheadWraps(readPos, |all|);
      var q, rest := Rings(all);
      forall i | 0 <= i < |rest|
        ensures Unread()[i] == rest[i]
      {
        var k := q * RING_BUFFER_SIZE + i;
        UnreadAt(i);
        RoundAgain(readPos + i, q);
        assert Cell(readPos + k) == all[k];
      }
    }

    /** Appends frames. When what is unread fills the ring once or more, whole rings of it are
        gone, the oldest first. */
    method WriteSamples(left: seq<real>, right: seq<real>)
      requires Valid() && |left| == |right|
      modifies this`writePos, this`sampleCount, ringL, ringR
      ensures Valid() && sampleCount == old(sampleCount) + |left|
      ensures Unread() == LastRing(old(Unread()) + Frames(left, right))
    {
      hide Wrap, SessionRecorder.Unread, LastRing, Frames;
      ghost var before := Unread();
      AheadBack(writePos, readPos);
      var wp := FillCells(writePos, left, right, before);
      writePos := wp;
      sampleCount := sampleCount + |left|;
      UnreadIs(before + Frames(left, right));
    }

    /** Stores frames in consecutive cells, behind what is unread; the ring then holds the last
        of them all. */
    method FillCells(start: nat, left: seq<real>, right: seq<real>, ghost before: seq<Frame>) returns (wp: nat)
      requires Valid() && |left| == |right| && before == Unread() && start == Wrap(readPos + |before|)
      modifies ringL, ringR
      ensures wp < RING_BUFFER_SIZE && wp == Wrap(readPos + |before| + |left|)
      ensures var all := before + Frames(left, right);
              forall k :: 0 <= k < |all| <= k + RING_BUFFER_SIZE ==> Cell(readPos + k) == all[k]
    {
      hide Wrap, SessionRecorder.Cell, SessionRecorder.Unread;
      wp := start;
      UnreadCells();
      ghost var all := before + Frames(left, right);
      for i := 0 to |left|
        invariant wp < RING_BUFFER_SIZE && wp == Wrap(readPos + |before| + i)
        invariant forall k :: 0 <= k < |before| + i <= k + RING_BUFFER_SIZE ==> Cell(readPos + k) == all[k]
      {
        ghost var n := readPos + |before| + i;
        StoreFrame(wp, left[i], right[i], n);
        WrapSum(n, 1);
        wp := Wrap(wp + 1);
      }
    }

    /** Writes one frame; the cells of the ring's length minus one positions before it stay. */
    method StoreFrame(wp: nat, l: real, r: real, ghost n: nat)
      requires Valid() && wp == Wrap(n)
      modifies ringL, ringR
      ensures Cell(n) == Frame(l, r)
      ensures forall k :: 0 <= k < n < k + RING_BUFFER_SIZE ==> Cell(k) == old(Cell(k))
    {
      hide Wrap;
      ringL[wp] := l;
      ringR[wp] := r;
      forall k | 0 <= k < n < k + RING_BUFFER_SIZE
        ensures Cell(k) == old(Cell(k))
      {
        OtherCell(k, n);
      }
    }

    /** Hands what is published to the encoder, at most CHUNK_FRAMES at a time. At the tenth
        failure in a row, counted on from before, it gives up, and the chunk just handed over
        stays unread. */
    method DrainRingBuffer(encoder: Encoder) returns (gaveUp: bool, ghost done: nat, ghost kept: nat)
      requires Valid()
      modifies this`readPos, this`consecutiveErrors, this`encodeRunning, this`fed
      ensures Valid() && kept <= done <= |old(Unread())|
      ensures fed == old(fed) + old(Unread())[..done] && Unread() == old(Unread())[done - kept..]
      ensures Drained(encoder, old(consecutiveErrors), |old(Unread())|, done, kept, consecutiveErrors)
      ensures (gaveUp <==> kept > 0) && (!gaveUp ==> done == |old(Unread())|) && (old(Unread()) != [] ==> done > 0)
      ensures encodeRunning == (old(encodeRunning) && !gaveUp)
    {
      hide Wrap, SessionRecorder.Unread, SessionRecorder.Cell, ErrorsAfter, Attempts, RecorderRuns.ChunksNeeded;
      ghost var all, errors := Unread(), consecutiveErrors;
      var rp, available := readPos, Wrap(writePos - readPos + RING_BUFFER_SIZE);
      gaveUp, done, kept := false, 0, 0;
      var i := 0;
      assert all[0..] == all;
      NothingFed(encoder, errors, |all|);
      while available > 0
        invariant Valid() && rp == readPos && done + available == |all| && Unread() == all[done..]
        invariant fed == old(fed) + all[..done] && encodeRunning == old(encodeRunning) && !gaveUp && kept == 0
        invariant SoFar(encoder, errors, |all|, i, done, consecutiveErrors)
        invariant all != [] ==> i == 0 || done > 0
        decreases available
      {
        var size := Min(available, CHUNK_FRAMES);
        OneMoreFed(encoder, errors, |all|, i, done, consecutiveErrors);
        gaveUp, rp := DrainChunk(rp, size, encoder(i));
        Chunked(all, done, size, old(fed));
        done := done + size;
        i := i + 1;
        if gaveUp {
          kept := size;
          return;
        }
        available := available - size;
      }
      AllFed(encoder, errors, |all|, i, consecutiveErrors);
    }

    /** Feeds one chunk, and releases it unless that was one failure too many. */
    method DrainChunk(start: nat, n: nat, ok: bool) returns (gaveUp: bool, rp: nat)
      requires Valid() && start == readPos && n <= CHUNK_FRAMES && n <= |Unread()|
      modifies this`readPos, this`consecutiveErrors, this`encodeRunning, this`fed
      ensures Valid() && rp == readPos && fed == old(fed) + old(Unread())[..n]
      ensures Unread() == if gaveUp then old(Unread()) else old(Unread())[n..]
      ensures consecutiveErrors == if ok then 0 else old(consecutiveErrors) + 1
      ensures gaveUp == (consecutiveErrors >= MAX_CONSECUTIVE_ERRORS)
      ensures encodeRunning == (old(encodeRunning) && !gaveUp)
    {
      hide Wrap, SessionRecorder.Unread, SessionRecorder.Cell;
      rp := start;
      var interleaved := Interleave(rp, n);
      fed := fed + interleaved;
      if !ok {
        consecutiveErrors := consecutiveErrors + 1;
        if consecutiveErrors >= MAX_CONSECUTIVE_ERRORS {
          encodeRunning := false;
          gaveUp := true;
          return;
        }
      } else {
        consecutiveErrors := 0;
      }
      gaveUp := false;
      rp := Release(n);
    }

    /** Copies frames from the ring into the chunk handed to the encoder. */
    method Interleave(rp: nat, n: nat) returns (chunk: seq<Frame>)
      requires Valid() && rp == readPos && n <= |Unread()|
      ensures chunk == Unread()[..n]
    {
      hide Wrap;
      chunk := [];
      for i := 0 to n
        invariant chunk == Unread()[..i]
      {
        var idx := Wrap(rp + i);
        assert Unread()[i] == Frame(ringL[idx], ringR[idx]);
        chunk := chunk + [Frame(ringL[idx], ringR[idx])];
      }
    }

    method Release(n: nat) returns (rp: nat)
      requires Valid() && n <= |Unread()|
      modifies this`readPos
      ensures Valid() && rp == readPos && Unread() == old(Unread())[n..]
    {
      hide Wrap;
      ghost var before, r := Unread(), readPos;
      rp := Wrap(readPos + n);
      ReleasedLess(writePos, readPos, n);
      readPos := rp;
      forall i | 0 <= i < |before| - n
        ensures Unread()[i] == before[n..][i]
      {
        WrapSum(r + n, i);
        assert before[n + i] == old(Cell(readPos + (n + i)));
      }
    }

    /** The last drain of the encode thread, frames the audio thread still writes, and the final
        drain of stop(). The final drain hands over what is left, from the chunk on that the
        first one gave up on, if it did. So every frame is handed over, once and in order,
        exactly when neither drain gives up, as their results foretell, and what is left never
        fills the ring. */
    method LastDrains(encoder: Encoder, left: seq<real>, right: seq<real>, finalEncoder: Encoder)
      returns (ghost done: nat, ghost kept: nat, ghost errors: nat, ghost again: nat, ghost keptAgain: nat)
      requires Valid() && |left| == |right|
      modifies this, ringL, ringR
      ensures Valid() && !encodeRunning && kept <= done <= |old(Unread())|
      ensures Drained(encoder, old(consecutiveErrors), |old(Unread())|, done, kept, errors)
      ensures kept == 0 ==> done == |old(Unread())|
      ensures var rest := LastRing(old(Unread())[done - kept..] + Frames(left, right));
              && Drained(finalEncoder, errors, |rest|, again, keptAgain, consecutiveErrors)
              && again <= |rest| && (rest != [] ==> again > 0)
              && fed == old(fed) + old(Unread())[..done] + rest[..again]
    {
      hide Wrap, SessionRecorder.Unread, SessionRecorder.Cell, Attempts, ErrorsAfter, RecorderRuns.ChunksNeeded, Frames, LastRing, Drained;
      var gaveUp;
      gaveUp, done, kept := DrainRingBuffer(encoder);
      errors := consecutiveErrors;
      again, keptAgain := FinalDrain(left, right, finalEncoder);
    }

    /** What the audio thread still writes, and the final drain. */
    method FinalDrain(left: seq<real>, right: seq<real>, encoder: Encoder) returns (ghost done: nat, ghost kept: nat)
      requires Valid() && |left| == |right|
      modifies this, ringL, ringR
      ensures Valid() && !encodeRunning
      ensures var rest := LastRing(old(Unread()) + Frames(left, right));
              && Drained(encoder, old(consecutiveErrors), |rest|, done, kept, consecutiveErrors)
              && done <= |rest| && (rest != [] ==> done > 0) && fed == old(fed) + rest[..done]
    {
      hide Wrap, SessionRecorder.Unread, SessionRecorder.Cell, Attempts, ErrorsAfter, RecorderRuns.ChunksNeeded, Frames, LastRing, Drained;
      WriteSamples(left, right);
      encodeRunning := false;
      var gaveUp;
      gaveUp, done, kept := DrainRingBuffer(encoder);
    }
  }

  /** What is left of unread frames: whole rings of them are gone, the oldest first. */
  function LastRing(all: seq<Frame>): (r: seq<Frame>)
    ensures |r| == Wrap(|all|) && (|all| < RING_BUFFER_SIZE ==> r == all)
  {
    all[|all| - Wrap(|all|)..]
  }

  /** len frames of the ring from start. */
  function Gathered(ringL: seq<real>, ringR: seq<real>, start: nat, len: nat): (r: seq<Frame>)
    requires |ringL| == |ringR| == RING_BUFFER_SIZE
    ensures |r| == len && forall i :: 0 <= i < len ==> r[i] == Frame(ringL[Wrap(start + i)], ringR[Wrap(start + i)])
  {
    seq(len, i requires 0 <= i < len => Frame(ringL[Wrap(start + i)], ringR[Wrap(start + i)]))
  }

  /** Failures in a row after n chunks. */
  function ErrorsAfter(encoder: Encoder, errors: nat, n: nat): nat {
    if n == 0 then errors else if encoder(n - 1) then 0 else ErrorsAfter(encoder, errors, n - 1) + 1
  }

  /** How many of n chunks are handed over, when i were, before a tenth failure in a row. */
  function Attempts(encoder: Encoder, errors: nat, i: nat, n: nat): nat
    decreases n - i
  {
    if i >= n then n
    else if ErrorsAfter(encoder, errors, i + 1) >= 10 then i + 1
    else Attempts(encoder, errors, i + 1, n)
  }

  /** A drain of n chunks gives up exactly when some tenth failure in a row falls within them. */
  lemma {:induction false} GivesUpIff(encoder: Encoder, errors: nat, i: nat, n: nat)
    requires i < n && forall k :: 0 < k <= i ==> ErrorsAfter(encoder, errors, k) < 10
    ensures ErrorsAfter(encoder, errors, Attempts(encoder, errors, i, n)) >= 10 <==>
            exists k :: 0 < k <= n && ErrorsAfter(encoder, errors, k) >= 10
    decreases n - i
  {
    hide ErrorsAfter;
    if ErrorsAfter(encoder, errors, i + 1) < MAX_CONSECUTIVE_ERRORS && i + 1 < n {
      GivesUpIff(encoder, errors, i + 1, n);
    }
  }

  /** What a drain does with this many frames, as the encoder's results foretell: the frames
      handed over, those of them kept, and the failures in a row then. */
  predicate Drained(encoder: Encoder, errors: nat, frames: nat, done: nat, kept: nat, after: nat) {
    var n := RecorderRuns.ChunksNeeded(frames);
    var m := Attempts(encoder, errors, 0, n);
    && after == ErrorsAfter(encoder, errors, m) && (kept > 0 <==> n > 0 && after >= 10)
    && done == Min(4096 * m, frames) && kept == if kept > 0 then done - 4096 * (m - 1) else 0
  }

  /** After nine failures in a row, a drain whose first chunk fails hands over that chunk only,
      and keeps it: stop()'s final drain then hands it over again, or leaves what is behind it. */
  lemma TenthFailure(encoder: Encoder, frames: nat)
    requires frames > 0 && !encoder(0)
    ensures Drained(encoder, 9, frames, Min(4096, frames), Min(4096, frames), 10)
  {
    var n := RecorderRuns.ChunksNeeded(frames);
    assert n >= 1;
    hide RecorderRuns.ChunksNeeded;
    assert ErrorsAfter(encoder, 9, 1) == 10;
    assert Attempts(encoder, 9, 0, n) == 1;
  }

  /** After i chunks, none of which made the drain give up. */
  predicate SoFar(encoder: Encoder, errors: nat, frames: nat, i: nat, done: nat, after: nat) {
    var n := RecorderRuns.ChunksNeeded(frames);
    && i <= n && done == Min(CHUNK_FRAMES * i, frames) && (done == frames ==> i == n)
    && after == ErrorsAfter(encoder, errors, i) && Attempts(encoder, errors, 0, n) == Attempts(encoder, errors, i, n)
    && forall k :: 0 < k <= i ==> ErrorsAfter(encoder, errors, k) < MAX_CONSECUTIVE_ERRORS
  }

  lemma NothingFed(encoder: Encoder, errors: nat, frames: nat)
    ensures SoFar(encoder, errors, frames, 0, 0, errors)
  {
  }

  lemma OneMoreFed(encoder: Encoder, errors: nat, frames: nat, i: nat, done: nat, before: nat)
    requires done < frames && SoFar(encoder, errors, frames, i, done, before)
    ensures var size := Min(frames - done, CHUNK_FRAMES);
            var after := if encoder(i) then 0 else before + 1;
            if after >= MAX_CONSECUTIVE_ERRORS then Drained(encoder, errors, frames, done + size, size, after)
            else SoFar(encoder, errors, frames, i + 1, done + size, after)
  {
    var n := RecorderRuns.ChunksNeeded(frames);
    assert ErrorsAfter(encoder, errors, i + 1) == if encoder(i) then 0 else ErrorsAfter(encoder, errors, i) + 1;
  }

  lemma AllFed(encoder: Encoder, errors: nat, frames: nat, i: nat, after: nat)
    requires SoFar(encoder, errors, frames, i, frames, after)
    ensures Drained(encoder, errors, frames, frames, 0, after)
  {
  }

  function Frames(left: seq<real>, right: seq<real>): (r: seq<Frame>)
    requires |left| == |right|
    ensures |r| == |left| && forall i :: 0 <= i < |r| ==> r[i] == Frame(left[i], right[i])
  {
    seq(|left|, i requires 0 <= i < |left| => Frame(left[i], right[i]))
  }

  lemma Chunked(all: seq<Frame>, done: nat, n: nat, fed: seq<Frame>)
    requires done + n <= |all|
    ensures all[done..][n..] == all[done + n..]
    ensures fed + all[..done] + all[done..][..n] == fed + all[..done + n]
  {
    assert all[..done + n] == all[..done] + all[done..][..n];
  }

  lemma Rings(all: seq<Frame>) returns (q: nat, rest: seq<Frame>)
    ensures rest == LastRing(all) && |rest| == Wrap(|all|) && |all| == q * RING_BUFFER_SIZE + |rest|
    ensures forall i :: 0 <= i < |rest| ==> rest[i] == all[q * RING_BUFFER_SIZE + i]
  {
    hide LastRing, Wrap;
    rest := LastRing(all);
    q := WholeAndRest(|all|);
    LastRingFrom(all, q * RING_BUFFER_SIZE);
  }

  lemma WholeAndRest(n: nat) returns (q: nat)
    ensures n == q * RING_BUFFER_SIZE + Wrap(n)
  {
    q := n / RING_BUFFER_SIZE;
  }

  lemma LastRingFrom(all: seq<Frame>, m: nat)
    requires |all| == m + Wrap(|all|)
    ensures LastRing(all) == all[m..]
  {
  }

  lemma AheadWraps(r: nat, n: nat)
    ensures Wrap(Wrap(r + n) - Wrap(r) + RING_BUFFER_SIZE) == Wrap(n)
  {
    AheadIs(r + n, r);
  }

  lemma SmallWrap(n: nat)
    requires n < RING_BUFFER_SIZE
    ensures Wrap(n) == n
  {
  }

  lemma WholeRings(n: nat, q: nat)
    ensures Wrap(n + q * RING_BUFFER_SIZE) == Wrap(n)
  {
  }

  lemma AheadBack(w: nat, r: nat)
    requires w < RING_BUFFER_SIZE && r < RING_BUFFER_SIZE
    ensures Wrap(r + Wrap(w - r + RING_BUFFER_SIZE)) == w
  {
  }

  lemma ReleasedLess(w: nat, r: nat, n: nat)
    requires w < RING_BUFFER_SIZE && r < RING_BUFFER_SIZE && n <= Wrap(w - r + RING_BUFFER_SIZE)
    ensures Wrap(w - Wrap(r + n) + RING_BUFFER_SIZE) == Wrap(w - r + RING_BUFFER_SIZE) - n
  {
  }
}
