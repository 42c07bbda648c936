/** The circular buffers are delay lines: each filter obeys its difference equation, in which
    a value comes back exactly as many samples later as the buffer is long. */
module ReverbDelays {
  import opened Reverb
  import Division

  type Signal = nat -> real

  // ----- comb filter -----

  /** What comes out of the delay at sample n. */
  function CombDelayed(x: Signal, n: nat, length: nat, p: Params): real
    requires length > 0
    decreases n, 0
  {
    if n < length then 0.0 else CombFed(x, n - length, length, p)
  }

  function CombState(x: Signal, n: nat, length: nat, p: Params): real
    requires length > 0
    decreases n, 1
  {
    (if n == 0 then 0.0 else CombState(x, n - 1, length, p)) * p.damping + CombDelayed(x, n, length, p) * (1.0 - p.damping)
  }

  /** What goes into the delay at sample n. */
  function CombFed(x: Signal, n: nat, length: nat, p: Params): real
    requires length > 0
    decreases n, 2
  {
    x(n) + CombState(x, n, length, p) * p.feedback
  }

  function CombAfter(x: Signal, n: nat, length: nat, p: Params): (c: Comb)
    requires length > 0
    ensures c.Ok() && |c.buf| == length
  {
    if n == 0 then Comb(Zeros(length), 0, 0.0) else CombStep(CombAfter(x, n - 1, length, p), x(n - 1), p)
  }

  /** The buffer holds the last `length` values fed in, each at its sample number modulo the
      length, and zeros before there were that many. */
  ghost predicate HoldsLast(buf: seq<real>, n: nat, fed: Signal)
    requires |buf| > 0
  {
    forall j :: 0 <= j < |buf| ==> buf[j] == LastAt(j, n, |buf|, fed)
  }

  /** The value fed in at the last sample before n that is j modulo the length. */
  function LastAt(j: nat, n: nat, length: nat, fed: Signal): real
    requires j < length
  {
    if n <= j then 0.0 else fed(j + (n - 1 - j) / length * length)
  }

  lemma ThisSlot(n: nat, length: nat, fed: Signal)
    requires length > 0
    ensures LastAt(n % length, n + 1, length, fed) == fed(n)
    ensures LastAt(n % length, n, length, fed) == if n < length then 0.0 else fed(n - length)
  {
    var q, r := n / length, n % length;
    assert n == q * length + r;
    Division.Unique(n - r, length, q, 0);
    assert r + (n - r) / length * length == n;
    if n >= length {
      assert (q - 1) * length == q * length - length;
      Division.Unique(n - 1 - r, length, q - 1, length - 1);
      assert r + (n - 1 - r) / length * length == n - length;
    } else {
      Division.Unique(n, length, 0, n);
    }
  }

  lemma NextSlot(n: nat, length: nat, fed: Signal)
    requires length > 0
    ensures LastAt(n % length, n + 1, length, fed) == fed(n)
    ensures LastAt(n % length, n, length, fed) == if n < length then 0.0 else fed(n - length)
    ensures forall j :: 0 <= j < length && j != n % length ==> LastAt(j, n + 1, length, fed) == LastAt(j, n, length, fed)
  {
    ThisSlot(n, length, fed);
    forall j | 0 <= j < length && j != n % length
      ensures LastAt(j, n + 1, length, fed) == LastAt(j, n, length, fed)
    {
      OtherSlot(j, n, length);
    }
  }

  /** Another slot's last sample is the same one sample later. */
  lemma OtherSlot(j: nat, n: nat, length: nat)
    requires j < length && j != n % length
    ensures n != j && (n > j ==> (n - j) / length == (n - 1 - j) / length)
  {
    var q, r := n / length, n % length;
    assert n == q * length + r;
    if n == j {
      Division.Unique(n, length, 0, n);
    } else if n > j {
      if j < r {
        Division.Unique(n - j, length, q, r - j);
        Division.Unique(n - 1 - j, length, q, r - j - 1);
      } else {
        Division.Unique(n - j, length, q - 1, length + r - j);
        Division.Unique(n - 1 - j, length, q - 1, length + r - j - 1);
      }
    }
  }

  lemma StepHolds(buf: seq<real>, n: nat, fed: Signal)
    requires |buf| > 0 && HoldsLast(buf, n, fed)
    ensures HoldsLast(buf[n % |buf| := fed(n)], n + 1, fed)
    ensures buf[n % |buf|] == if n < |buf| then 0.0 else fed(n - |buf|)
  {
    NextSlot(n, |buf|, fed);
  }

  lemma NextIndex(n: nat, length: nat)
    requires length > 0
    ensures (n % length + 1) % length == (n + 1) % length
  {
    var q, r := n / length, n % length;
    if r + 1 == length {
      assert n + 1 == (q + 1) * length by {
        assert n == q * length + r;
      }
      Division.Unique(n + 1, length, q + 1, 0);
      Division.Unique(r + 1, length, 1, 0);
    } else {
      Division.Unique(n + 1, length, q, r + 1);
      Division.Unique(r + 1, length, 0, r + 1);
    }
  }

  lemma ZerosHold(length: nat, fed: Signal)
    requires length > 0
    ensures HoldsLast(Zeros(length), 0, fed)
  {
  }

  lemma DampIs(state: real, x: real, damping: real)
    ensures Damp(state, x, damping) == state * damping + x * (1.0 - damping)
  {
  }

  lemma FeedIs(input: real, back: real, gain: real)
    ensures Feed(input, back, gain) == input + back * gain
    ensures Feed(back, -input, gain) == back - input * gain
  {
  }

  lemma CombStepIs(x: Signal, n: nat, length: nat, p: Params)
    requires length > 0
    ensures CombState(x, n, length, p) == Damp(if n == 0 then 0.0 else CombState(x, n - 1, length, p), CombDelayed(x, n, length, p), p.damping)
    ensures CombFed(x, n, length, p) == Feed(x(n), CombState(x, n, length, p), p.feedback)
    ensures CombDelayed(x, n, length, p) == if n < length then 0.0 else CombFed(x, n - length, length, p)
    ensures n > 0 ==> CombAfter(x, n, length, p) == CombStep(CombAfter(x, n - 1, length, p), x(n - 1), p)
    ensures CombAfter(x, 0, length, p) == Comb(Zeros(length), 0, 0.0)
  {
    hide Damp, Feed, Zeros, CombStep, CombDelayed, CombState, CombFed;
    StateIs(x, n, length, p);
    FedIs(x, n, length, p);
    DelayedIs(x, n, length, p);
  }

  lemma StateIs(x: Signal, n: nat, length: nat, p: Params)
    requires length > 0
    ensures CombState(x, n, length, p) == Damp(if n == 0 then 0.0 else CombState(x, n - 1, length, p), CombDelayed(x, n, length, p), p.damping)
  {
    var before := if n == 0 then 0.0 else CombState(x, n - 1, length, p);
    DampIs(before, CombDelayed(x, n, length, p), p.damping);
    hide Damp, CombDelayed;
  }

  lemma FedIs(x: Signal, n: nat, length: nat, p: Params)
    requires length > 0
    ensures CombFed(x, n, length, p) == Feed(x(n), CombState(x, n, length, p), p.feedback)
  {
    FeedIs(x(n), CombState(x, n, length, p), p.feedback);
    hide Feed, CombState;
  }

  lemma DelayedIs(x: Signal, n: nat, length: nat, p: Params)
    requires length > 0
    ensures CombDelayed(x, n, length, p) == if n < length then 0.0 else CombFed(x, n - length, length, p)
  {
    hide CombFed;
  }

  /** The comb filter is its difference equation: what it puts out at sample n is what it took
      in `length` samples before. */
  lemma {:induction false} CombIsDelay(x: Signal, n: nat, length: nat, p: Params)
    requires length > 0
    ensures var c := CombAfter(x, n, length, p);
            && c.idx == n % length && c.damp == (if n == 0 then 0.0 else CombState(x, n - 1, length, p))
            && HoldsLast(c.buf, n, (k: nat) => CombFed(x, k, length, p))
            && CombOut(c) == CombDelayed(x, n, length, p)
  {
    hide HoldsLast, Damp, Feed, Zeros, CombAfter, CombState, CombFed, CombDelayed;
    var fed := (k: nat) => CombFed(x, k, length, p);
    CombStepIs(x, n, length, p);
    if n == 0 {
      ZerosHold(length, fed);
    } else {
      CombIsDelay(x, n - 1, length, p);
      CombStepIs(x, n - 1, length, p);
      var b := CombAfter(x, n - 1, length, p);
      assert CombDamped(b, p) == CombState(x, n - 1, length, p);
      StepHolds(b.buf, n - 1, fed);
      NextIndex(n - 1, length);
    }
    StepHolds(CombAfter(x, n, length, p).buf, n, fed);
  }

  // ----- allpass filter -----

  /** What goes into the delay at sample n: the input and part of what comes out. */
  function AllpassFed(x: Signal, n: nat, length: nat, p: Params): real
    requires length > 0
  {
    x(n) + (if n < length then 0.0 else AllpassFed(x, n - length, length, p)) * p.allpassGain
  }

  /** What comes out at sample n: the delayed value less part of the input. */
  function AllpassPassed(x: Signal, n: nat, length: nat, p: Params): real
    requires length > 0
  {
    (if n < length then 0.0 else AllpassFed(x, n - length, length, p)) - x(n) * p.allpassGain
  }

  function AllpassAfter(x: Signal, n: nat, length: nat, p: Params): (a: Allpass)
    requires length > 0
    ensures a.Ok() && |a.buf| == length
  {
    if n == 0 then Allpass(Zeros(length), 0) else AllpassStep(AllpassAfter(x, n - 1, length, p), x(n - 1), p)
  }

  lemma AllpassFedIs(x: Signal, n: nat, length: nat, p: Params)
    requires length > 0
    ensures AllpassFed(x, n, length, p) ==
            Feed(x(n), if n < length then 0.0 else AllpassFed(x, n - length, length, p), p.allpassGain)
  {
    hide Feed;
    FeedIs(x(n), if n < length then 0.0 else AllpassFed(x, n - length, length, p), p.allpassGain);
  }

  lemma AllpassPassedIs(x: Signal, n: nat, length: nat, p: Params)
    requires length > 0
    ensures AllpassPassed(x, n, length, p) ==
            Feed(if n < length then 0.0 else AllpassFed(x, n - length, length, p), -x(n), p.allpassGain)
  {
    hide Feed, AllpassFed;
    FeedIs(x(n), if n < length then 0.0 else AllpassFed(x, n - length, length, p), p.allpassGain);
  }

  /** The same for the allpass filter. */
  lemma {:induction false} AllpassIsDelay(x: Signal, n: nat, length: nat, p: Params)
    requires length > 0
    ensures var a := AllpassAfter(x, n, length, p);
            && a.idx == n % length && HoldsLast(a.buf, n, (k: nat) => AllpassFed(x, k, length, p))
            && AllpassOut(a, x(n), p) == AllpassPassed(x, n, length, p)
  {
    hide HoldsLast, Feed, Zeros, AllpassFed, AllpassPassed;
    var fed := (k: nat) => AllpassFed(x, k, length, p);
    AllpassPassedIs(x, n, length, p);
    if n == 0 {
      ZerosHold(length, fed);
    } else {
      AllpassIsDelay(x, n - 1, length, p);
      AllpassFedIs(x, n - 1, length, p);
      var b := AllpassAfter(x, n - 1, length, p);
      StepHolds(b.buf, n - 1, fed);
      NextIndex(n - 1, length);
    }
    StepHolds(AllpassAfter(x, n, length, p).buf, n, fed);
  }
}
