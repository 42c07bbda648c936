/** The Schroeder reverb of AudioFXProcessor.cpp over real numbers: four comb filters and two
    allpass filters per side, and what the settings do to them. */
module Reverb {
  const COMB_LENGTHS: seq<nat> := [1557, 1617, 1491, 1422]
  const ALLPASS_LENGTHS: seq<nat> := [225, 556]

  datatype Params = Params(feedback: real, damping: real, allpassGain: real) {
    predicate Ok() {
      0.0 <= feedback < 1.0 && 0.0 <= damping <= 1.0 && 0.0 <= allpassGain < 1.0
    }
  }

  const PRESETS := [Params(0.70, 0.4, 0.5), Params(0.80, 0.3, 0.5), Params(0.88, 0.2, 0.5), Params(0.85, 0.15, 0.6)]

  predicate Within(x: real, bound: real) {
    -bound <= x <= bound
  }

  predicate AllWithin(s: seq<real>, bound: real) {
    forall i :: 0 <= i < |s| ==> Within(s[i], bound)
  }

  // ----- one comb filter -----

  datatype Comb = Comb(buf: seq<real>, idx: nat, damp: real) {
    predicate Ok() {
      idx < |buf|
    }
  }

  function Amplified(x: real, gain: real): real {
    x * gain
  }

  /** A low-pass: the old state and the new value, weighed. */
  function Damp(state: real, x: real, damping: real): real {
    Amplified(state, damping) + Amplified(x, 1.0 - damping)
  }

  /** What a delay line takes in: the input and part of what it gives out. */
  function Feed(input: real, back: real, gain: real): real {
    input + Amplified(back, gain)
  }

  function CombDamped(c: Comb, p: Params): real
    requires c.Ok()
  {
    Damp(c.damp, c.buf[c.idx], p.damping)
  }

  function CombOut(c: Comb): real
    requires c.Ok()
  {
    c.buf[c.idx]
  }

  function CombStep(c: Comb, input: real, p: Params): (r: Comb)
    requires c.Ok()
    ensures r.Ok() && |r.buf| == |c.buf|
  {
    var damped := CombDamped(c, p);
    Comb(c.buf[c.idx := Feed(input, damped, p.feedback)], (c.idx + 1) % |c.buf|, damped)
  }

  // ----- one allpass filter -----

  datatype Allpass = Allpass(buf: seq<real>, idx: nat) {
    predicate Ok() {
      idx < |buf|
    }
  }

  function AllpassStep(a: Allpass, input: real, p: Params): (r: Allpass)
    requires a.Ok()
    ensures r.Ok() && |r.buf| == |a.buf|
  {
    Allpass(a.buf[a.idx := Feed(input, a.buf[a.idx], p.allpassGain)], (a.idx + 1) % |a.buf|)
  }

  function AllpassOut(a: Allpass, input: real, p: Params): real
    requires a.Ok()
  {
    Feed(a.buf[a.idx], -input, p.allpassGain)
  }

  // ----- one side -----

  datatype Side = Side(combs: seq<Comb>, alls: seq<Allpass>) {
    predicate Ok() {
      && |combs| == |COMB_LENGTHS| && |alls| == |ALLPASS_LENGTHS|
      && (forall i :: 0 <= i < |combs| ==> combs[i].Ok() && |combs[i].buf| == COMB_LENGTHS[i])
      && (forall i :: 0 <= i < |alls| ==> alls[i].Ok() && |alls[i].buf| == ALLPASS_LENGTHS[i])
    }
  }

  /** The sum of what the first n comb filters put out. */
  function CombSum(combs: seq<Comb>, n: nat): real
    requires n <= |combs| && forall i :: 0 <= i < |combs| ==> combs[i].Ok()
  {
    if n == 0 then 0.0 else CombSum(combs, n - 1) + CombOut(combs[n - 1])
  }

  /** The signal behind the first n allpass filters. */
  function Through(alls: seq<Allpass>, input: real, n: nat, p: Params): real
    requires n <= |alls| && forall i :: 0 <= i < |alls| ==> alls[i].Ok()
  {
    if n == 0 then input else AllpassOut(alls[n - 1], Through(alls, input, n - 1, p), p)
  }

  function Wet(s: Side, p: Params): real
    requires s.Ok()
  {
    Through(s.alls, CombSum(s.combs, 4) / 4.0, 2, p)
  }

  function CombsStep(combs: seq<Comb>, input: real, p: Params): (r: seq<Comb>)
    requires forall i :: 0 <= i < |combs| ==> combs[i].Ok()
    ensures |r| == |combs| && forall i :: 0 <= i < |r| ==> r[i] == CombStep(combs[i], input, p)
  {
    seq(|combs|, i requires 0 <= i < |combs| => CombStep(combs[i], input, p))
  }

  /** Each allpass filter takes what the one before it puts out. */
  function AllsStep(alls: seq<Allpass>, input: real, p: Params): (r: seq<Allpass>)
    requires forall i :: 0 <= i < |alls| ==> alls[i].Ok()
    ensures |r| == |alls| && forall i :: 0 <= i < |r| ==> r[i] == AllpassStep(alls[i], Through(alls, input, i, p), p)
  {
    seq(|alls|, i requires 0 <= i < |alls| => AllpassStep(alls[i], Through(alls, input, i, p), p))
  }

  function SideStep(s: Side, input: real, p: Params): (r: Side)
    requires s.Ok()
    ensures r.Ok()
  {
    Side(CombsStep(s.combs, input, p), AllsStep(s.alls, CombSum(s.combs, 4) / 4.0, p))
  }

  // ----- bounds -----

  /** What a comb cell can reach when the input stays within m. */
  function CombBound(m: real, p: Params): (r: real)
    requires m >= 0.0 && p.Ok()
    ensures r >= m
  {
    var r := m / (1.0 - p.feedback);
    GeometricBound(m, p.feedback);
    r
  }

  lemma GeometricBound(m: real, f: real)
    requires m >= 0.0 && 0.0 <= f < 1.0
    ensures m / (1.0 - f) >= m && m + Amplified(m / (1.0 - f), f) == m / (1.0 - f)
  {
    var r := m / (1.0 - f);
    assert r * (1.0 - f) == m;
    assert r * (1.0 - f) == r - r * f;
    if r < 0.0 {
      StrictlyPositive(-r, 1.0 - f);
    }
    Positive(r, f);
  }

  lemma StrictlyPositive(r: real, f: real)
    requires 0.0 < f && r > 0.0
    ensures r * f > 0.0 && (-r) * f < 0.0
  {
  }

  lemma Positive(r: real, f: real)
    requires 0.0 <= f && r >= 0.0
    ensures Amplified(r, f) >= 0.0
  {
  }

  /** What an allpass cell can reach when its input stays within m. */
  function AllpassBound(m: real, p: Params): (r: real)
    requires m >= 0.0 && p.Ok()
    ensures r >= m
  {
    GeometricBound(m, p.allpassGain);
    m / (1.0 - p.allpassGain)
  }

  /** What an allpass filter puts out then. */
  function AllpassOutBound(m: real, p: Params): (r: real)
    requires m >= 0.0 && p.Ok()
    ensures r >= m
  {
    Positive(m, p.allpassGain);
    AllpassBound(m, p) + Amplified(m, p.allpassGain)
  }

  /** The bound behind the first n allpass filters. */
  function ThroughBound(m: real, p: Params, n: nat): (r: real)
    requires m >= 0.0 && p.Ok()
    ensures r >= m
  {
    if n == 0 then CombBound(m, p) else AllpassOutBound(ThroughBound(m, p, n - 1), p)
  }

  lemma Scaled(x: real, bound: real, w: real)
    requires Within(x, bound) && w >= 0.0
    ensures Within(Amplified(x, w), Amplified(bound, w))
  {
    Positive(bound - x, w);
    Positive(x + bound, w);
    Distributes(bound, x, w);
  }

  lemma Distributes(b: real, x: real, w: real)
    ensures Amplified(b - x, w) == Amplified(b, w) - Amplified(x, w)
    ensures Amplified(x + b, w) == Amplified(x, w) + Amplified(b, w)
  {
  }

  /** A bound shared between two weights. */
  lemma SplitBound(bound: real, w: real, v: real)
    requires w + v == 1.0
    ensures Amplified(bound, w) + Amplified(bound, v) == bound
  {
    assert bound * (w + v) == bound * w + bound * v;
  }

  lemma Mixed(x: real, y: real, bound: real, w: real)
    requires Within(x, bound) && Within(y, bound) && 0.0 <= w <= 1.0
    ensures Within(Amplified(x, w) + Amplified(y, 1.0 - w), bound)
  {
    hide Amplified;
    var v := 1.0 - w;
    Scaled(x, bound, w);
    Scaled(y, bound, v);
    SplitBound(bound, w, v);
    Sum(Amplified(x, w), Amplified(y, v), Amplified(bound, w), Amplified(bound, v), bound);
  }

  lemma Sum(x: real, y: real, a: real, b: real, c: real)
    requires Within(x, a) && Within(y, b) && a + b == c
    ensures Within(x + y, c) && Within(x - y, c)
  {
  }

  ghost predicate CombBounded(c: Comb, m: real, p: Params)
    requires m >= 0.0 && p.Ok()
  {
    c.Ok() && AllWithin(c.buf, CombBound(m, p)) && Within(c.damp, CombBound(m, p))
  }

  lemma Replaced(buf: seq<real>, idx: nat, x: real, bound: real)
    requires idx < |buf| && AllWithin(buf, bound) && Within(x, bound)
    ensures AllWithin(buf[idx := x], bound)
  {
  }

  lemma FeedWithin(input: real, back: real, gain: real, m: real, bound: real)
    requires Within(input, m) && Within(back, bound) && gain >= 0.0
    ensures Within(Feed(input, back, gain), m + Amplified(bound, gain))
  {
    hide Amplified;
    Scaled(back, bound, gain);
    Sum(input, Amplified(back, gain), m, Amplified(bound, gain), m + Amplified(bound, gain));
  }

  lemma CombStaysIn(c: Comb, input: real, m: real, p: Params, bound: real)
    requires c.Ok() && p.Ok() && AllWithin(c.buf, bound) && Within(c.damp, bound) && Within(input, m)
    requires m + Amplified(bound, p.feedback) == bound
    ensures AllWithin(CombStep(c, input, p).buf, bound) && Within(CombStep(c, input, p).damp, bound)
  {
    hide Feed, Amplified;
    var damped := CombDamped(c, p);
    Mixed(c.damp, c.buf[c.idx], bound, p.damping);
    assert Within(damped, bound);
    hide CombDamped;
    FeedWithin(input, damped, p.feedback, m, bound);
    Replaced(c.buf, c.idx, Feed(input, damped, p.feedback), bound);
  }

  /** A comb filter never leaves m / (1 - feedback). */
  lemma CombStays(c: Comb, input: real, m: real, p: Params)
    requires m >= 0.0 && p.Ok() && CombBounded(c, m, p) && Within(input, m)
    ensures CombBounded(CombStep(c, input, p), m, p)
  {
    hide CombStep, Amplified;
    GeometricBound(m, p.feedback);
    CombStaysIn(c, input, m, p, CombBound(m, p));
  }

  lemma AllpassStaysIn(a: Allpass, input: real, m: real, p: Params, bound: real)
    requires a.Ok() && p.Ok() && AllWithin(a.buf, bound) && Within(input, m) && m + Amplified(bound, p.allpassGain) == bound
    ensures AllWithin(AllpassStep(a, input, p).buf, bound)
    ensures Within(AllpassOut(a, input, p), bound + Amplified(m, p.allpassGain))
  {
    hide Feed, Amplified;
    var cell := a.buf[a.idx];
    FeedWithin(input, cell, p.allpassGain, m, bound);
    FeedWithin(cell, -input, p.allpassGain, bound, m);
    Replaced(a.buf, a.idx, Feed(input, cell, p.allpassGain), bound);
  }

  /** An allpass filter never leaves (input bound) / (1 - gain), nor its output that plus the
      gain times the input bound. */
  lemma AllpassStays(a: Allpass, input: real, m: real, p: Params)
    requires m >= 0.0 && p.Ok() && a.Ok() && AllWithin(a.buf, AllpassBound(m, p)) && Within(input, m)
    ensures AllWithin(AllpassStep(a, input, p).buf, AllpassBound(m, p))
    ensures Within(AllpassOut(a, input, p), AllpassOutBound(m, p))
  {
    hide AllpassStep, AllpassOut, Amplified;
    GeometricBound(m, p.allpassGain);
    AllpassStaysIn(a, input, m, p, AllpassBound(m, p));
  }

  ghost predicate Bounded(s: Side, m: real, p: Params): (b: bool)
    requires m >= 0.0 && p.Ok()
    ensures b ==> s.Ok()
  {
    && s.Ok()
    && (forall i :: 0 <= i < 4 ==> CombBounded(s.combs[i], m, p))
    && (forall i :: 0 <= i < 2 ==> AllWithin(s.alls[i].buf, AllpassBound(ThroughBound(m, p, i), p)))
  }

  lemma {:induction false} SumWithin(combs: seq<Comb>, n: nat, bound: real)
    requires n <= |combs| && (forall i :: 0 <= i < |combs| ==> combs[i].Ok())
    requires forall i :: 0 <= i < n ==> AllWithin(combs[i].buf, bound)
    ensures Within(CombSum(combs, n), n as real * bound)
  {
    if n > 0 {
      SumWithin(combs, n - 1, bound);
      var x := CombOut(combs[n - 1]);
      assert n as real * bound == (n - 1) as real * bound + bound;
      Sum(CombSum(combs, n - 1), x, (n - 1) as real * bound, bound, n as real * bound);
    }
  }

  lemma {:induction false} ThroughStays(s: Side, n: nat, m: real, p: Params)
    requires m >= 0.0 && p.Ok() && Bounded(s, m, p) && n <= 2
    ensures Within(Through(s.alls, CombSum(s.combs, 4) / 4.0, n, p), ThroughBound(m, p, n))
  {
    hide AllpassBound, AllpassOutBound, AllpassOut, CombBound, AllWithin;
    if n == 0 {
      SumWithin(s.combs, 4, CombBound(m, p));
    } else {
      ThroughStays(s, n - 1, m, p);
      AllpassStays(s.alls[n - 1], Through(s.alls, CombSum(s.combs, 4) / 4.0, n - 1, p), ThroughBound(m, p, n - 1), p);
    }
  }

  /** One sample keeps every cell of a side within its bound, and the output too. */
  lemma SideStays(s: Side, input: real, m: real, p: Params)
    requires m >= 0.0 && p.Ok() && Bounded(s, m, p) && Within(input, m)
    ensures Bounded(SideStep(s, input, p), m, p) && Within(Wet(s, p), ThroughBound(m, p, 2))
  {
    hide AllpassBound, CombBounded, CombSum, Through, ThroughBound, AllWithin, CombStep, AllpassStep;
    ThroughStays(s, 2, m, p);
    var mid := CombSum(s.combs, 4) / 4.0;
    forall i | 0 <= i < 4
      ensures CombBounded(SideStep(s, input, p).combs[i], m, p)
    {
      CombStays(s.combs[i], input, m, p);
    }
    forall i | 0 <= i < 2
      ensures AllWithin(SideStep(s, input, p).alls[i].buf, AllpassBound(ThroughBound(m, p, i), p))
    {
      ThroughStays(s, i, m, p);
      AllpassStays(s.alls[i], Through(s.alls, mid, i, p), ThroughBound(m, p, i), p);
    }
  }

  // ----- settings, blocks and whole runs -----

  function Clamp(x: real, lo: real, hi: real): (r: real)
    requires lo <= hi
    ensures lo <= r <= hi
  {
    if x < lo then lo else if x > hi then hi else x
  }

  datatype Compressor = Compressor(threshold: real, ratio: real, attack: real, release: real, makeupGain: real) {
    predicate Ok() {
      -60.0 <= threshold <= 0.0 && 1.0 <= ratio <= 20.0 && 0.001 <= attack <= 0.5 && 0.01 <= release <= 1.0 && 0.0 <= makeupGain <= 24.0
    }
  }

  datatype CompressorParam = Threshold | Ratio | Attack | Release | MakeupGain

  datatype Settings = Settings(boostOn: bool, boostGain: real, compOn: bool, comp: Compressor,
                               reverbOn: bool, mix: real, preset: nat, needsReset: bool)
  {
    predicate Ok() {
      1.0 <= boostGain <= 4.0 && comp.Ok() && 0.0 <= mix <= 1.0 && preset < |PRESETS|
    }
  }

  const START := Settings(false, 1.4125, false, Compressor(-20.0, 4.0, 0.01, 0.1, 0.0), false, 0.3, 0, false)

  datatype Fx = Fx(left: Side, right: Side, s: Settings)

  /** The gain the compressor computes for each frame of a block, the same for both sides. */
  type Gains = nat -> real

  datatype Event =
    | EnableBoost(on: bool)
    | EnableCompressor(on: bool)
    | EnableReverb(on: bool)
    | SetGain(value: real)
    | SetCompressor(param: CompressorParam, value: real)
    | SetMix(value: real)
    | SetPreset(value: real)
    | Block(inL: seq<real>, inR: seq<real>, gains: Gains)

  function Zeros(n: nat): (r: seq<real>)
    ensures |r| == n && forall i :: 0 <= i < n ==> r[i] == 0.0
  {
    seq(n, i requires 0 <= i < n => 0.0)
  }

  function Silent(): (r: Side)
    ensures r.Ok()
  {
    Side(seq(4, i requires 0 <= i < 4 => Comb(Zeros(COMB_LENGTHS[i]), 0, 0.0)),
         seq(2, i requires 0 <= i < 2 => Allpass(Zeros(ALLPASS_LENGTHS[i]), 0)))
  }

  function Set(s: Settings, e: Event): (r: Settings)
    requires s.Ok()
    ensures r.Ok()
  {
    match e
    case EnableBoost(on) => s.(boostOn := on)
    case EnableCompressor(on) => s.(compOn := on)
    case EnableReverb(on) => s.(reverbOn := on, needsReset := s.needsReset || !on)
    case SetGain(v) => s.(boostGain := Clamp(v, 1.0, 4.0))
    case SetCompressor(param, v) => s.(comp := Adjusted(s.comp, param, v))
    case SetMix(v) => s.(mix := Clamp(v, 0.0, 1.0))
    case SetPreset(v) => s.(preset := Clamp(v, 0.0, 3.0).Floor, needsReset := true)
    case Block(_, _, _) => s.(needsReset := false)
  }

  function Adjusted(c: Compressor, param: CompressorParam, v: real): (r: Compressor)
    ensures c.Ok() ==> r.Ok()
  {
    match param
    case Threshold => c.(threshold := Clamp(v, -60.0, 0.0))
    case Ratio => c.(ratio := Clamp(v, 1.0, 20.0))
    case Attack => c.(attack := Clamp(v, 0.001, 0.5))
    case Release => c.(release := Clamp(v, 0.01, 1.0))
    case MakeupGain => c.(makeupGain := Clamp(v, 0.0, 24.0))
  }

  function Boosted(x: seq<real>, s: Settings): (r: seq<real>)
    ensures |r| == |x|
  {
    if s.boostOn then seq(|x|, i requires 0 <= i < |x| => Amplified(x[i], s.boostGain)) else x
  }

  function Compressed(x: seq<real>, s: Settings, gains: Gains): (r: seq<real>)
    ensures |r| == |x|
  {
    if s.compOn then seq(|x|, i requires 0 <= i < |x| => Amplified(x[i], gains(i))) else x
  }

  /** What the reverb is given. */
  function Prepared(x: seq<real>, s: Settings, gains: Gains): (r: seq<real>)
    ensures |r| == |x|
  {
    Compressed(Boosted(x, s), s, gains)
  }

  /** Dry and wet signal, mixed. */
  function Blend(x: real, wet: real, mix: real): real {
    Amplified(wet, mix) + Amplified(x, 1.0 - mix)
  }

  /** A side after these inputs. */
  function SideAfter(s: Side, x: seq<real>, p: Params): (r: Side)
    requires s.Ok()
    ensures r.Ok()
  {
    if x == [] then s else SideStep(SideAfter(s, x[..|x| - 1], p), x[|x| - 1], p)
  }

  /** What a side puts out. */
  function Reverbed(s: Side, x: seq<real>, p: Params, mix: real): (r: seq<real>)
    requires s.Ok()
    ensures |r| == |x|
  {
    seq(|x|, i requires 0 <= i < |x| => Blend(x[i], Wet(SideAfter(s, x[..i], p), p), mix))
  }

  predicate FxOk(f: Fx) {
    f.left.Ok() && f.right.Ok() && f.s.Ok()
  }

  function Ready(side: Side, s: Settings): Side {
    if s.needsReset then Silent() else side
  }

  /** One side after a block, and what it puts out. */
  function SideBlock(side: Side, x: seq<real>, gains: Gains, s: Settings): (r: Side)
    requires side.Ok() && s.Ok()
    ensures r.Ok()
  {
    if s.reverbOn then SideAfter(Ready(side, s), Prepared(x, s, gains), PRESETS[s.preset]) else Ready(side, s)
  }

  function SideOut(side: Side, x: seq<real>, gains: Gains, s: Settings): (r: seq<real>)
    requires side.Ok() && s.Ok()
    ensures |r| == |x|
  {
    if s.reverbOn then Reverbed(Ready(side, s), Prepared(x, s, gains), PRESETS[s.preset], s.mix) else Prepared(x, s, gains)
  }

  function Step(f: Fx, e: Event): (r: Fx)
    requires FxOk(f)
    ensures FxOk(r)
  {
    if e.Block? then Fx(SideBlock(f.left, e.inL, e.gains, f.s), SideBlock(f.right, e.inR, e.gains, f.s), Set(f.s, e))
    else f.(s := Set(f.s, e))
  }

  function After(es: seq<Event>): (r: Fx)
    ensures FxOk(r)
  {
    if es == [] then Fx(Silent(), Silent(), START) else Step(After(es[..|es| - 1]), es[|es| - 1])
  }

  /** The compressor amplifies by no more than top. */
  ghost predicate Tame(gains: Gains, top: real) {
    forall i :: 0.0 <= gains(i) <= top
  }

  /** Every block's samples stay within m, and the compressor's gains within top. */
  ghost predicate Loud(es: seq<Event>, m: real, top: real) {
    forall k :: 0 <= k < |es| && es[k].Block? ==> AllWithin(es[k].inL, m) && AllWithin(es[k].inR, m) && Tame(es[k].gains, top)
  }

  const MAX_BOOST := 4.0

  /** A bound for what the reverb is given. */
  function ReverbInput(m: real, top: real): (r: real)
    requires m >= 0.0 && top >= 1.0
    ensures r >= 0.0
  {
    Positive(m, MAX_BOOST);
    Positive(Amplified(m, MAX_BOOST), top);
    Amplified(Amplified(m, MAX_BOOST), top)
  }

  lemma PresetsOk()
    ensures forall i :: 0 <= i < |PRESETS| ==> PRESETS[i].Ok()
  {
  }

  /** The side is about to be reset, or within the bounds of the preset in use. */
  ghost predicate Held(side: Side, s: Settings, n: real)
    requires n >= 0.0 && s.Ok()
  {
    PresetsOk();
    side.Ok() && (s.needsReset || Bounded(side, n, PRESETS[s.preset]))
  }

  lemma SilenceIsBounded(m: real, p: Params)
    requires m >= 0.0 && p.Ok()
    ensures Bounded(Silent(), m, p)
  {
    hide CombBound, AllpassBound, ThroughBound;
    assert ThroughBound(m, p, 0) >= 0.0 && ThroughBound(m, p, 1) >= 0.0;
  }

  lemma GainWithin(x: real, m: real, g: real, top: real)
    requires m >= 0.0 && Within(x, m) && 0.0 <= g <= top && top >= 1.0
    ensures Within(Amplified(x, g), Amplified(m, top)) && Within(x, Amplified(m, top))
  {
    Scaled(x, m, g);
    Larger(m, g, top);
    Larger(m, 1.0, top);
    assert Amplified(m, 1.0) == m;
    hide Amplified;
  }

  lemma Larger(m: real, g: real, top: real)
    requires m >= 0.0 && g <= top
    ensures Amplified(m, g) <= Amplified(m, top)
  {
    Positive(m, top - g);
    assert m * (top - g) == m * top - m * g;
  }

  lemma PreparedWithin(x: seq<real>, s: Settings, gains: Gains, m: real, top: real)
    requires m >= 0.0 && top >= 1.0 && s.Ok() && AllWithin(x, m) && Tame(gains, top)
    ensures AllWithin(Prepared(x, s, gains), ReverbInput(m, top))
  {
    Positive(m, MAX_BOOST);
    hide Amplified;
    var y, n := Boosted(x, s), Amplified(m, MAX_BOOST);
    forall i | 0 <= i < |x|
      ensures Within(y[i], n)
    {
      GainWithin(x[i], m, s.boostGain, MAX_BOOST);
    }
    forall i | 0 <= i < |x|
      ensures Within(Compressed(y, s, gains)[i], Amplified(n, top))
    {
      GainWithin(y[i], n, gains(i), top);
    }
  }

  lemma {:induction false} SideAfterStays(s: Side, x: seq<real>, m: real, p: Params)
    requires m >= 0.0 && p.Ok() && Bounded(s, m, p) && AllWithin(x, m)
    ensures Bounded(SideAfter(s, x, p), m, p)
  {
    hide Bounded, SideStep;
    if x != [] {
      SideAfterStays(s, x[..|x| - 1], m, p);
      hide SideAfter;
      SideStays(SideAfter(s, x[..|x| - 1], p), x[|x| - 1], m, p);
    }
  }

  lemma ReverbedWithin(s: Side, x: seq<real>, m: real, p: Params, mix: real)
    requires m >= 0.0 && p.Ok() && Bounded(s, m, p) && AllWithin(x, m) && 0.0 <= mix <= 1.0
    ensures AllWithin(Reverbed(s, x, p, mix), ThroughBound(m, p, 2))
  {
    hide Bounded, SideStep, SideAfter, Wet, ThroughBound, Amplified;
    forall i | 0 <= i < |x|
      ensures Within(Reverbed(s, x, p, mix)[i], ThroughBound(m, p, 2))
    {
      SideAfterStays(s, x[..i], m, p);
      SideStays(SideAfter(s, x[..i], p), x[i], m, p);
      Mixed(Wet(SideAfter(s, x[..i], p), p), x[i], ThroughBound(m, p, 2), mix);
    }
  }

  lemma SideBlockStays(side: Side, x: seq<real>, gains: Gains, s: Settings, m: real, top: real)
    requires m >= 0.0 && top >= 1.0 && s.Ok() && AllWithin(x, m) && Tame(gains, top) && Held(side, s, ReverbInput(m, top))
    ensures Held(SideBlock(side, x, gains, s), s.(needsReset := false), ReverbInput(m, top))
    ensures PRESETS[s.preset].Ok() && AllWithin(SideOut(side, x, gains, s), ThroughBound(ReverbInput(m, top), PRESETS[s.preset], 2))
  {
    hide Bounded, SideAfter, Reverbed, ThroughBound, Prepared, Tame;
    PresetsOk();
    var p, n := PRESETS[s.preset], ReverbInput(m, top);
    SilenceIsBounded(n, p);
    PreparedWithin(x, s, gains, m, top);
    SideAfterStays(Ready(side, s), Prepared(x, s, gains), n, p);
    ReverbedWithin(Ready(side, s), Prepared(x, s, gains), n, p, s.mix);
  }

  /** Over every run of settings changes and blocks, preset changes included, every comb and
      allpass cell stays within the bound of the preset in use, for what the boost and the
      compressor can make of the input. */
  lemma {:induction false} EveryRunStays(es: seq<Event>, m: real, top: real)
    requires m >= 0.0 && top >= 1.0 && Loud(es, m, top)
    ensures Held(After(es).left, After(es).s, ReverbInput(m, top)) && Held(After(es).right, After(es).s, ReverbInput(m, top))
  {
    hide Held, SideBlock, Silent, ReverbInput, Tame;
    if es == [] {
      StartHeld(ReverbInput(m, top));
    } else {
      var front, e := es[..|es| - 1], es[|es| - 1];
      EveryRunStays(front, m, top);
      var f := After(front);
      if e.Block? {
        SideBlockStays(f.left, e.inL, e.gains, f.s, m, top);
        SideBlockStays(f.right, e.inR, e.gains, f.s, m, top);
      } else {
        SettingHeld(f.left, f.s, e, ReverbInput(m, top));
        SettingHeld(f.right, f.s, e, ReverbInput(m, top));
      }
    }
  }

  lemma StartHeld(n: real)
    requires n >= 0.0
    ensures Held(Silent(), START, n)
  {
    PresetsOk();
    SilenceIsBounded(n, PRESETS[0]);
  }

  lemma SettingHeld(side: Side, s: Settings, e: Event, n: real)
    requires n >= 0.0 && s.Ok() && Held(side, s, n) && !e.Block?
    ensures Held(side, Set(s, e), n)
  {
    hide Bounded;
  }

  /** No preset amplifies more than 65 times. */
  lemma PresetGain(m: real, preset: nat)
    requires m >= 0.0 && preset < |PRESETS|
    ensures PRESETS[preset].Ok() && ThroughBound(m, PRESETS[preset], 2) <= 65.0 * m
  {
    var p := PRESETS[preset];
    assert ThroughBound(m, p, 0) == m / (1.0 - p.feedback);
    assert ThroughBound(m, p, 1) == AllpassOutBound(ThroughBound(m, p, 0), p);
    assert ThroughBound(m, p, 2) == AllpassOutBound(ThroughBound(m, p, 1), p);
  }

  /** So the output of any block of any run is at most 65 times what the reverb can be given:
      260 times the loudest input while the compressor does not amplify. */
  lemma OutputStays(es: seq<Event>, x: seq<real>, gains: Gains, m: real, top: real)
    requires m >= 0.0 && top >= 1.0 && Loud(es, m, top) && AllWithin(x, m) && Tame(gains, top)
    ensures AllWithin(SideOut(After(es).left, x, gains, After(es).s), 65.0 * ReverbInput(m, top))
    ensures AllWithin(SideOut(After(es).right, x, gains, After(es).s), 65.0 * ReverbInput(m, top))
    ensures ReverbInput(m, 1.0) == 4.0 * m
  {
    assert ReverbInput(m, 1.0) == 4.0 * m;
    hide After, SideOut, ThroughBound, Held, ReverbInput, Tame, Loud;
    var f := After(es);
    EveryRunStays(es, m, top);
    SideBlockStays(f.left, x, gains, f.s, m, top);
    SideBlockStays(f.right, x, gains, f.s, m, top);
    PresetGain(ReverbInput(m, top), f.s.preset);
  }
}
