/** What a side of the audio callback puts out, in terms of the samples that came in since the
    last reset: dry signal, and wet signal as the difference equations of four comb filters and
    two allpass filters give it (AudioFXProcessor.cpp). */
module ReverbResponse {
  import opened Reverb
  import opened ReverbDelays

  /** The four combs side by side, a quarter of each. */
  function CombsOut(x: Signal, n: nat, p: Params): real {
    (CombDelayed(x, n, 1557, p) + CombDelayed(x, n, 1617, p) + CombDelayed(x, n, 1491, p) + CombDelayed(x, n, 1422, p)) / 4.0
  }

  function CombsSignal(x: Signal, p: Params): Signal {
    (n: nat) => CombsOut(x, n, p)
  }

  function FirstSignal(x: Signal, p: Params): Signal {
    (n: nat) => AllpassPassed(CombsSignal(x, p), n, 225, p)
  }

  /** The wet signal: the combs, then both allpass filters. */
  function WetAt(x: Signal, n: nat, p: Params): real {
    AllpassPassed(FirstSignal(x, p), n, 556, p)
  }

  function SideAt(x: Signal, n: nat, p: Params): (s: Side)
    ensures s.Ok()
  {
    if n == 0 then Silent() else SideStep(SideAt(x, n - 1, p), x(n - 1), p)
  }

  /** Every filter of the side is in the state its own input has brought it to. */
  ghost predicate Tracks(s: Side, x: Signal, n: nat, p: Params) {
    && s.Ok()
    && s.combs[0] == CombAfter(x, n, 1557, p) && s.combs[1] == CombAfter(x, n, 1617, p)
    && s.combs[2] == CombAfter(x, n, 1491, p) && s.combs[3] == CombAfter(x, n, 1422, p)
    && s.alls[0] == AllpassAfter(CombsSignal(x, p), n, 225, p)
    && s.alls[1] == AllpassAfter(FirstSignal(x, p), n, 556, p)
  }

  lemma CombsGive(s: Side, x: Signal, n: nat, p: Params)
    requires Tracks(s, x, n, p)
    ensures CombSum(s.combs, 4) / 4.0 == CombsSignal(x, p)(n)
  {
    hide CombAfter, CombDelayed, CombOut, AllpassAfter, HoldsLast, CombState, CombFed;
    CombIsDelay(x, n, 1557, p);
    CombIsDelay(x, n, 1617, p);
    CombIsDelay(x, n, 1491, p);
    CombIsDelay(x, n, 1422, p);
    FourSum(s.combs);
  }

  lemma FourSum(combs: seq<Comb>)
    requires |combs| == 4 && forall i :: 0 <= i < 4 ==> combs[i].Ok()
    ensures CombSum(combs, 4) == CombOut(combs[0]) + CombOut(combs[1]) + CombOut(combs[2]) + CombOut(combs[3])
  {
    hide CombOut;
    assert CombSum(combs, 1) == 0.0 + CombOut(combs[0]);
    assert CombSum(combs, 2) == CombSum(combs, 1) + CombOut(combs[1]);
    assert CombSum(combs, 3) == CombSum(combs, 2) + CombOut(combs[2]);
  }

  lemma PassesGive(s: Side, x: Signal, n: nat, p: Params)
    requires Tracks(s, x, n, p)
    ensures var input := CombSum(s.combs, 4) / 4.0;
            && Through(s.alls, input, 0, p) == CombsSignal(x, p)(n)
            && Through(s.alls, input, 1, p) == FirstSignal(x, p)(n)
            && Wet(s, p) == WetAt(x, n, p)
  {
    hide CombAfter, AllpassAfter, AllpassPassed, AllpassOut, HoldsLast, CombSum, CombsSignal, AllpassFed;
    CombsGive(s, x, n, p);
    AllpassIsDelay(CombsSignal(x, p), n, 225, p);
    AllpassIsDelay(FirstSignal(x, p), n, 556, p);
    var input := CombSum(s.combs, 4) / 4.0;
    assert Through(s.alls, input, 1, p) == AllpassOut(s.alls[0], input, p);
    assert Through(s.alls, input, 2, p) == AllpassOut(s.alls[1], Through(s.alls, input, 1, p), p);
  }

  lemma CombOneMore(x: Signal, n: nat, length: nat, p: Params)
    requires length > 0
    ensures CombAfter(x, n + 1, length, p) == CombStep(CombAfter(x, n, length, p), x(n), p)
    ensures AllpassAfter(x, n + 1, length, p) == AllpassStep(AllpassAfter(x, n, length, p), x(n), p)
  {
    hide CombStep, AllpassStep;
  }

  lemma StepTracks(s: Side, x: Signal, n: nat, p: Params)
    requires Tracks(s, x, n, p)
    ensures Tracks(SideStep(s, x(n), p), x, n + 1, p)
  {
    hide CombAfter, AllpassAfter, CombStep, AllpassStep, CombSum, Through, CombsSignal, FirstSignal, Wet, WetAt;
    PassesGive(s, x, n, p);
    CombOneMore(x, n, 1557, p);
    CombOneMore(x, n, 1617, p);
    CombOneMore(x, n, 1491, p);
    CombOneMore(x, n, 1422, p);
    CombOneMore(CombsSignal(x, p), n, 225, p);
    CombOneMore(FirstSignal(x, p), n, 556, p);
  }

  lemma StartTracks(x: Signal, p: Params)
    ensures Tracks(Silent(), x, 0, p)
  {
    hide Zeros, CombsSignal, FirstSignal;
  }

  lemma {:induction false} SideTracks(x: Signal, n: nat, p: Params)
    ensures Tracks(SideAt(x, n, p), x, n, p)
  {
    hide Tracks, SideStep, Silent;
    if n == 0 {
      StartTracks(x, p);
    } else {
      SideTracks(x, n - 1, p);
      StepTracks(SideAt(x, n - 1, p), x, n - 1, p);
    }
  }

  // ----- from sequences of samples -----

  /** The samples as a signal, silent behind them. */
  function Played(y: seq<real>): Signal {
    (n: nat) => if n < |y| then y[n] else 0.0
  }

  lemma {:induction false} SideFromSilence(y: seq<real>, n: nat, p: Params)
    requires n <= |y|
    ensures SideAfter(Silent(), y[..n], p) == SideAt(Played(y), n, p)
  {
    hide SideStep, Silent;
    if n > 0 {
      SideFromSilence(y, n - 1, p);
      assert y[..n][..n - 1] == y[..n - 1];
    }
  }

  lemma {:induction false} SideAfterSplit(s: Side, a: seq<real>, b: seq<real>, p: Params)
    requires s.Ok()
    ensures SideAfter(SideAfter(s, a, p), b, p) == SideAfter(s, a + b, p)
    decreases |b|
  {
    hide SideStep;
    if b == [] {
      assert a + b == a;
    } else {
      var z := |b| - 1;
      SideAfterSplit(s, a, b[..z], p);
      assert (a + b)[..|a + b| - 1] == a + b[..z];
    }
  }

  /** What the reverb of one side was given since its last reset. */
  function Past(es: seq<Event>, right: bool): seq<real>
    decreases |es|, 0
  {
    if es == [] then []
    else
      var front, e := es[..|es| - 1], es[|es| - 1];
      var s := After(front).s;
      if e.Block? then Kept(front, right) + if s.reverbOn then Prepared(if right then e.inR else e.inL, s, e.gains) else []
      else Past(front, right)
  }

  /** The same, with a reset still to be done taken into account. */
  function Kept(es: seq<Event>, right: bool): seq<real>
    decreases |es|, 1
  {
    if After(es).s.needsReset then [] else Past(es, right)
  }

  function SideOf(f: Fx, right: bool): Side {
    if right then f.right else f.left
  }

  lemma SideOfStep(f: Fx, e: Event, right: bool)
    requires FxOk(f)
    ensures SideOf(Step(f, e), right) ==
            if e.Block? then SideBlock(SideOf(f, right), if right then e.inR else e.inL, e.gains, f.s) else SideOf(f, right)
    ensures Step(f, e).s == Set(f.s, e)
  {
    hide SideBlock, Set;
  }

  lemma ResetIsKept(s: Settings, e: Event)
    requires s.Ok() && !Set(s, e).needsReset
    ensures e.Block? || (!s.needsReset && Set(s, e).preset == s.preset)
    ensures e.Block? ==> Set(s, e).preset == s.preset
  {
  }

  /** Over every run: unless a reset is due, a side is in the state in which the samples since
      the last one put it, under the preset in use. */
  lemma {:induction false} RunIsPast(es: seq<Event>, right: bool)
    ensures var f := After(es);
            Ready(SideOf(f, right), f.s) == SideAfter(Silent(), Kept(es, right), PRESETS[f.s.preset])
  {
    hide SideAfter, Silent, Prepared, Set;
    var f := After(es);
    NoSamples(PRESETS[f.s.preset]);
    if es != [] && !f.s.needsReset {
      var front, e := es[..|es| - 1], es[|es| - 1];
      RunIsPast(front, right);
      var g := After(front);
      SideOfStep(g, e, right);
      ResetIsKept(g.s, e);
      if e.Block? {
        SideAfterSplit(Silent(), Kept(front, right), Prepared(if right then e.inR else e.inL, g.s, e.gains), PRESETS[g.s.preset]);
        assert Kept(front, right) + [] == Kept(front, right);
      }
    }
  }

  lemma NoSamples(p: Params)
    ensures SideAfter(Silent(), [], p) == Silent()
  {
    hide Silent;
  }

  // ----- what comes out -----

  /** The input behind boost and compressor. */
  lemma PreparedIs(x: seq<real>, s: Settings, gains: Gains, i: nat)
    requires i < |x|
    ensures Prepared(x, s, gains)[i] == x[i] * (if s.boostOn then s.boostGain else 1.0) * if s.compOn then gains(i) else 1.0
  {
  }

  lemma BlendIs(x: real, wet: real, mix: real)
    ensures Blend(x, wet, mix) == x * (1.0 - mix) + wet * mix
  {
  }

  /** With the reverb off a block comes out as boost and compressor made it. */
  lemma WithoutReverb(side: Side, x: seq<real>, gains: Gains, s: Settings)
    requires side.Ok() && s.Ok() && !s.reverbOn
    ensures SideOut(side, x, gains, s) == Prepared(x, s, gains)
  {
  }

  /** One sample of a block, from the side as it is before it. */
  lemma SampleOut(side: Side, x: seq<real>, gains: Gains, s: Settings, i: nat)
    requires side.Ok() && s.Ok() && s.reverbOn && i < |x|
    ensures var x', p := Prepared(x, s, gains), PRESETS[s.preset];
            SideOut(side, x, gains, s)[i] == Blend(x'[i], Wet(SideAfter(Ready(side, s), x'[..i], p), p), s.mix)
  {
    hide Wet, Blend, Prepared, SideAfter, Silent;
  }

  /** Each sample of any block of any run with the reverb on: the dry sample and the wet signal of
      all samples since the last reset, in the shares of the mix. */
  lemma OutputIs(es: seq<Event>, right: bool, x: seq<real>, gains: Gains, i: nat)
    requires i < |x| && After(es).s.reverbOn
    ensures var f := After(es);
            var y, n := Kept(es, right) + Prepared(x, f.s, gains), |Kept(es, right)| + i;
            SideOut(SideOf(f, right), x, gains, f.s)[i]
            == Prepared(x, f.s, gains)[i] * (1.0 - f.s.mix) + WetAt(Played(y), n, PRESETS[f.s.preset]) * f.s.mix
  {
    hide Blend, Prepared, Kept, WetAt, After, SideOut, SideOf, Played;
    var f := After(es);
    BlendedIs(es, right, x, gains, i);
    BlendIs(Prepared(x, f.s, gains)[i],
            WetAt(Played(Kept(es, right) + Prepared(x, f.s, gains)), |Kept(es, right)| + i, PRESETS[f.s.preset]), f.s.mix);
  }

  lemma BlendedIs(es: seq<Event>, right: bool, x: seq<real>, gains: Gains, i: nat)
    requires i < |x| && After(es).s.reverbOn
    ensures var f := After(es);
            var y, n := Kept(es, right) + Prepared(x, f.s, gains), |Kept(es, right)| + i;
            SideOut(SideOf(f, right), x, gains, f.s)[i]
            == Blend(Prepared(x, f.s, gains)[i], WetAt(Played(y), n, PRESETS[f.s.preset]), f.s.mix)
  {
    hide Wet, Blend, Prepared, SideAfter, Kept, WetAt, Silent, After, Tracks, SideOut, Ready;
    var f := After(es);
    SampleOut(SideOf(f, right), x, gains, f.s, i);
    var p, x', past := PRESETS[f.s.preset], Prepared(x, f.s, gains), Kept(es, right);
    var y, n := past + x', |past| + i;
    RunIsPast(es, right);
    SideAfterSplit(Silent(), past, x'[..i], p);
    assert past + x'[..i] == y[..n];
    SideFromSilence(y, n, p);
    SideTracks(Played(y), n, p);
    var s := SideAt(Played(y), n, p);
    WetIs(s, Played(y), n, p);
  }

  lemma WetIs(s: Side, x: Signal, n: nat, p: Params)
    requires Tracks(s, x, n, p)
    ensures Wet(s, p) == WetAt(x, n, p)
  {
    hide Tracks, Wet, WetAt, Through, CombSum, CombsSignal, FirstSignal;
    PassesGive(s, x, n, p);
  }

  /** Nothing of the wet signal is heard with mix 0, and nothing of the dry one with mix 1. */
  lemma MixEnds(es: seq<Event>, right: bool, x: seq<real>, gains: Gains, i: nat)
    requires i < |x| && After(es).s.reverbOn
    ensures var f := After(es);
            var out, y, n := SideOut(SideOf(f, right), x, gains, f.s), Kept(es, right) + Prepared(x, f.s, gains), |Kept(es, right)| + i;
            && (f.s.mix == 0.0 ==> out[i] == Prepared(x, f.s, gains)[i])
            && (f.s.mix == 1.0 ==> out[i] == WetAt(Played(y), n, PRESETS[f.s.preset]))
  {
    hide After, Prepared, WetAt, Kept, SideOut;
    OutputIs(es, right, x, gains, i);
    Times(Prepared(x, After(es).s, gains)[i]);
    var f := After(es);
    Times(WetAt(Played(Kept(es, right) + Prepared(x, f.s, gains)), |Kept(es, right)| + i, PRESETS[f.s.preset]));
  }

  lemma Times(x: real)
    ensures x * 0.0 == 0.0 && x * 1.0 == x
  {
  }

  // ----- one single sample -----

  /** One sample, and silence. */
  ghost predicate Click(x: Signal, a: real) {
    x(0) == a && forall n: nat :: n > 0 ==> x(n) == 0.0
  }

  /** Before a comb's length nothing comes out, and nothing is in its damping. */
  lemma {:induction false} CombQuiet(x: Signal, n: nat, length: nat, p: Params)
    requires n < length
    ensures CombDelayed(x, n, length, p) == 0.0 && CombState(x, n, length, p) == 0.0
  {
    hide CombFed;
    if n > 0 {
      CombQuiet(x, n - 1, length, p);
    }
    NothingDamped(p.damping);
  }

  lemma NothingDamped(damping: real)
    ensures 0.0 * damping + 0.0 * (1.0 - damping) == 0.0
  {
  }

  /** A comb's first two answers to a click: the click after its length, and after twice its
      length that times feedback and one less damping; nothing else until then. */
  lemma CombAnswers(x: Signal, a: real, n: nat, length: nat, p: Params)
    requires length > 0 && n <= 2 * length && Click(x, a)
    ensures n < 2 * length ==> CombDelayed(x, n, length, p) == if n == length then a else 0.0
    ensures n == 2 * length ==> CombDelayed(x, n, length, p) == a * (1.0 - p.damping) * p.feedback
  {
    if n >= length {
      FedBack(x, n - length, length, p);
      if n < 2 * length {
        CombQuiet(x, n - length, length, p);
      } else {
        FedBack(x, 0, length, p);
        CombQuiet(x, 0, length, p);
        CombQuiet(x, length - 1, length, p);
        StateAtAnswer(x, a, length, p);
      }
    }
  }

  lemma FedBack(x: Signal, n: nat, length: nat, p: Params)
    requires length > 0
    ensures CombDelayed(x, n + length, length, p) == x(n) + CombState(x, n, length, p) * p.feedback
    ensures n < length ==> CombDelayed(x, n, length, p) == 0.0
  {
    hide CombState;
  }

  lemma StateAtAnswer(x: Signal, a: real, length: nat, p: Params)
    requires length > 0 && CombState(x, length - 1, length, p) == 0.0 && CombDelayed(x, length, length, p) == a
    ensures CombState(x, length, length, p) == a * (1.0 - p.damping)
  {
    hide CombDelayed;
  }

  lemma {:induction false} QuietFed(x: Signal, n: nat, length: nat, p: Params)
    requires length > 0 && forall k: nat :: k <= n ==> x(k) == 0.0
    ensures AllpassFed(x, n, length, p) == 0.0
  {
    if n >= length {
      QuietFed(x, n - length, length, p);
    }
  }

  /** What an allpass filter makes of the first sample it gets. */
  lemma FirstPassed(x: Signal, n: nat, length: nat, p: Params)
    requires length > 0 && forall k: nat :: k < n ==> x(k) == 0.0
    ensures AllpassPassed(x, n, length, p) == -(x(n) * p.allpassGain)
    ensures x(n) == 0.0 ==> AllpassPassed(x, n, length, p) == 0.0
  {
    hide AllpassFed;
    if n >= length {
      QuietFed(x, n - length, length, p);
    }
  }

  lemma CombsAnswer(x: Signal, a: real, n: nat, p: Params)
    requires n <= 1422 && Click(x, a)
    ensures CombsSignal(x, p)(n) == if n == 1422 then a / 4.0 else 0.0
  {
    hide CombDelayed, Click;
    CombAnswers(x, a, n, 1557, p);
    CombAnswers(x, a, n, 1617, p);
    CombAnswers(x, a, n, 1491, p);
    CombAnswers(x, a, n, 1422, p);
  }

  /** The first of a click that is heard wet comes out of the shortest comb, and twice past the
      allpass gain. */
  lemma FirstWet(x: Signal, a: real, n: nat, p: Params)
    requires n <= 1422 && Click(x, a)
    ensures WetAt(x, n, p) == if n == 1422 then a / 4.0 * p.allpassGain * p.allpassGain else 0.0
  {
    hide CombsSignal, AllpassPassed, Click;
    forall k: nat | k <= n
      ensures CombsSignal(x, p)(k) == if k == 1422 then a / 4.0 else 0.0
    {
      CombsAnswer(x, a, k, p);
    }
    forall k: nat | k <= n
      ensures FirstSignal(x, p)(k) == if k == 1422 then -(a / 4.0 * p.allpassGain) else 0.0
    {
      FirstPassed(CombsSignal(x, p), k, 225, p);
    }
    FirstPassed(FirstSignal(x, p), n, 556, p);
    Negated(a / 4.0 * p.allpassGain, p.allpassGain);
  }

  lemma Negated(x: real, g: real)
    ensures -(-x * g) == x * g
  {
  }

  /** A side that starts from silence, no boost, no compressor, and a block with one sample in
      front: the sample comes out dry at once, and 1422 samples later for the first time wet. */
  lemma ClickResponse(es: seq<Event>, right: bool, a: real, m: nat, gains: Gains, i: nat)
    requires Kept(es, right) == [] && After(es).s.reverbOn && !After(es).s.boostOn && !After(es).s.compOn
    requires i <= m && i <= 1422
    ensures var f := After(es);
            var out := SideOut(SideOf(f, right), [a] + Zeros(m), gains, f.s)[i];
            && (i == 0 ==> out == a * (1.0 - f.s.mix))
            && (0 < i < 1422 ==> out == 0.0)
            && (i == 1422 ==> out == a * (if f.s.preset == 3 then 0.09 else 0.0625) * f.s.mix)
  {
    hide After, Kept, WetAt, SideOut, SideOf, Click, Prepared, Played;
    var s, x := After(es).s, [a] + Zeros(m);
    OutputIs(es, right, x, gains, i);
    PlainIs(x, s, gains);
    assert [] + x == x && x[i] == if i == 0 then a else 0.0;
    ClickSignal(a, m, i, s.preset);
    Shares(i, a, x[i], WetAt(Played(x), i, PRESETS[s.preset]), a * if s.preset == 3 then 0.09 else 0.0625, s.mix);
  }

  lemma PlainIs(x: seq<real>, s: Settings, gains: Gains)
    requires !s.boostOn && !s.compOn
    ensures Prepared(x, s, gains) == x
  {
  }

  lemma ClickSignal(a: real, m: nat, i: nat, preset: nat)
    requires i <= 1422 && preset < 4
    ensures WetAt(Played([a] + Zeros(m)), i, PRESETS[preset])
            == if i == 1422 then a * (if preset == 3 then 0.09 else 0.0625) else 0.0
  {
    hide WetAt, Click, Played, Zeros;
    ClickPlayed(a, m);
    FirstWet(Played([a] + Zeros(m)), a, i, PRESETS[preset]);
    PresetShares(preset, a);
  }

  lemma ClickPlayed(a: real, m: nat)
    ensures Click(Played([a] + Zeros(m)), a)
  {
  }

  lemma Shares(i: nat, a: real, x: real, wet: real, first: real, mix: real)
    requires x == (if i == 0 then a else 0.0) && i <= 1422 && wet == if i == 1422 then first else 0.0
    ensures var out := x * (1.0 - mix) + wet * mix;
            && (i == 0 ==> out == a * (1.0 - mix)) && (0 < i < 1422 ==> out == 0.0) && (i == 1422 ==> out == first * mix)
  {
  }

  lemma PresetShares(preset: nat, a: real)
    requires preset < 4
    ensures a / 4.0 * PRESETS[preset].allpassGain * PRESETS[preset].allpassGain == a * if preset == 3 then 0.09 else 0.0625
  {
  }

  /** How loud a comb's second answer is under each preset. */
  lemma SecondAnswers(x: Signal, a: real, length: nat, preset: nat)
    requires length > 0 && Click(x, a) && preset < 4
    ensures CombDelayed(x, 2 * length, length, PRESETS[preset]) == a * [0.42, 0.56, 0.704, 0.7225][preset]
  {
    hide CombDelayed, Click;
    CombAnswers(x, a, 2 * length, length, PRESETS[preset]);
  }

  // ----- settings -----

  /** r is v, or the end of the range that v lies beyond. */
  predicate Nearest(r: real, v: real, lo: real, hi: real) {
    (lo <= v <= hi ==> r == v) && (v < lo ==> r == lo) && (v > hi ==> r == hi)
  }

  /** Each setting becomes the value of its own range nearest the one given, a preset cut to a
      whole number, and no other changes. */
  lemma SettingsTaken(s: Settings, e: Event)
    requires s.Ok()
    ensures var r := Set(s, e);
            match e {
              case SetGain(v) => r == s.(boostGain := r.boostGain) && Nearest(r.boostGain, v, 1.0, 4.0)
              case SetMix(v) => r == s.(mix := r.mix) && Nearest(r.mix, v, 0.0, 1.0)
              case SetPreset(v) => r == s.(preset := r.preset, needsReset := true) && r.preset <= 3
                && (v < 1.0 <==> r.preset == 0) && (v >= 3.0 <==> r.preset == 3) && (0.0 <= v < 4.0 ==> r.preset as real <= v < r.preset as real + 1.0)
              case SetCompressor(Threshold, v) => r == s.(comp := s.comp.(threshold := r.comp.threshold)) && Nearest(r.comp.threshold, v, -60.0, 0.0)
              case SetCompressor(Ratio, v) => r == s.(comp := s.comp.(ratio := r.comp.ratio)) && Nearest(r.comp.ratio, v, 1.0, 20.0)
              case SetCompressor(Attack, v) => r == s.(comp := s.comp.(attack := r.comp.attack)) && Nearest(r.comp.attack, v, 0.001, 0.5)
              case SetCompressor(Release, v) => r == s.(comp := s.comp.(release := r.comp.release)) && Nearest(r.comp.release, v, 0.01, 1.0)
              case SetCompressor(MakeupGain, v) => r == s.(comp := s.comp.(makeupGain := r.comp.makeupGain)) && Nearest(r.comp.makeupGain, v, 0.0, 24.0)
              case _ => true
            }
  {
  }

  /** Switching the reverb off, or taking a preset, makes the next block start from silence;
      nothing else a caller sets does. */
  lemma ForgetsOnlyWhenTold(es: seq<Event>, e: Event, right: bool)
    requires !e.Block?
    ensures Kept(es + [e], right) == if e.SetPreset? || (e.EnableReverb? && !e.on) then [] else Kept(es, right)
  {
    hide Prepared;
    var fs := es + [e];
    assert fs[..|fs| - 1] == es && fs[|fs| - 1] == e;
    hide Past, After;
    OneMoreEvent(es, e, right);
  }

  lemma OneMoreEvent(es: seq<Event>, e: Event, right: bool)
    requires !e.Block?
    ensures After(es + [e]).s == Set(After(es).s, e) && Past(es + [e], right) == Past(es, right)
  {
    hide Set, Prepared;
    var fs := es + [e];
    assert fs[..|fs| - 1] == es && fs[|fs| - 1] == e;
  }
}
