/** The audio callback around the reverb: settings are read once under the lock, then the block
    is processed in place (AudioFXProcessor.cpp). */
module AudioFx {
  import opened Reverb
  import opened ReverbFilters

  class AudioFXProcessor {
    const left: ReverbSide
    const right: ReverbSide
    var micBoostEnabled: bool
    var micBoostGain: real
    var compressorEnabled: bool
    var comp: Compressor
    var reverbEnabled: bool
    var reverbMix: real
    var reverbPreset: nat
    var needsReverbReset: bool

    ghost function Objects(): set<object> {
      {this} + left.Objects() + right.Objects()
    }

    ghost function Settings_(): Settings
      reads this
    {
      Settings(micBoostEnabled, micBoostGain, compressorEnabled, comp, reverbEnabled, reverbMix, reverbPreset, needsReverbReset)
    }

    ghost predicate Apart() {
      left.Objects() !! right.Objects() && this !in left.Objects() && this !in right.Objects()
    }

    ghost predicate Valid()
      reads Objects()
    {
      Apart() && left.Valid() && right.Valid() && Settings_().Ok()
    }

    ghost function Value(): (f: Fx)
      requires Valid()
      reads Objects()
      ensures FxOk(f)
    {
      Fx(left.Value(), right.Value(), Settings_())
    }

    static method NewSide(other: ReverbSide, ghost objects: set<object>) returns (side: ReverbSide)
      requires objects == other.Objects() && other.Valid()
      ensures side.Valid() && fresh(side.Objects()) && side.Value() == Silent() && side.Objects() !! objects
      ensures other.Valid() && other.Value() == old(other.Value())
    {
      hide ReverbSide.Value, ReverbSide.Valid, ReverbSide.Objects;
      side := new ReverbSide();
      assert unchanged(objects);
      other.Untouched();
    }

    lemma NotInSide(side: ReverbSide)
      ensures this !in side.Objects()
    {
    }

    constructor ()
      ensures Valid() && fresh(Objects()) && Value() == After([])
    {
      hide ReverbSide.Value, ReverbSide.Valid, ReverbSide.Objects, Silent;
      var l := new ReverbSide();
      var r := NewSide(l, l.Objects());
      left, right := l, r;
      micBoostEnabled, micBoostGain, compressorEnabled, comp := false, 1.4125, false, Compressor(-20.0, 4.0, 0.01, 0.1, 0.0);
      reverbEnabled, reverbMix, reverbPreset, needsReverbReset := false, 0.3, 0, false;
      new;
      NotInSide(left);
      NotInSide(right);
    }

    /** One of the three effects on or off; the reverb asks for a reset when it goes off. */
    method SetEnabled(e: Event)
      requires Valid() && (e.EnableBoost? || e.EnableCompressor? || e.EnableReverb?)
      modifies this
      ensures Valid() && Value() == Step(old(Value()), e)
    {
      hide ReverbSide.Value, ReverbSide.Valid, ReverbSide.Objects, ReverbSide.CombObjects, ReverbSide.AllObjects;
      if e.EnableBoost? {
        micBoostEnabled := e.on;
      } else if e.EnableCompressor? {
        compressorEnabled := e.on;
      } else {
        reverbEnabled := e.on;
        if !e.on {
          needsReverbReset := true;
        }
      }
    }

    /** One of the five compressor parameters, cut to its range. */
    method SetCompressorParameter(e: Event)
      requires Valid() && e.SetCompressor?
      modifies this
      ensures Valid() && Value() == Step(old(Value()), e)
    {
      hide ReverbSide.Value, ReverbSide.Valid, ReverbSide.Objects, ReverbSide.CombObjects, ReverbSide.AllObjects;
      match e.param
      case Threshold => comp := comp.(threshold := Clamp(e.value, -60.0, 0.0));
      case Ratio => comp := comp.(ratio := Clamp(e.value, 1.0, 20.0));
      case Attack => comp := comp.(attack := Clamp(e.value, 0.001, 0.5));
      case Release => comp := comp.(release := Clamp(e.value, 0.01, 1.0));
      case MakeupGain => comp := comp.(makeupGain := Clamp(e.value, 0.0, 24.0));
    }

    /** A value, cut to its range; a new preset asks for a reset. */
    method SetParameter(e: Event)
      requires Valid() && (e.SetGain? || e.SetCompressor? || e.SetMix? || e.SetPreset?)
      modifies this
      ensures Valid() && Value() == Step(old(Value()), e)
    {
      hide ReverbSide.Value, ReverbSide.Valid, ReverbSide.Objects, ReverbSide.CombObjects, ReverbSide.AllObjects;
      if e.SetGain? {
        micBoostGain := Clamp(e.value, 1.0, 4.0);
      } else if e.SetCompressor? {
        SetCompressorParameter(e);
      } else if e.SetMix? {
        reverbMix := Clamp(e.value, 0.0, 1.0);
      } else {
        reverbPreset := Clamp(e.value, 0.0, 3.0).Floor;
        needsReverbReset := true;
      }
    }

    /** One side, sample by sample, in place. */
    static method ProcessSide(side: ReverbSide, buf: array<real>, mix: real, p: Params)
      requires side.Valid() && buf !in side.Objects()
      modifies side.Objects(), buf
      ensures side.Valid() && side.Value() == SideAfter(old(side.Value()), old(buf[..]), p)
      ensures buf[..] == Reverbed(old(side.Value()), old(buf[..]), p, mix)
    {
      hide ReverbSide.Value, ReverbSide.Valid, ReverbSide.Objects, SideStep, SideAfter, Wet, Blend;
      ghost var x, s := buf[..], side.Value();
      SideStarts(s, x, p);
      for i := 0 to buf.Length
        invariant side.Valid() && side.Value() == SideAfter(s, x[..i], p)
        invariant forall k :: 0 <= k < i ==> buf[k] == Blend(x[k], Wet(SideAfter(s, x[..k], p), p), mix)
        invariant forall k :: i <= k < buf.Length ==> buf[k] == x[k]
      {
        SideGoesOn(s, x, i, p);
        var wet := side.Step(buf[i], p);
        buf[i] := Blend(buf[i], wet, mix);
      }
      assert x[..buf.Length] == x;
    }

    /** One side of the callback: reset, boost, compressor and reverb, with the settings copied
        before. */
    static method ProcessWith(side: ReverbSide, buf: array<real>, gains: Gains, s: Settings, ghost objects: set<object>)
      requires objects == side.Objects()
      requires side.Valid() && buf !in side.Objects() && s.Ok()
      modifies side.Objects(), buf
      ensures side.Valid() && side.Value() == SideBlock(old(side.Value()), old(buf[..]), gains, s)
      ensures buf[..] == SideOut(old(side.Value()), old(buf[..]), gains, s)
    {
      hide ReverbSide.Value, ReverbSide.Valid, ReverbSide.Objects, SideAfter, Reverbed, Silent, Amplified;
      ghost var x := buf[..];
      if s.needsReset {
        side.Reset();
      }
      assert buf[..] == x;
      label Ready:
      if s.boostOn {
        Boost(buf, s.boostGain);
      }
      assert buf[..] == Boosted(x, s);
      if s.compOn {
        Compress(buf, gains);
      }
      assert unchanged@Ready(objects);
      side.Untouched@Ready();
      assert buf[..] == Prepared(x, s, gains);
      if s.reverbOn {
        ProcessSide(side, buf, s.mix, PRESETS[s.preset]);
      }
    }

    static method Boost(buf: array<real>, gain: real)
      modifies buf
      ensures forall k :: 0 <= k < buf.Length ==> buf[k] == Amplified(old(buf[k]), gain)
    {
      hide Amplified;
      for i := 0 to buf.Length
        invariant forall k :: 0 <= k < i ==> buf[k] == Amplified(old(buf[k]), gain)
        invariant forall k :: i <= k < buf.Length ==> buf[k] == old(buf[k])
      {
        buf[i] := Amplified(buf[i], gain);
      }
    }

    /** The compressor's gain for each frame, whatever its envelope follower makes it. */
    static method Compress(buf: array<real>, gains: Gains)
      modifies buf
      ensures forall k :: 0 <= k < buf.Length ==> buf[k] == Amplified(old(buf[k]), gains(k))
    {
      hide Amplified;
      for i := 0 to buf.Length
        invariant forall k :: 0 <= k < i ==> buf[k] == Amplified(old(buf[k]), gains(k))
        invariant forall k :: i <= k < buf.Length ==> buf[k] == old(buf[k])
      {
        buf[i] := Amplified(buf[i], gains(i));
      }
    }

    /** One audio callback: the settings are copied, and the reset taken, under the lock; the
        rest works on the copies. */
    method Process(inL: array<real>, inR: array<real>, gains: Gains, ghost lefts: set<object>, ghost rights: set<object>)
      requires Valid() && inL.Length == inR.Length && inL != inR && {inL, inR} !! Objects()
      requires lefts == left.Objects() && rights == right.Objects()
      modifies Objects(), inL, inR
      ensures Valid() && Value() == Step(old(Value()), Block(old(inL[..]), old(inR[..]), gains))
      ensures inL[..] == SideOut(old(left.Value()), old(inL[..]), gains, old(Settings_()))
      ensures inR[..] == SideOut(old(right.Value()), old(inR[..]), gains, old(Settings_()))
    {
      hide ReverbSide.Value, ReverbSide.Valid, ReverbSide.Objects, SideBlock, SideOut;
      var s := Settings(micBoostEnabled, micBoostGain, compressorEnabled, comp, reverbEnabled, reverbMix, reverbPreset, needsReverbReset);
      needsReverbReset := false;
      label Copied:
      ProcessWith(left, inL, gains, s, lefts);
      assert unchanged@Copied(rights);
      right.Untouched@Copied();
      label Half:
      ProcessWith(right, inR, gains, s, rights);
      assert unchanged@Half(lefts);
      left.Untouched@Half();
    }
  }

  lemma SideStarts(s: Side, x: seq<real>, p: Params)
    requires s.Ok()
    ensures SideAfter(s, x[..0], p) == s
  {
  }

  lemma SideGoesOn(s: Side, x: seq<real>, i: nat, p: Params)
    requires s.Ok() && i < |x|
    ensures SideAfter(s, x[..i + 1], p) == SideStep(SideAfter(s, x[..i], p), x[i], p)
  {
    hide SideStep;
    assert x[..i + 1][..i] == x[..i];
  }
}
