/** The reverb's delay lines in place, and the audio callback around them
    (AudioFXProcessor.cpp). */
module ReverbFilters {
  import opened Reverb

  class CombFilter {
    const buf: array<real>
    var idx: nat
    var dampState: real

    ghost predicate Valid()
      reads this
    {
      idx < buf.Length
    }

    ghost function Value(): (c: Comb)
      requires Valid()
      reads this, buf
      ensures c.Ok() && |c.buf| == buf.Length
    {
      Comb(buf[..], idx, dampState)
    }

    constructor (length: nat)
      requires length > 0
      ensures Valid() && Value() == Comb(Zeros(length), 0, 0.0) && fresh(buf)
    {
      buf := new real[length](i => 0.0);
      idx, dampState := 0, 0.0;
    }

    method Reset()
      requires buf.Length > 0
      modifies this, buf
      ensures Valid() && Value() == Comb(Zeros(buf.Length), 0, 0.0)
    {
      forall i | 0 <= i < buf.Length {
        buf[i] := 0.0;
      }
      idx, dampState := 0, 0.0;
      assert buf[..] == Zeros(buf.Length);
    }

    method Step(input: real, p: Params) returns (delayed: real)
      requires Valid()
      modifies this, buf
      ensures Valid() && Value() == CombStep(old(Value()), input, p) && delayed == CombOut(old(Value()))
    {
      delayed := buf[idx];
      ghost var c := Value();
      assert c.buf[c.idx] == delayed;
      var damped := Damp(dampState, delayed, p.damping);
      var fed := Feed(input, damped, p.feedback);
      assert CombStep(c, input, p) == Comb(c.buf[c.idx := fed], (c.idx + 1) % |c.buf|, damped);
      dampState := damped;
      buf[idx] := fed;
      idx := (idx + 1) % buf.Length;
      assert buf[..] == c.buf[c.idx := fed];
    }
  }

  class AllpassFilter {
    const buf: array<real>
    var idx: nat

    ghost predicate Valid()
      reads this
    {
      idx < buf.Length
    }

    ghost function Value(): (a: Allpass)
      requires Valid()
      reads this, buf
      ensures a.Ok() && |a.buf| == buf.Length
    {
      Allpass(buf[..], idx)
    }

    constructor (length: nat)
      requires length > 0
      ensures Valid() && Value() == Allpass(Zeros(length), 0) && fresh(buf)
    {
      buf := new real[length](i => 0.0);
      idx := 0;
    }

    method Reset()
      requires buf.Length > 0
      modifies this, buf
      ensures Valid() && Value() == Allpass(Zeros(buf.Length), 0)
    {
      forall i | 0 <= i < buf.Length {
        buf[i] := 0.0;
      }
      idx := 0;
      assert buf[..] == Zeros(buf.Length);
    }

    method Step(input: real, p: Params) returns (out: real)
      requires Valid()
      modifies this, buf
      ensures Valid() && Value() == AllpassStep(old(Value()), input, p) && out == AllpassOut(old(Value()), input, p)
    {
      var bufVal := buf[idx];
      ghost var a := Value();
      assert a.buf[a.idx] == bufVal;
      var fed := Feed(input, bufVal, p.allpassGain);
      assert AllpassStep(a, input, p) == Allpass(a.buf[a.idx := fed], (a.idx + 1) % |a.buf|);
      buf[idx] := fed;
      out := Feed(bufVal, -input, p.allpassGain);
      idx := (idx + 1) % buf.Length;
      assert buf[..] == a.buf[a.idx := fed];
    }
  }

  /** One stereo side. */
  class ReverbSide {
    const comb0: CombFilter
    const comb1: CombFilter
    const comb2: CombFilter
    const comb3: CombFilter
    const all0: AllpassFilter
    const all1: AllpassFilter

    ghost function CombObjects(): set<object> {
      {comb0, comb1, comb2, comb3, comb0.buf, comb1.buf, comb2.buf, comb3.buf}
    }

    ghost function AllObjects(): set<object> {
      {all0, all1, all0.buf, all1.buf}
    }

    ghost function Objects(): set<object> {
      CombObjects() + AllObjects()
    }

    ghost predicate Valid()
      reads Objects()
    {
      && comb0.Valid() && comb1.Valid() && comb2.Valid() && comb3.Valid() && all0.Valid() && all1.Valid()
      && comb0.buf.Length == COMB_LENGTHS[0] && comb1.buf.Length == COMB_LENGTHS[1]
      && comb2.buf.Length == COMB_LENGTHS[2] && comb3.buf.Length == COMB_LENGTHS[3]
      && all0.buf.Length == ALLPASS_LENGTHS[0] && all1.buf.Length == ALLPASS_LENGTHS[1]
      && comb0 !in {comb1, comb2, comb3} && comb1 !in {comb2, comb3} && comb2 != comb3 && all0 != all1
    }

    ghost function Value(): (s: Side)
      requires Valid()
      reads Objects()
      ensures s.Ok()
    {
      Side([comb0.Value(), comb1.Value(), comb2.Value(), comb3.Value()], [all0.Value(), all1.Value()])
    }

    /** Nothing of this side was touched. */
    twostate lemma Untouched()
      requires old(Valid()) && unchanged(Objects())
      ensures Valid() && Value() == old(Value())
    {
      hide CombFilter.Value, AllpassFilter.Value;
    }

    constructor ()
      ensures Valid() && fresh(Objects()) && Value() == Silent()
    {
      hide CombFilter.Value, AllpassFilter.Value, CombFilter.Valid, AllpassFilter.Valid, Zeros, Silent;
      SilentIs();
      comb0 := new CombFilter(COMB_LENGTHS[0]);
      comb1 := new CombFilter(COMB_LENGTHS[1]);
      comb2 := new CombFilter(COMB_LENGTHS[2]);
      comb3 := new CombFilter(COMB_LENGTHS[3]);
      all0 := new AllpassFilter(ALLPASS_LENGTHS[0]);
      all1 := new AllpassFilter(ALLPASS_LENGTHS[1]);
    }

    method Reset()
      requires Valid()
      modifies Objects()
      ensures Valid() && Value() == Silent()
    {
      hide CombFilter.Value, AllpassFilter.Value, CombFilter.Valid, AllpassFilter.Valid, Zeros, Silent;
      SilentIs();
      comb0.Reset();
      comb1.Reset();
      comb2.Reset();
      comb3.Reset();
      all0.Reset();
      all1.Reset();
    }

    /** One sample through the comb filters; the sum of what they put out. */
    method StepCombs(input: real, p: Params) returns (combSum: real)
      requires Valid()
      modifies CombObjects()
      ensures Valid() && combSum == CombSum(old(Value().combs), 4)
      ensures Value() == old(Value()).(combs := CombsStep(old(Value()).combs, input, p))
    {
      hide CombStep, CombOut, CombSum, AllpassFilter.Value, CombFilter.Value, CombFilter.Valid, AllpassFilter.Valid;
      SumOfFour(Value().combs);
      combSum := 0.0;
      var delayed := comb0.Step(input, p);
      combSum := combSum + delayed;
      delayed := comb1.Step(input, p);
      combSum := combSum + delayed;
      delayed := comb2.Step(input, p);
      combSum := combSum + delayed;
      delayed := comb3.Step(input, p);
      combSum := combSum + delayed;
    }

    /** One sample through both allpass filters. */
    method StepAlls(input: real, p: Params) returns (out: real)
      requires Valid()
      modifies AllObjects()
      ensures Valid() && out == Through(old(Value().alls), input, 2, p)
      ensures Value() == old(Value()).(alls := AllsStep(old(Value()).alls, input, p))
    {
      hide AllpassStep, AllpassOut, Through, CombFilter.Value, AllpassFilter.Value, CombFilter.Valid, AllpassFilter.Valid;
      ThroughTwo(Value().alls, input, p);
      out := all0.Step(input, p);
      out := all1.Step(out, p);
    }

    method Step(input: real, p: Params) returns (wet: real)
      requires Valid()
      modifies Objects()
      ensures Valid() && Value() == SideStep(old(Value()), input, p) && wet == Wet(old(Value()), p)
    {
      hide CombStep, AllpassStep, AllpassOut, CombSum, Through, CombsStep, AllsStep;
      var combSum := StepCombs(input, p);
      wet := StepAlls(combSum / 4.0, p);
    }
  }

  lemma SumOfFour(combs: seq<Comb>)
    requires |combs| == 4 && forall i :: 0 <= i < 4 ==> combs[i].Ok()
    ensures CombSum(combs, 4) == 0.0 + CombOut(combs[0]) + CombOut(combs[1]) + CombOut(combs[2]) + CombOut(combs[3])
  {
    hide CombOut;
    assert CombSum(combs, 1) == 0.0 + CombOut(combs[0]);
    assert CombSum(combs, 2) == 0.0 + CombOut(combs[0]) + CombOut(combs[1]);
  }

  lemma ThroughTwo(alls: seq<Allpass>, input: real, p: Params)
    requires |alls| == 2 && alls[0].Ok() && alls[1].Ok()
    ensures Through(alls, input, 0, p) == input && Through(alls, input, 1, p) == AllpassOut(alls[0], input, p)
    ensures Through(alls, input, 2, p) == AllpassOut(alls[1], Through(alls, input, 1, p), p)
  {
    hide AllpassOut;
  }

  lemma SilentIs()
    ensures Silent() ==
            Side([Comb(Zeros(COMB_LENGTHS[0]), 0, 0.0), Comb(Zeros(COMB_LENGTHS[1]), 0, 0.0),
                  Comb(Zeros(COMB_LENGTHS[2]), 0, 0.0), Comb(Zeros(COMB_LENGTHS[3]), 0, 0.0)],
                 [Allpass(Zeros(ALLPASS_LENGTHS[0]), 0), Allpass(Zeros(ALLPASS_LENGTHS[1]), 0)])
  {
    hide Zeros;
  }
}
