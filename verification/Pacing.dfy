/** The audio callback of njclient.cpp: cutting a call into blocks at interval boundaries, and
    pacing the frames of the playing video by the position in the interval. */
module IntervalClocks {
  const INT_MAX := 0x7fff_ffff

  /** Position in the interval, its length in samples, and the tempo announced and in use. */
  datatype Clock = Clock(
    pos: int, length: int, bpm: int, bpi: int, activeBpm: int, activeBpi: int,
    updated: bool, metronome: int)
  {
    predicate Ok() {
      && 1 <= length <= INT_MAX && -1 <= pos <= length
      && bpm > 0 && bpi > 0 && activeBpm > 0 && activeBpi > 0
    }
  }

  const START := Clock(-1, 1000, 120, 32, 120, 32, true, 0)

  /** Samples per interval as the code computes it from beats per minute and per interval. */
  function SamplesPerInterval(bpm: int, bpi: int, srate: int): real
    requires bpm > 0
  {
    bpi as real / (bpm as real * (1.0 / 60.0)) * srate as real
  }

  lemma TimesBpm(bpm: int, bpi: int, srate: int)
    requires bpm > 0
    ensures SamplesPerInterval(bpm, bpi, srate) * bpm as real == (60 * bpi * srate) as real
  {
    var b := bpm as real;
    var beats := bpi as real / (b * (1.0 / 60.0));
    assert beats * b == 60.0 * bpi as real;
    Swap3(beats, srate as real, b);
    assert (60 * bpi * srate) as real == (60 * bpi) as real * srate as real;
  }

  lemma Swap3(x: real, y: real, z: real)
    ensures x * y * z == x * z * y
  {
  }

  lemma Scaled(v: real, bpm: int, n: int, k: int)
    requires bpm > 0 && v * bpm as real == n as real
    ensures v >= k as real <==> n >= k * bpm
    ensures v <= k as real <==> n <= k * bpm
  {
    var b := bpm as real;
    assert (k * bpm) as real == k as real * b;
    assert (v - k as real) * b == n as real - (k * bpm) as real;
  }

  /** It is 60 * bpi * srate / bpm, cut to whole samples. */
  lemma SamplesExactly(bpm: int, bpi: int, srate: int)
    requires bpm > 0
    ensures var v := SamplesPerInterval(bpm, bpi, srate);
            && (v >= 1.0 <==> 60 * bpi * srate >= bpm)
            && (v <= INT_MAX as real <==> 60 * bpi * srate <= INT_MAX * bpm)
            && v.Floor * bpm <= 60 * bpi * srate < (v.Floor + 1) * bpm
  {
    hide SamplesPerInterval;
    var v, n := SamplesPerInterval(bpm, bpi, srate), 60 * bpi * srate;
    TimesBpm(bpm, bpi, srate);
    Scaled(v, bpm, n, 1);
    Scaled(v, bpm, n, INT_MAX);
    Scaled(v, bpm, n, v.Floor);
    Scaled(v, bpm, n, v.Floor + 1);
  }

  /** The clock at the start of a new interval. */
  function Renewed(c: Clock, srate: int): (r: Clock)
    requires c.Ok()
    ensures r.Ok() && r.pos == 0 && !r.updated
  {
    var v := SamplesPerInterval(c.bpm, c.bpi, srate);
    if !c.updated then c.(pos := 0)
    else if 1.0 <= v <= INT_MAX as real then
      c.(pos := 0, updated := false, length := v.Floor, activeBpm := c.bpm, activeBpi := c.bpi,
         metronome := (v.Floor as real / c.bpi as real).Floor)
    else c.(pos := 0, updated := false, bpm := c.activeBpm, bpi := c.activeBpi)
  }

  predicate AtBoundary(c: Clock) {
    c.pos == c.length || c.pos < 0
  }

  function Entered(c: Clock, srate: int): (r: Clock)
    requires c.Ok()
    ensures r.Ok() && 0 <= r.pos < r.length
  {
    if AtBoundary(c) then Renewed(c, srate) else c
  }

  /** One sample at a time: what the blocks must agree with. */
  function Ticked(c: Clock, srate: int): (r: Clock)
    requires c.Ok()
    ensures r.Ok() && r.pos > 0
  {
    var e := Entered(c, srate);
    e.(pos := e.pos + 1)
  }

  function Ticks(c: Clock, n: nat, srate: int): (r: Clock)
    requires c.Ok()
    ensures r.Ok()
  {
    if n == 0 then c else Ticked(Ticks(c, n - 1, srate), srate)
  }

  /** Cutting a stretch of samples into calls makes no difference. */
  lemma {:induction false} CallsCompose(c: Clock, a: nat, b: nat, srate: int)
    requires c.Ok()
    ensures Ticks(Ticks(c, a, srate), b, srate) == Ticks(c, a + b, srate)
  {
    hide Ticked;
    if b > 0 {
      CallsCompose(c, a, b - 1, srate);
    }
  }

  /** Within an interval the position only counts. */
  lemma {:induction false} Within(c: Clock, n: nat, srate: int)
    requires c.Ok() && 0 <= c.pos && c.pos + n <= c.length
    ensures Ticks(c, n, srate) == c.(pos := c.pos + n)
  {
    if n > 0 {
      Within(c, n - 1, srate);
    }
  }

  /** From a boundary, the interval entered lasts exactly its length: no boundary before. */
  lemma {:induction false} IntervalLasts(c: Clock, k: nat, srate: int)
    requires c.Ok() && AtBoundary(c)
    requires 1 <= k <= Renewed(c, srate).length
    ensures Ticks(c, k, srate) == Renewed(c, srate).(pos := k)
    ensures AtBoundary(Ticks(c, k, srate)) <==> k == Renewed(c, srate).length
  {
    hide Renewed;
    assert Ticks(c, 1, srate) == Ticked(Ticks(c, 0, srate), srate);
    Within(Ticks(c, 1, srate), k - 1, srate);
    CallsCompose(c, 1, k - 1, srate);
  }

  /** L is 60 * bpi * srate / bpm cut to whole samples: what a tempo stands for. */
  predicate LastsFor(length: int, bpm: int, bpi: int, srate: int) {
    length * bpm <= 60 * bpi * srate < (length + 1) * bpm
  }

  /** The tempo gives at least one sample and no more than an int holds. */
  predicate Fits(bpm: int, bpi: int, srate: int) {
    bpm <= 60 * bpi * srate <= 0x7fff_ffff * bpm
  }

  /** The first sample of an interval: a tempo announced since the last boundary is in use from
      here, with the length and the metronome it stands for, if that length fits. If not, or with
      nothing announced, nothing of them changes. */
  lemma TempoAtBoundary(c: Clock, srate: int)
    requires c.Ok() && AtBoundary(c)
    ensures var r := Ticks(c, 1, srate);
            && r.pos == 1 && !r.updated
            && (c.updated && Fits(c.bpm, c.bpi, srate) ==>
                  && LastsFor(r.length, c.bpm, c.bpi, srate)
                  && r.metronome * c.bpi <= r.length < (r.metronome + 1) * c.bpi
                  && r.activeBpm == r.bpm == c.bpm && r.activeBpi == r.bpi == c.bpi)
            && (!(c.updated && Fits(c.bpm, c.bpi, srate)) ==>
                  && r.length == c.length && r.metronome == c.metronome
                  && r.activeBpm == c.activeBpm && r.activeBpi == c.activeBpi
                  && r.bpm == (if c.updated then c.activeBpm else c.bpm) && r.bpi == if c.updated then c.activeBpi else c.bpi)
  {
    SamplesExactly(c.bpm, c.bpi, srate);
    hide SamplesPerInterval;
    FirstTick(c, srate);
    var v := SamplesPerInterval(c.bpm, c.bpi, srate);
    MetronomeExactly(v.Floor, c.bpi);
  }

  lemma FirstTick(c: Clock, srate: int)
    requires c.Ok() && AtBoundary(c)
    ensures Ticks(c, 1, srate) == Renewed(c, srate).(pos := 1)
  {
    hide Renewed;
    assert Ticks(c, 1, srate) == Ticked(Ticks(c, 0, srate), srate);
  }

  lemma MetronomeExactly(length: int, bpi: int)
    requires bpi > 0
    ensures var m := (length as real / bpi as real).Floor;
            m * bpi <= length < (m + 1) * bpi
  {
    var v := length as real / bpi as real;
    assert v * bpi as real == length as real;
    Scaled(v, bpi, length, v.Floor);
    Scaled(v, bpi, length, v.Floor + 1);
  }

  /** Samples left until the next boundary. */
  function UntilBoundary(c: Clock): nat
    requires c.Ok()
  {
    if c.pos < 0 then 0 else c.length - c.pos
  }

  /** A tempo announced at any moment leaves the interval under way as it is; the next one lasts
      exactly the samples the new tempo stands for, when they fit, and else as long as before. */
  lemma TempoLasts(c: Clock, bpm: int, bpi: int, srate: int, k: nat)
    requires c.Ok() && bpm > 0 && bpi > 0
    ensures var d, rest := c.(bpm := bpm, bpi := bpi, updated := true), UntilBoundary(c);
            var length := Ticks(d, rest + 1, srate).length;
            && AtBoundary(Ticks(d, rest, srate)) && (k < rest ==> !AtBoundary(Ticks(d, k, srate)))
            && (if Fits(bpm, bpi, srate) then LastsFor(length, bpm, bpi, srate) else length == c.length)
            && (1 <= k <= length ==> (AtBoundary(Ticks(d, rest + k, srate)) <==> k == length))
  {
    hide Ticks, Renewed, SamplesPerInterval;
    var d, rest := c.(bpm := bpm, bpi := bpi, updated := true), UntilBoundary(c);
    TicksZero(d, srate);
    if c.pos >= 0 {
      Within(d, rest, srate);
      if k < rest {
        Within(d, k, srate);
      }
    }
    var e := Ticks(d, rest, srate);
    CallsCompose(d, rest, 1, srate);
    TempoAtBoundary(e, srate);
    FirstTick(e, srate);
    if 1 <= k <= Renewed(e, srate).length {
      IntervalLasts(e, k, srate);
      CallsCompose(d, rest, k, srate);
    }
  }

  /** A new clock: its first interval is 16 seconds long, 32 beats at 120 a minute. */
  lemma FirstInterval(srate: int)
    requires 0 < srate && 16 * srate <= 0x7fff_ffff
    ensures START.Ok() && AtBoundary(START) && Ticks(START, 1, srate).length == 16 * srate
  {
    TempoAtBoundary(START, srate);
  }

  /** A part of one call: where it starts in the call, its size, where it starts in its
      interval, that interval's length, and whether the interval starts with it. */
  datatype Block = Block(offs: nat, size: nat, pos: int, length: int, first: bool)

  /** The blocks follow each other from `from` to `to`. */
  predicate Tile(blocks: seq<Block>, from: nat, to: nat) {
    && (blocks == [] ==> from == to)
    && (blocks != [] ==> blocks[0].offs == from && blocks[|blocks| - 1].offs + blocks[|blocks| - 1].size == to)
    && (forall i :: 0 <= i < |blocks| - 1 ==> blocks[i].offs + blocks[i].size == blocks[i + 1].offs)
  }

  /** The block stays inside one interval, the one the sample clock is in there. */
  predicate Honest(b: Block, c: Clock, srate: int)
    requires c.Ok()
  {
    var e := Entered(Ticks(c, b.offs, srate), srate);
    && b.size > 0 && b.first == AtBoundary(Ticks(c, b.offs, srate))
    && b.pos == e.pos && b.length == e.length && b.pos + b.size <= b.length
  }

  class IntervalClock {
    var intervalPos: int
    var intervalLength: int
    var bpm: int
    var bpi: int
    var activeBpm: int
    var activeBpi: int
    var beatinfoUpdated: bool
    var metronomeInterval: int

    ghost function Value(): Clock
      reads this
    {
      Clock(intervalPos, intervalLength, bpm, bpi, activeBpm, activeBpi, beatinfoUpdated, metronomeInterval)
    }

    constructor ()
      ensures Value() == START && Value().Ok()
    {
      intervalPos, intervalLength, bpm, bpi, activeBpm, activeBpi := -1, 1000, 120, 32, 120, 32;
      beatinfoUpdated, metronomeInterval := true, 0;
    }

    /** New beat info from the server; nonsense is ignored. */
    method UpdateBpmInfo(newBpm: int, newBpi: int)
      requires Value().Ok()
      modifies this
      ensures Value().Ok()
      ensures Value() == if newBpm <= 0 || newBpi <= 0 then old(Value()) else old(Value()).(bpm := newBpm, bpi := newBpi, updated := true)
    {
      if newBpm <= 0 || newBpi <= 0 {
        return;
      }
      bpm, bpi, beatinfoUpdated := newBpm, newBpi, true;
    }

    static method IntervalSamples(bpm: int, bpi: int, srate: int) returns (v: real)
      requires bpm > 0
      ensures v == SamplesPerInterval(bpm, bpi, srate)
    {
      v := bpm as real * (1.0 / 60.0); // beats per second
      v := bpi as real / v;
      v := v * srate as real;
    }

    method NewInterval(srate: int)
      requires Value().Ok()
      modifies this
      ensures Value() == Renewed(old(Value()), srate)
      ensures var c := old(Value());
              if c.updated && Fits(c.bpm, c.bpi, srate) then
                LastsFor(intervalLength, c.bpm, c.bpi, srate) && activeBpm == c.bpm && activeBpi == c.bpi
              else intervalLength == c.length && activeBpm == c.activeBpm && activeBpi == c.activeBpi
    {
      SamplesExactly(bpm, bpi, srate);
      hide SamplesPerInterval;
      if beatinfoUpdated {
        var v := IntervalSamples(bpm, bpi, srate);
        beatinfoUpdated := false;
        if v >= 1.0 && v <= INT_MAX as real {
          intervalLength := v.Floor;
          activeBpm, activeBpi := bpm, bpi;
          metronomeInterval := (intervalLength as real / activeBpi as real).Floor;
        } else {
          bpm, bpi := activeBpm, activeBpi;
        }
      }
      intervalPos := 0;
    }

    /** One audio callback: the clock ends where counting samples one by one would leave it, and
        the blocks tile the call without crossing an interval boundary. */
    method AudioProc(n: nat, srate: int) returns (blocks: seq<Block>)
      requires Value().Ok()
      modifies this
      ensures Value() == Ticks(old(Value()), n, srate)
      ensures Tile(blocks, 0, n) && forall i :: 0 <= i < |blocks| ==> Honest(blocks[i], old(Value()), srate)
    {
      hide Ticks, Renewed, Honest;
      blocks := [];
      var offs, len := 0, n;
      ghost var c := Value();
      TicksZero(c, srate);
      while len > 0
        invariant 0 <= offs && 0 <= len && offs + len == n && Value().Ok() && Value() == Ticks(c, offs, srate)
        invariant Tile(blocks, 0, offs) && forall i :: 0 <= i < |blocks| ==> Honest(blocks[i], c, srate)
      {
        ghost var before := Value();
        var x := intervalLength - intervalPos;
        var first := x == 0 || intervalPos < 0;
        if first {
          NewInterval(srate);
          x := intervalLength;
        }
        assert Value() == Entered(before, srate);
        if x > len {
          x := len;
        }
        var b := Block(offs, x, intervalPos, intervalLength, first);
        intervalPos := intervalPos + x;
        BlockTicks(c, before, b, srate);
        blocks := blocks + [b];
        offs, len := offs + x, len - x;
      }
    }
  }

  lemma TicksZero(c: Clock, srate: int)
    requires c.Ok()
    ensures Ticks(c, 0, srate) == c
  {
  }

  lemma BlockTicks(c: Clock, before: Clock, b: Block, srate: int)
    requires c.Ok() && before == Ticks(c, b.offs, srate) && b.size > 0 && b.first == AtBoundary(before)
    requires b.pos == Entered(before, srate).pos && b.length == Entered(before, srate).length && b.pos + b.size <= b.length
    ensures Honest(b, c, srate)
    ensures Ticks(c, b.offs + b.size, srate) == Entered(before, srate).(pos := b.pos + b.size)
  {
    hide Renewed;
    CallsCompose(c, b.offs, b.size, srate);
    if AtBoundary(before) {
      IntervalLasts(before, b.size, srate);
    } else {
      Within(before, b.size, srate);
    }
  }
}
