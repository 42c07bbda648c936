/** The counter that drives the random number generator (WDL/rng.cpp).

    A state byte is advanced only when every byte below it held a non-zero value, so the step
    is not an ordinary carry: byte k moves 255^k times while the bytes below it go once
    around.  255^k is odd, which is why the state still visits every value. */
module RngCounter {
  import opened Bytes
  import Division

  /** The state after one step: byte 0 advances, and byte k + 1 advances with byte k unless
      byte k was zero. */
  function Cycle(s: seq<Byte>): (r: seq<Byte>)
    ensures |r| == |s|
  {
    if s == [] then []
    else if s[0] == 0 then [1] + s[1..]
    else [ToByte(s[0] as int + 1)] + Cycle(s[1..])
  }

  function Iterate(k: nat, s: seq<Byte>): (r: seq<Byte>)
    ensures |r| == |s|
  {
    if k == 0 then s else Cycle(Iterate(k - 1, s))
  }

  function Pow(b: nat, e: nat): nat {
    if e == 0 then 1 else b * Pow(b, e - 1)
  }

  /** The number of states of n bytes. */
  function States(n: nat): (p: nat)
    ensures p > 0
  {
    if n == 0 then 1 else 256 * States(n - 1)
  }

  predicate AllNonZero(s: seq<Byte>) {
    forall i :: 0 <= i < |s| ==> s[i] != 0
  }

  /** How many of the first k steps started from a state with no zero byte: exactly the
      steps that advance a byte placed above this state. */
  function Carries(k: nat, s: seq<Byte>): nat {
    if k == 0 then 0
    else Carries(k - 1, s) + if AllNonZero(Iterate(k - 1, s)) then 1 else 0
  }

  /** The byte b after a advances. */
  function Advanced(b: Byte, a: nat): Byte {
    ToByte(b as int + a)
  }

  // ----- the top byte -----

  lemma {:induction false} CycleTop(low: seq<Byte>, b: Byte)
    ensures Cycle(low + [b]) == Cycle(low) + [if AllNonZero(low) then Advanced(b, 1) else b]
  {
    if low == [] {
      assert low + [b] == [b];
    } else {
      assert (low + [b])[1..] == low[1..] + [b];
      assert AllNonZero(low) <==> low[0] != 0 && AllNonZero(low[1..]);
      if low[0] != 0 {
        CycleTop(low[1..], b);
      }
    }
  }

  lemma AdvanceOnce(b: Byte, a: nat)
    ensures Advanced(Advanced(b, a), 1) == Advanced(b, a + 1)
  {
  }

  /** After k steps the top byte has moved by the number of carries below it. */
  lemma {:induction false} IterateTop(k: nat, low: seq<Byte>, b: Byte)
    ensures Iterate(k, low + [b]) == Iterate(k, low) + [Advanced(b, Carries(k, low))]
  {
    if k > 0 {
      IterateTop(k - 1, low, b);
      CycleTop(Iterate(k - 1, low), Advanced(b, Carries(k - 1, low)));
      AdvanceOnce(b, Carries(k - 1, low));
    }
  }

  lemma {:induction false} IterateAdd(j: nat, k: nat, s: seq<Byte>)
    ensures Iterate(j + k, s) == Iterate(j, Iterate(k, s))
  {
    if j > 0 {
      IterateAdd(j - 1, k, s);
    }
  }

  lemma {:induction false} CarriesAdd(j: nat, k: nat, s: seq<Byte>)
    ensures Carries(j + k, s) == Carries(k, s) + Carries(j, Iterate(k, s))
  {
    hide AllNonZero;
    if j > 0 {
      CarriesAdd(j - 1, k, s);
      IterateAdd(j - 1, k, s);
    }
  }

  // ----- one period -----

  /** How often a byte that starts at b and advances a times is advanced from zero. */
  function Zeros(b: Byte, a: nat): int {
    (b as int + a + 255) / 256 - (b as int + 255) / 256
  }

  lemma ZerosStep(b: Byte, a: nat)
    ensures Zeros(b, a + 1) == Zeros(b, a) + if Advanced(b, a) == 0 then 1 else 0
  {
  }

  lemma AllNonZeroTop(low: seq<Byte>, b: Byte)
    ensures AllNonZero(low + [b]) <==> AllNonZero(low) && b != 0
  {
    assert forall i :: 0 <= i < |low| ==> (low + [b])[i] == low[i];
    assert (low + [b])[|low|] == b;
  }

  /** A state with one more byte carries whenever the lower bytes do, except when its own
      byte is zero. */
  lemma {:induction false} CarriesTop(k: nat, low: seq<Byte>, b: Byte)
    ensures Carries(k, low + [b]) == Carries(k, low) - Zeros(b, Carries(k, low))
  {
    if k > 0 {
      CarriesTop(k - 1, low, b);
      IterateTop(k - 1, low, b);
      AllNonZeroTop(Iterate(k - 1, low), Advanced(b, Carries(k - 1, low)));
      ZerosStep(b, Carries(k - 1, low));
    }
  }

  lemma {:induction false} PeriodMultiple(n: nat, q: nat, s: seq<Byte>)
    requires |s| == n
    ensures q * States(n) >= 0
    ensures Iterate(q * States(n), s) == s
    ensures Carries(q * States(n), s) == q * Pow(255, n)
    decreases n, q + 1
  {
    if q == 0 {
      assert q * States(n) == 0;
    } else {
      Period(n, s);
      PeriodMultiple(n, q - 1, s);
      var p := States(n);
      assert q * p == p + (q - 1) * p;
      assert q * Pow(255, n) == Pow(255, n) + (q - 1) * Pow(255, n);
      IterateAdd(p, (q - 1) * p, s);
      CarriesAdd(p, (q - 1) * p, s);
    }
  }

  lemma FullTurns(b: Byte, c: nat)
    ensures Zeros(b, 256 * c) == c && Advanced(b, 256 * c) == b
  {
    Division.Unique(b as int + 256 * c, 256, c, b);
  }

  /** Every n-byte state returns after 256^n steps, and 255^n of them carried. */
  lemma {:induction false} Period(n: nat, s: seq<Byte>)
    requires |s| == n
    ensures Iterate(States(n), s) == s
    ensures Carries(States(n), s) == Pow(255, n)
    decreases n, 0
  {
    if n == 0 {
      assert s == [] && Iterate(1, s) == Cycle(Iterate(0, s));
      assert Carries(1, s) == Carries(0, s) + 1;
    } else {
      var low, b := s[..n - 1], s[n - 1];
      assert s == low + [b];
      PeriodMultiple(n - 1, 256, low);
      IterateTop(States(n), low, b);
      CarriesTop(States(n), low, b);
      FullTurns(b, Pow(255, n - 1));
    }
  }

  // ----- one single orbit -----

  /** 255^n is 1 or -1 modulo 256, hence its own inverse. */
  lemma {:induction false} PowUnit(n: nat) returns (e: int, h: int)
    ensures (e == 1 || e == -1) && Pow(255, n) == 256 * h + e
  {
    if n == 0 {
      e, h := 1, 0;
    } else {
      var e', h' := PowUnit(n - 1);
      e, h := -e', 255 * h' + e';
    }
  }

  /** Some number of whole turns below, under 256, moves the byte from b to t. */
  lemma TurnsToReach(n: nat, b: Byte, t: Byte) returns (q: nat)
    ensures q < 256 && q * Pow(255, n) >= 0
    ensures Advanced(b, q * Pow(255, n)) == t
  {
    var e, h := PowUnit(n);
    var d := t as int - b as int;
    q := (e * d) % 256;
    var g := (e * d) / 256;
    assert q * e == d - 256 * (g * e) by {
      assert q == e * d - 256 * g;
      if e == -1 {
        assert e * d == -d;
      }
    }
    TurnsSum(q, Pow(255, n), h, e, g, d);
    Division.Shift(t, q * h - g * e, 256);
  }

  lemma TurnsSum(q: nat, u: nat, h: int, e: int, g: int, d: int)
    requires u == 256 * h + e && q * e == d - 256 * (g * e)
    ensures q * u >= 0 && q * u == d + (q * h - g * e) * 256
  {
    assert q * u == 256 * (q * h) + q * e;
  }

  lemma AdvanceAdd(b: Byte, x: nat, y: nat)
    ensures Advanced(b, x + y) == Advanced(Advanced(b, x), y)
  {
  }

  /** From any state every other state of the same size is reached within 256^n steps. */
  lemma {:induction false} Reaches(s: seq<Byte>, t: seq<Byte>) returns (k: nat)
    requires |s| == |t|
    ensures k < States(|s|) && Iterate(k, s) == t
  {
    var n := |s|;
    if n == 0 {
      k := 0;
    } else {
      var low, b := s[..n - 1], s[n - 1];
      assert s == low + [b];
      var tlow, tb := t[..n - 1], t[n - 1];
      assert t == tlow + [tb];
      var k0 := Reaches(low, tlow);
      var q := TurnsToReach(n - 1, Advanced(b, Carries(k0, low)), tb);
      k := k0 + q * States(n - 1);
      AfterTurns(low, b, k0, q);
      AtMost(q, 255, States(n - 1));
    }
  }

  /** Whole turns of the lower bytes only move the top byte. */
  lemma AfterTurns(low: seq<Byte>, b: Byte, k0: nat, q: nat)
    ensures q * States(|low|) >= 0 && q * Pow(255, |low|) >= 0
    ensures Iterate(k0 + q * States(|low|), low + [b]) ==
            Iterate(k0, low) + [Advanced(Advanced(b, Carries(k0, low)), q * Pow(255, |low|))]
  {
    hide Iterate, Carries, Advanced, States, Pow;
    var t := q * States(|low|);
    PeriodMultiple(|low|, q, low);
    IterateAdd(k0, t, low);
    CarriesAdd(k0, t, low);
    IterateTop(k0 + t, low, b);
    AdvanceAdd(b, Carries(k0, low), q * Pow(255, |low|));
  }

  lemma AtMost(q: nat, m: nat, p: nat)
    requires q <= m
    ensures q * p <= m * p
  {
  }

  lemma IdleTurns(n: nat, q: nat, b: Byte)
    requires q * Pow(255, n) >= 0 && Advanced(b, q * Pow(255, n)) == b
    ensures q % 256 == 0
  {
    var e, h := PowUnit(n);
    var m := q * Pow(255, n);
    var g := (b as int + m) / 256;
    assert m == 256 * g;
    IdleSum(q, Pow(255, n), h, e, g);
  }

  lemma IdleSum(q: nat, u: nat, h: int, e: int, g: int)
    requires u == 256 * h + e && (e == 1 || e == -1) && q * u == 256 * g
    ensures q % 256 == 0
  {
    var p := q * h;
    Spread(q, h, e);
    assert q * e == 256 * g - 256 * p;
    MultipleOf256(q, if e == 1 then g - p else p - g);
  }

  lemma Spread(q: int, h: int, e: int)
    requires e == 1 || e == -1
    ensures q * (256 * h + e) == 256 * (q * h) + q * e && q * e == if e == 1 then q else -q
  {
  }

  lemma MultipleOf256(q: nat, k: int)
    requires q == 256 * k
    ensures q % 256 == 0
  {
  }

  /** A state comes back only after a whole number of periods. */
  lemma {:induction false} ReturnsAfterPeriods(k: nat, s: seq<Byte>) returns (q: nat)
    requires Iterate(k, s) == s
    ensures k == q * States(|s|)
  {
    var n := |s|;
    if n == 0 {
      q := k;
    } else {
      var low, b := s[..n - 1], s[n - 1];
      assert s == low + [b];
      IterateTop(k, low, b);
      assert Iterate(k, s)[..n - 1] == Iterate(k, low);
      var turns := ReturnsAfterPeriods(k, low);
      PeriodMultiple(n - 1, turns, low);
      assert Iterate(k, s)[n - 1] == b;
      IdleTurns(n - 1, turns, b);
      q := turns / 256;
      Reassociate(q, States(n - 1));
    }
  }

  lemma Reassociate(q: nat, p: nat)
    ensures (q * 256) * p == q * (256 * p)
  {
  }

  /** A state comes back after k steps exactly when k is a multiple of 256^n. */
  lemma ReturnsOnlyAfterPeriod(k: nat, s: seq<Byte>)
    ensures Iterate(k, s) == s <==> exists q: nat :: k == q * States(|s|)
  {
    if q: nat :| k == q * States(|s|) {
      PeriodMultiple(|s|, q, s);
    }
    if Iterate(k, s) == s {
      var q := ReturnsAfterPeriods(k, s);
    }
  }

  /** The step is a bijection on n-byte states: it is one-to-one, and going 256^n - 1 steps
      further undoes it. */
  lemma CycleIsBijective(s: seq<Byte>, t: seq<Byte>)
    requires |s| == |t|
    ensures Cycle(s) == Cycle(t) ==> s == t
    ensures Cycle(Iterate(States(|t|) - 1, t)) == t
  {
    var p := States(|s|);
    Period(|s|, s);
    Period(|s|, t);
    IterateAdd(p - 1, 1, s);
    IterateAdd(p - 1, 1, t);
    assert Iterate(1, s) == Cycle(Iterate(0, s)) && Iterate(1, t) == Cycle(Iterate(0, t));
  }

  /** No state repeats inside a period. */
  lemma NoRepeat(i: nat, j: nat, s: seq<Byte>)
    requires i < j < i + States(|s|)
    ensures Iterate(i, s) != Iterate(j, s)
  {
    var t := Iterate(i, s);
    IterateAdd(j - i, i, s);
    if Iterate(j - i, t) == t {
      var q := ReturnsAfterPeriods(j - i, t);
      assert q >= 1;
      Division.AtLeast(q, States(|s|));
    }
  }
}

/** The generator itself: a 32-byte state, hashed block by block (WDL/rng.cpp). */
module RandomGenerator {
  import opened Bytes
  import opened Sha1Standard
  import opened Sha1Stream
  import opened RngCounter

  const STATE_SIZE := 32
  const HASH_SIZE := 20

  /** What n bytes drawn from state s are: hashes of successive states, the last one cut. */
  function Drawn(s: seq<Byte>, n: nat): (r: seq<Byte>)
    requires |s| == STATE_SIZE
    ensures |r| == n
    decreases n
  {
    if n == 0 then []
    else if n <= HASH_SIZE then Sha1(s)[..n]
    else Sha1(s) + Drawn(Cycle(s), n - HASH_SIZE)
  }

  lemma DrawnNone(s: seq<Byte>)
    requires |s| == STATE_SIZE
    ensures Drawn(s, 0) == []
  {
  }

  lemma DrawnStep(s: seq<Byte>, n: nat)
    requires |s| == STATE_SIZE && n > 0
    ensures var l := if n < HASH_SIZE then n else HASH_SIZE;
            l <= |Sha1(s)| && Drawn(s, n) == Sha1(s)[..l] + Drawn(Cycle(s), n - l)
  {
    hide HashBlocks, Padded, Cycle, WordBytes;
    if n <= HASH_SIZE {
      DrawnNone(Cycle(s));
    } else {
      assert Sha1(s)[..HASH_SIZE] == Sha1(s);
    }
  }

  /** Byte i of what is drawn is byte i % 20 of the hash of the state i / 20 steps on. */
  lemma {:induction false} ByteDrawn(s: seq<Byte>, n: nat, i: nat)
    requires |s| == 32 && i < n
    ensures |Sha1(Iterate(i / 20, s))| == 20 && Drawn(s, n)[i] == Sha1(Iterate(i / 20, s))[i % 20]
    decreases n
  {
    hide HashBlocks, Padded, Cycle, WordBytes, Iterate, Drawn;
    var k := i / 20;
    DrawnStep(s, n);
    if i < 20 {
      IterateNone(s);
    } else {
      ByteDrawn(Cycle(s), n - 20, i - 20);
      assert (i - 20) / 20 == k - 1 && (i - 20) % 20 == i % 20;
      IterateNone(s);
      IterateOnce(0, s);
      IterateAdd(k - 1, 1, s);
    }
  }

  lemma IterateNone(s: seq<Byte>)
    ensures Iterate(0, s) == s
  {
  }

  lemma IterateOnce(k: nat, s: seq<Byte>)
    ensures Iterate(k + 1, s) == Cycle(Iterate(k, s))
  {
  }

  /** Cycle by position: every byte before the first zero moves, and so does that zero. */
  lemma {:induction false} CycleByIndex(s: seq<Byte>, t: seq<Byte>, i: nat)
    requires |s| == |t| && i <= |s|
    requires forall k :: 0 <= k < i ==> s[k] != 0 && t[k] == ToByte(s[k] as int + 1)
    requires i < |s| ==> s[i] == 0 && t[i] == 1
    requires forall k :: i < k < |s| ==> t[k] == s[k]
    ensures t == Cycle(s)
  {
    if i < |s| && i == 0 {
      assert t == [1] + s[1..];
    } else if s != [] {
      CycleByIndex(s[1..], t[1..], i - 1);
      assert t == [t[0]] + t[1..];
    }
  }

  class Generator {
    const state: array<Byte>

    predicate Valid() {
      state.Length == STATE_SIZE
    }

    constructor ()
      ensures Valid() && fresh(state) && forall k :: 0 <= k < STATE_SIZE ==> state[k] == 0
    {
      state := new Byte[STATE_SIZE](_ => 0);
    }

    method RngCycle()
      requires Valid()
      modifies state
      ensures state[..] == Cycle(old(state[..]))
    {
      ghost var s := state[..];
      var i := 0;
      while i < STATE_SIZE
        invariant 0 <= i <= STATE_SIZE
        invariant forall k :: 0 <= k < i ==> s[k] != 0 && state[k] == ToByte(s[k] as int + 1)
        invariant forall k :: i <= k < STATE_SIZE ==> state[k] == s[k]
      {
        var was := state[i];
        state[i] := ToByte(was as int + 1);
        if was == 0 {
          break;
        }
        i := i + 1;
      }
      CycleByIndex(s, state[..], i);
    }

    method Bytes(buflen: nat) returns (buf: seq<Byte>)
      requires Valid()
      modifies state
      ensures buf == Drawn(old(state[..]), buflen)
      ensures state[..] == Iterate((buflen + 19) / 20, old(state[..]))
    {
      hide Drawn, Iterate, Sha1, Cycle;
      buf := [];
      var left := buflen;
      ghost var k, start := 0, state[..];
      assert state[..] == Iterate(0, start) by { IterateNone(start); }
      while left > 0
        invariant 0 <= left <= buflen
        invariant if left > 0 then left == buflen - 20 * k else k == (buflen + 19) / 20
        invariant state[..] == Iterate(k, start)
        invariant Drawn(start, buflen) == buf + Drawn(state[..], left)
        decreases left
      {
        DrawnStep(state[..], left);
        IterateOnce(k, start);
        var tb := HashState();
        RngCycle();
        var l := if left < HASH_SIZE then left else HASH_SIZE;
        buf := buf + tb[..l];
        left, k := left - l, k + 1;
      }
      DrawnNone(state[..]);
    }

    method HashState() returns (tb: seq<Byte>)
      requires Valid()
      ensures tb == Sha1(state[..]) && |tb| == HASH_SIZE
    {
      tb := HashOf(state[..]);
    }

    /** Stirs a buffer in: the front of the new state comes from the old one, the rest from
        the buffer. */
    method AddEntropy(buf: seq<Byte>)
      requires Valid() && 8 * |buf| < TWO_32 * TWO_32
      modifies state
      ensures state[..] == Sha1(old(state[..]))[..12] + Sha1(buf)
    {
      hide Sha1;
      var front := HashOf(state[..]);
      var back := HashOf(buf);
      forall i | 0 <= i < STATE_SIZE {
        state[i] := if i < 12 then front[i] else back[i - 12];
      }
    }
  }

  method HashOf(data: seq<Byte>) returns (h: seq<Byte>)
    requires 8 * |data| < TWO_32 * TWO_32
    ensures h == Sha1(data) && |h| == HASH_SIZE
  {
    hide Sha1, WdlSha1.Valid;
    var sha := new WdlSha1();
    sha.Add(data);
    assert sha.fed == data;
    var out := new Byte[HASH_SIZE](_ => 0);
    sha.Result(out);
    h := out[..];
    assert out[..20] == h;
  }

  lemma {:induction false} StatesAreBits(n: nat)
    ensures States(n) == Pow(2, 8 * n)
  {
    if n > 0 {
      StatesAreBits(n - 1);
      var e := 8 * (n - 1);
      assert Pow(2, e + 8) == 2 * Pow(2, e + 7) == 4 * Pow(2, e + 6) == 8 * Pow(2, e + 5) == 16 * Pow(2, e + 4);
      assert Pow(2, e + 4) == 2 * Pow(2, e + 3) == 4 * Pow(2, e + 2) == 8 * Pow(2, e + 1) == 16 * Pow(2, e);
    }
  }

  /** While no entropy is added, no two of the first 2^256 blocks hash the same state; the
      next one is where the sequence starts again. */
  lemma BlocksNeverRepeat(s: seq<Byte>, i: nat, j: nat)
    requires |s| == STATE_SIZE
    requires i < j < Pow(2, 256)
    ensures Iterate(i, s) != Iterate(j, s)
    ensures Iterate(Pow(2, 256), s) == s
  {
    hide States, Iterate, Pow;
    StatesAreBits(32);
    Period(32, s);
    NoRepeat(i, j, s);
  }
}
