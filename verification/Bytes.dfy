/** Bytes and fixed-width integers as the C++ code sees them. */
module Bytes {
  type Byte = x: int | 0 <= x < 256

  const TWO_31 := 0x8000_0000
  const TWO_32 := 0x1_0000_0000

  /** What a store to an unsigned char keeps. */
  function ToByte(x: int): Byte {
    x % 256
  }

  /** The value of a 32-bit pattern read as a signed int. */
  function ToInt32(x: int): (r: int)
    ensures -TWO_31 <= r < TWO_31
  {
    var m := x % TWO_32;
    if m < TWO_31 then m else m - TWO_32
  }
}

/** The few facts about division the solver does not find on its own. */
module Division {
  lemma Unique(a: int, m: int, q: int, r: int)
    requires 0 <= r < m && a == q * m + r
    ensures a / m == q && a % m == r
  {
    var d := q - a / m;
    assert d * m == a % m - r;
    if d > 0 {
      AtLeast(d, m);
    } else if d < 0 {
      AtLeast(-d, m);
    }
  }

  lemma AtLeast(k: int, m: int)
    requires k >= 1 && m >= 0
    ensures k * m >= m
  {
  }

  /** Adding a multiple of the modulus changes nothing. */
  lemma Shift(a: int, h: int, m: int)
    requires m > 0
    ensures (a + h * m) % m == a % m
  {
    Unique(a + h * m, m, a / m + h, a % m) by {
      assert a == (a / m) * m + a % m;
      assert (a / m + h) * m == (a / m) * m + h * m;
    }
  }
}
