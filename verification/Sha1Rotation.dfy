/** The rotation of SHA-1 as arithmetic. */
module Sha1Rotation {
  import opened Bytes
  import Division
  import opened Sha1Standard

  function Power2(n: nat): (r: nat)
    ensures r > 0
  {
    if n == 0 then 1 else 2 * Power2(n - 1)
  }

  lemma RotateOneMore(x: Word, n: Word)
    requires n < 31
    ensures Rotl(x, n + 1) == Rotl(Rotl(x, n), 1)
  {
    RotateOneMoreBits(x, n);
    RotlBits(x, n);
    RotlBits(x, n + 1);
    RotateOneBits((x << n) | (x >> (32 - n)));
    hide Rotl;
  }

  lemma RotlBits(x: Word, n: Word)
    requires n < 32
    ensures Rotl(x, n) == (x << n) | (x >> (32 - n))
  {
  }

  lemma RotateOneMoreBits(x: Word, n: Word)
    requires n < 31
    ensures (x << (n + 1)) | (x >> (32 - (n + 1))) == (((x << n) | (x >> (32 - n))) << 1) | (((x << n) | (x >> (32 - n))) >> 31)
  {
  }

  lemma RotateOne(x: Word)
    ensures Rotl(x, 1) as int == (x as int * 2) % 0x1_0000_0000 + (x as int * 2) / 0x1_0000_0000
  {
    RotateOneBits(x);
    RotateOneNumber(x);
    hide Rotl;
  }

  lemma RotateOneBits(x: Word)
    ensures Rotl(x, 1) == (x << 1) | (x >> 31)
  {
  }

  lemma RotateOneNumber(x: Word)
    ensures ((x << 1) | (x >> 31)) as int == (x as int * 2) % 0x1_0000_0000 + (x as int * 2) / 0x1_0000_0000
  {
  }

  lemma OneLess(n: Word)
    requires 0 < n < 32
    ensures (n - 1) as nat + 1 == n as nat
  {
  }

  lemma RotateNone(x: Word)
    ensures Rotl(x, 0) == x
  {
  }

  lemma {:induction false} PowerSum(a: nat, b: nat)
    ensures Power2(a + b) == Power2(a) * Power2(b)
  {
    if a > 0 {
      PowerSum(a - 1, b);
      assert Power2(a + b) == 2 * (Power2(a - 1) * Power2(b));
    }
  }

  lemma Power32()
    ensures Power2(32) == TWO_32
  {
    assert Power2(8) == 256;
    PowerSum(8, 8);
    PowerSum(16, 16);
  }

  lemma PowerStep(k: nat)
    requires k > 0
    ensures Power2(k) == 2 * Power2(k - 1)
  {
  }

  lemma Less(a: int, b: int, c: nat)
    requires a * c < b * c
    ensures a < b
  {
    if a >= b {
      NotLess(a, b, c);
    }
  }

  lemma NotLess(a: int, b: int, c: nat)
    requires a >= b
    ensures a * c >= b * c
  {
  }

  /** What is left of a product below 2^32, doubled and wrapped, has room for twice the carry. */
  lemma Room(x: nat, p: nat, d: nat, q: nat, s: nat, c: nat)
    requires x < TWO_32 && 2 * p * d == TWO_32 && 2 * (x * p) == (2 * q + c) * TWO_32 + s && s < TWO_32
    ensures s + 2 * q < TWO_32
  {
    var k := x - (2 * q + c) * d;
    Spread(x, p, d, 2 * q + c);
    assert s == k * (2 * p);
    Less(k, d, 2 * p);
    Division.AtLeast(d - k, 2 * p);
    assert (d - k) * (2 * p) == TWO_32 - s;
    CarryBelow(x, p, q);
  }

  lemma Spread(x: int, p: int, d: int, e: int)
    ensures (x - e * d) * (2 * p) == 2 * (x * p) - e * (2 * p * d)
  {
  }

  lemma CarryBelow(x: nat, p: nat, q: nat)
    requires x < TWO_32 && q * TWO_32 <= x * p && p > 0
    ensures q < p
  {
    Division.AtLeast(TWO_32 - x, p);
    assert TWO_32 * p - x * p == (TWO_32 - x) * p;
    Less(q, p, TWO_32);
  }

  /** One more doubling, of the rotated number and of the product. */
  lemma DoubleRotated(x: nat, p: nat, d: nat)
    requires x < TWO_32 && p > 0 && 2 * p * d == TWO_32
    ensures var y := x * p % TWO_32 + x * p / TWO_32;
            2 * y % TWO_32 + 2 * y / TWO_32 == x * (2 * p) % TWO_32 + x * (2 * p) / TWO_32
  {
    var a := x * p;
    var q, r := a / TWO_32, a % TWO_32;
    var c := if 2 * r >= TWO_32 then 1 else 0;
    var s := 2 * r - c * TWO_32;
    assert x * (2 * p) == 2 * a;
    Division.Unique(2 * a, TWO_32, 2 * q + c, s);
    Room(x, p, d, q, s, c);
    Division.Unique(2 * (q + r), TWO_32, c, s + 2 * q);
  }

  /** y is x times 2^k, what runs over 2^32 added in again at the bottom. */
  ghost predicate Rotated(x: nat, k: nat, y: nat) {
    y == x * Power2(k) % TWO_32 + x * Power2(k) / TWO_32
  }

  lemma OneFurther(x: nat, k: nat, y: nat, z: nat)
    requires x < TWO_32 && 0 < k <= 32 && Rotated(x, k - 1, y) && z == (y * 2) % TWO_32 + (y * 2) / TWO_32
    ensures Rotated(x, k, z)
  {
    hide Power2;
    Power32();
    PowerSum(k, 32 - k);
    PowerStep(k);
    DoubleRotated(x, Power2(k - 1), Power2(32 - k));
  }

  lemma NotRotated(x: nat)
    requires x < TWO_32
    ensures Rotated(x, 0, x)
  {
  }

  lemma {:induction false} RotatesBy(x: Word, n: Word)
    requires n < 32
    ensures Rotated(x as nat, n as nat, Rotl(x, n) as nat)
    decreases n as nat
  {
    hide Rotl, Rotated;
    if n == 0 {
      RotateNone(x);
      NotRotated(x as nat);
    } else {
      OneLess(n);
      RotatesBy(x, n - 1);
      RotateOneMore(x, n - 1);
      RotateOne(Rotl(x, n - 1));
      OneFurther(x as nat, n as nat, Rotl(x, n - 1) as nat, Rotl(x, n) as nat);
    }
  }

  /** As numbers, a rotation is a product: for every word and every count. */
  lemma RotlIsRotation(x: Word, n: Word)
    requires n < 32
    ensures Rotl(x, n) as int == x as int * Power2(n as nat) % 0x1_0000_0000 + x as int * Power2(n as nat) / 0x1_0000_0000
  {
    hide Rotl;
    RotatesBy(x, n);
  }
}
