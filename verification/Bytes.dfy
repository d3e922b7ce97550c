/** Big-endian integers and powers, as key parsing and signing use them. */
module Bytes {

  type Byte = x: int | 0 <= x < 256

  function Pow(b: nat, e: nat): nat {
    if e == 0 then 1 else b * Pow(b, e - 1)
  }

  function FromBytes(bs: seq<Byte>): nat {
    if bs == [] then 0 else FromBytes(bs[..|bs| - 1]) * 256 + bs[|bs| - 1]
  }

  /** The `size` low-order bytes of a number. */
  function ToBytes(n: nat, size: nat): (bs: seq<Byte>)
    ensures |bs| == size
  {
    if size == 0 then [] else ToBytes(n / 256, size - 1) + [n % 256]
  }

  /** The shortest non-empty encoding of a number. */
  function MinimalBytes(n: nat): (bs: seq<Byte>)
    ensures |bs| > 0
  {
    (if n < 256 then [] else MinimalBytes(n / 256)) + [n % 256]
  }

  function BitLength(n: nat): nat {
    if n == 0 then 0 else 1 + BitLength(n / 2)
  }

  lemma ScaleUp(b: nat, x: nat)
    requires b > 0
    ensures x <= b * x
  {
    assert b * x == x + (b - 1) * x;
  }

  lemma {:induction false} PowMonotone(b: nat, d: nat, e: nat)
    requires b > 0 && d <= e
    ensures Pow(b, d) <= Pow(b, e)
  {
    if d < e {
      PowMonotone(b, d, e - 1);
      ScaleUp(b, Pow(b, e - 1));
    }
  }

  lemma {:induction false} PowAdd(b: nat, d: nat, e: nat)
    ensures Pow(b, d + e) == Pow(b, d) * Pow(b, e)
  {
    if d > 0 {
      PowAdd(b, d - 1, e);
      Associate(b, Pow(b, d - 1), Pow(b, e));
    }
  }

  lemma Associate(x: nat, y: nat, z: nat)
    ensures x * (y * z) == (x * y) * z
  {
  }

  lemma {:induction false} PowTimes(b: nat, d: nat, e: nat)
    ensures Pow(b, d * e) == Pow(Pow(b, d), e)
  {
    if e > 0 {
      PowTimes(b, d, e - 1);
      assert d * e == d + d * (e - 1);
      PowAdd(b, d, d * (e - 1));
    }
  }

  lemma {:induction false} Pow256(size: nat)
    ensures Pow(256, size) == Pow(2, 8 * size)
  {
    assert Pow(2, 8) == 256;
    PowTimes(2, 8, size);
  }

  /** A number lies between the powers of two its bit length names. */
  lemma {:induction false} BitLengthBounds(n: nat)
    requires n > 0
    ensures BitLength(n) > 0 && Pow(2, BitLength(n) - 1) <= n < Pow(2, BitLength(n))
  {
    if n > 1 {
      BitLengthBounds(n / 2);
      Doubled(n, Pow(2, BitLength(n / 2) - 1));
    }
  }

  lemma Doubled(n: nat, low: nat)
    requires low <= n / 2 < 2 * low
    ensures 2 * low <= n < 2 * (2 * low)
  {
  }

  lemma {:induction false} FromBytesBound(bs: seq<Byte>)
    ensures FromBytes(bs) < Pow(256, |bs|)
  {
    if bs != [] {
      FromBytesBound(bs[..|bs| - 1]);
    }
  }

  lemma Redistribute(x: int, p: int, y: int, last: int)
    ensures (x * p + y) * 256 + last == x * (256 * p) + (y * 256 + last)
  {
  }

  lemma {:induction false} FromBytesConcat(a: seq<Byte>, b: seq<Byte>)
    ensures FromBytes(a + b) == FromBytes(a) * Pow(256, |b|) + FromBytes(b)
  {
    if b == [] {
      assert a + b == a;
    } else {
      var front, last := b[..|b| - 1], b[|b| - 1];
      FromBytesConcat(a, front);
      assert (a + b)[..|a + b| - 1] == a + front;
      Redistribute(FromBytes(a), Pow(256, |front|), FromBytes(front), last);
    }
  }

  lemma {:induction false} ToThenFrom(n: nat, size: nat)
    requires n < Pow(256, size)
    ensures FromBytes(ToBytes(n, size)) == n
  {
    if size > 0 {
      ToThenFrom(n / 256, size - 1);
      assert ToBytes(n, size)[..size - 1] == ToBytes(n / 256, size - 1);
    }
  }

  lemma {:induction false} FromThenTo(bs: seq<Byte>)
    ensures ToBytes(FromBytes(bs), |bs|) == bs
  {
    if bs != [] {
      FromThenTo(bs[..|bs| - 1]);
    }
  }

  lemma {:induction false} MinimalThenFrom(n: nat)
    ensures FromBytes(MinimalBytes(n)) == n
    ensures MinimalBytes(n)[0] == 0 ==> n == 0
  {
    var m := MinimalBytes(n);
    if n >= 256 {
      MinimalThenFrom(n / 256);
      assert m[..|m| - 1] == MinimalBytes(n / 256);
    }
  }

  lemma {:induction false} MinimalUnique(bs: seq<Byte>)
    requires |bs| > 0 && (|bs| > 1 ==> bs[0] != 0)
    ensures MinimalBytes(FromBytes(bs)) == bs
  {
    if |bs| > 1 {
      var front := bs[..|bs| - 1];
      MinimalUnique(front);
      FromBytesPositive(front);
      assert FromBytes(bs) / 256 == FromBytes(front);
    } else {
      assert bs[..0] == [];
    }
  }

  lemma {:induction false} FromBytesPositive(bs: seq<Byte>)
    requires |bs| > 0 && bs[0] != 0
    ensures FromBytes(bs) > 0
  {
    if |bs| > 1 {
      FromBytesPositive(bs[..|bs| - 1]);
    }
  }

  lemma {:induction false} MinimalLength(n: nat, size: nat)
    requires n < Pow(256, size) && size > 0
    ensures |MinimalBytes(n)| <= size
  {
    if n >= 256 {
      assert size > 1;
      MinimalLength(n / 256, size - 1);
    }
  }

  // ---- Remainders ----

  lemma RemainderUnique(a: nat, n: nat, q: int, r: nat)
    requires r < n && a == q * n + r
    ensures a % n == r
  {
    var d := a / n - q;
    assert a == a / n * n + a % n;
    assert d * n == r - a % n;
    assert d == 0;
  }

  lemma ModProduct(a: nat, b: nat, n: nat)
    requires n > 0
    ensures (a * b) % n == ((a % n) * (b % n)) % n
  {
    var qa, ra, qb, rb := a / n, a % n, b / n, b % n;
    assert a == qa * n + ra && b == qb * n + rb;
    var k := qa * n * qb + qa * rb + ra * qb;
    assert a * b == ra * rb + k * n;
    var product := ra * rb;
    assert product == product / n * n + product % n;
    var q := k + product / n;
    assert q * n == k * n + product / n * n;
    RemainderUnique(a * b, n, q, product % n);
  }

  lemma PowStep(b: nat, e: nat)
    requires e > 0
    ensures Pow(b, e) == b * Pow(b, e - 1)
  {
  }

  lemma ModTwice(b: nat, n: nat)
    requires n > 0
    ensures (b % n) % n == b % n
  {
    RemainderUnique(b % n, n, 0, b % n);
  }

  /** Reducing the base first does not change a modular power. */
  lemma {:induction false} PowModBase(b: nat, e: nat, n: nat)
    requires n > 0
    ensures Pow(b % n, e) % n == Pow(b, e) % n
  {
    hide Pow;
    if e == 0 {
      PowZero(b);
      PowZero(b % n);
    } else {
      var c, p, q := b % n, Pow(b, e - 1), Pow(b % n, e - 1);
      PowModBase(b, e - 1, n);
      PowStep(b, e);
      PowStep(c, e);
      ModTwice(b, n);
      ModProduct(b, p, n);
      ModProduct(c, q, n);
    }
  }

  lemma PowZero(b: nat)
    ensures Pow(b, 0) == 1
  {
  }
}
