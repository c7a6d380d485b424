/** Little-endian integers, bytes in place, and the bit tricks rings rely on. */
module Bytes {
  type Byte = x: nat | x < 256

  const TWO32: nat := 0x1_0000_0000
  const TWO31: nat := 0x8000_0000
  const TWO64: nat := 0x1_0000_0000_0000_0000

  // ----- integers -----------------------------------------------------------------------------

  function Pow(b: nat, n: nat): nat { if n == 0 then 1 else b * Pow(b, n - 1) }

  function ToBytes(v: nat, n: nat): (s: seq<Byte>)
    ensures |s| == n
  {
    if n == 0 then [] else [v % 256] + ToBytes(v / 256, n - 1)
  }

  function FromBytes(s: seq<Byte>): nat {
    if s == [] then 0 else s[0] + 256 * FromBytes(s[1..])
  }

  lemma {:induction false} FromTo(v: nat, n: nat)
    requires v < Pow(256, n)
    ensures FromBytes(ToBytes(v, n)) == v
  {
    if n > 0 {
      FromTo(v / 256, n - 1);
      assert ToBytes(v, n)[1..] == ToBytes(v / 256, n - 1);
    }
  }

  lemma {:induction false} ToFrom(s: seq<Byte>)
    ensures ToBytes(FromBytes(s), |s|) == s && FromBytes(s) < Pow(256, |s|)
  {
    if s != [] {
      ToFrom(s[1..]);
      assert FromBytes(s) / 256 == FromBytes(s[1..]);
    }
  }

  lemma Widths()
    ensures Pow(256, 1) == 256 && Pow(256, 2) == 0x1_0000 && Pow(256, 4) == TWO32 && Pow(256, 8) == TWO64
  {
    assert Pow(256, 2) == 0x1_0000;
    assert Pow(256, 3) == 0x100_0000;
    assert Pow(256, 4) == TWO32;
    assert Pow(256, 5) == 256 * TWO32;
    assert Pow(256, 6) == 0x1_0000 * TWO32;
    assert Pow(256, 7) == 0x100_0000 * TWO32;
  }

  /** Two's complement. */
  function Signed(v: nat): int { if v < TWO31 then v else v - TWO32 }
  function Unsigned(v: int): nat
    requires -(TWO31 as int) <= v < TWO31
  {
    if v < 0 then v + TWO32 else v
  }

  // ----- fields in a buffer ---------------------------------------------------------------------

  function Get(s: seq<Byte>, at: nat, n: nat): nat
    requires at + n <= |s|
  {
    FromBytes(s[at..at + n])
  }

  function Put(s: seq<Byte>, at: nat, b: seq<Byte>): (r: seq<Byte>)
    requires at + |b| <= |s|
    ensures |r| == |s|
  {
    s[..at] + b + s[at + |b|..]
  }

  lemma PutSame(s: seq<Byte>, at: nat, b: seq<Byte>)
    requires at + |b| <= |s|
    ensures Put(s, at, b)[at..at + |b|] == b
  {
  }

  lemma PutApart(s: seq<Byte>, at: nat, b: seq<Byte>, lo: nat, hi: nat)
    requires at + |b| <= |s| && lo <= hi <= |s| && (hi <= at || at + |b| <= lo)
    ensures Put(s, at, b)[lo..hi] == s[lo..hi]
  {
  }

  /** Copy bytes into a buffer. */
  method Store(a: array<Byte>, at: nat, b: seq<Byte>)
    requires at + |b| <= a.Length
    modifies a
    ensures a[..] == Put(old(a[..]), at, b)
  {
    var i := 0;
    while i < |b|
      invariant 0 <= i <= |b|
      invariant forall j :: 0 <= j < a.Length ==> a[j] == if at <= j < at + i then b[j - at] else old(a[j])
    {
      a[at + i] := b[i];
      i := i + 1;
    }
  }

  // ----- masks ------------------------------------------------------------------------------------

  /** Bitwise conjunction. */
  function BitAnd(a: nat, b: nat): nat
    decreases a
  {
    if a == 0 || b == 0 then 0 else 2 * BitAnd(a / 2, b / 2) + (a % 2) * (b % 2)
  }

  ghost predicate PowerOfTwo(n: nat) { exists k: nat :: n == Pow(2, k) }

  lemma {:induction false} MaskIsModulo(x: nat, k: nat)
    ensures Pow(2, k) >= 1 && BitAnd(x, Pow(2, k) - 1) == x % Pow(2, k)
    decreases k
  {
    if k > 0 {
      MaskIsModulo(x / 2, k - 1);
      var p := Pow(2, k - 1);
      assert Pow(2, k) == 2 * p && (2 * p - 1) / 2 == p - 1;
      assert x % (2 * p) == 2 * (x / 2 % p) + x % 2 by { HalfModulo(x, p); }
    }
  }

  lemma HalfModulo(x: nat, p: nat)
    requires p >= 1
    ensures x % (2 * p) == 2 * (x / 2 % p) + x % 2
  {
    var q := x / 2 / p;
    assert x / 2 == q * p + x / 2 % p;
    var r := 2 * (x / 2 % p) + x % 2;
    assert x == q * (2 * p) + r;
    ModuloUnique(x, 2 * p, q, r);
  }

  lemma ModuloUnique(x: int, d: nat, q: int, r: nat)
    requires d >= 1 && x == q * d + r && r < d
    ensures x % d == r
  {
    var e := x / d - q;
    assert x == (x / d) * d + x % d;
    assert e * d == r - x % d;
    ProductBounds(e, d);
  }

  lemma ProductBounds(e: int, d: nat)
    ensures e > 0 ==> e * d >= d
    ensures e < 0 ==> e * d <= 0 - d
  {
  }

  /** The classic test: clearing the lowest bit leaves nothing exactly for powers of two. */
  lemma {:induction false} LowestBitTest(n: nat)
    requires n >= 1
    ensures BitAnd(n, n - 1) == 0 <==> PowerOfTwo(n)
    decreases n
  {
    if n == 1 {
      assert n == Pow(2, 0);
    } else if n % 2 == 0 {
      var h := n / 2;
      LowestBitTest(h);
      assert (n - 1) / 2 == h - 1;
      assert BitAnd(n, n - 1) == 2 * BitAnd(h, h - 1);
      if PowerOfTwo(h) {
        var k: nat :| h == Pow(2, k);
        assert n == Pow(2, k + 1);
      }
      if PowerOfTwo(n) {
        var k: nat :| n == Pow(2, k);
        assert h == Pow(2, k - 1);
      }
    } else {
      var h := n / 2;
      assert (n - 1) / 2 == h;
      assert BitAnd(n, n - 1) == 2 * BitAnd(h, h);
      SelfAnd(h);
      forall k: nat ensures n != Pow(2, k) { PowParity(k); }
    }
  }

  lemma PowParity(k: nat)
    ensures if k == 0 then Pow(2, k) == 1 else Pow(2, k) % 2 == 0
  {
  }

  lemma {:induction false} SelfAnd(n: nat)
    ensures BitAnd(n, n) == n
  {
    if n > 0 { SelfAnd(n / 2); }
  }

  /** A power of two that fits in 32 bits divides the range of a 32-bit counter. */
  lemma {:induction false} Divides32(k: nat)
    requires Pow(2, k) < TWO32
    ensures k < 32 && TWO32 == Pow(2, k) * Pow(2, 32 - k)
  {
    Pow232();
    if k < 32 { PowSplit(k, 32 - k); } else { PowSplit(32, k - 32); }
  }

  lemma {:induction false} PowSplit(a: nat, b: nat)
    ensures Pow(2, a + b) == Pow(2, a) * Pow(2, b) && Pow(2, b) >= 1
  {
    if b > 0 {
      PowSplit(a, b - 1);
      calc {
        Pow(2, a + b);
        2 * Pow(2, a + b - 1);
        2 * (Pow(2, a) * Pow(2, b - 1));
        Pow(2, a) * (2 * Pow(2, b - 1));
        Pow(2, a) * Pow(2, b);
      }
    }
  }

  lemma Pow232()
    ensures Pow(2, 32) == TWO32
  {
    assert Pow(2, 8) == 256;
    PowSplit(8, 8);
    PowSplit(16, 16);
  }
}
