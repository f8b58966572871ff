/** Positional numerals and bit strings, most significant digit first. */
module Numerals {

  function Pow2(k: nat): (p: nat)
    ensures p > 0
  {
    if k == 0 then 1 else 2 * Pow2(k - 1)
  }

  function Value(base: nat, s: seq<nat>): nat {
    if s == [] then 0 else Value(base, s[..|s| - 1]) * base + s[|s| - 1]
  }

  predicate Below(bound: nat, s: seq<nat>) {
    forall i :: 0 <= i < |s| ==> s[i] < bound
  }

  lemma ValueSnoc(base: nat, s: seq<nat>, d: nat)
    ensures Value(base, s + [d]) == Value(base, s) * base + d
  {
    assert (s + [d])[..|s|] == s;
  }

  lemma TimesAtLeast(d: nat, base: nat)
    requires d > 0
    ensures d * base >= base
  {
    assert d * base == (d - 1) * base + base;
  }

  lemma SmallerQuotient(base: nat, q: nat, r: nat, q': nat, r': nat)
    requires r < base && q < q'
    ensures q * base + r < q' * base + r'
  {
    TimesAtLeast(q' - q, base);
    assert (q' - q) * base == q' * base - q * base;
  }

  lemma LastDigit(base: nat, q: nat, r: nat, q': nat, r': nat)
    requires r < base && r' < base
    ensures q * base + r == q' * base + r' <==> q == q' && r == r'
  {
    if q < q' {
      SmallerQuotient(base, q, r, q', r');
    } else if q' < q {
      SmallerQuotient(base, q', r', q, r);
    }
  }

  /** Numerals of one length are determined by their value. */
  lemma {:induction false} ValueInjective(base: nat, a: seq<nat>, b: seq<nat>)
    requires |a| == |b| && Below(base, a) && Below(base, b) && Value(base, a) == Value(base, b)
    ensures a == b
  {
    if a != [] {
      var n := |a| - 1;
      LastDigit(base, Value(base, a[..n]), a[n], Value(base, b[..n]), b[n]);
      ValueInjective(base, a[..n], b[..n]);
      assert a == a[..n] + [a[n]] && b == b[..n] + [b[n]];
    }
  }

  // ---------------------------------------------------------------- shifts

  /** Dropping the k lowest bits. */
  function Shr(v: nat, k: nat): nat {
    if k == 0 then v else Shr(v / 2, k - 1)
  }

  lemma {:induction false} ShrShr(v: nat, j: nat, k: nat)
    ensures Shr(Shr(v, j), k) == Shr(v, j + k)
  {
    if j > 0 {
      ShrShr(v / 2, j - 1, k);
    }
  }

  lemma {:induction false} ShrHalves(v: nat, k: nat)
    ensures Shr(v, k + 1) == Shr(v, k) / 2
  {
    if k > 0 {
      ShrHalves(v / 2, k - 1);
    }
  }

  lemma {:induction false} ShrAppend(v: nat, b: nat, k: nat)
    requires b < Pow2(k)
    ensures Shr(v * Pow2(k) + b, k) == v
  {
    if k > 0 {
      var p := Pow2(k - 1);
      assert (v * (2 * p) + b) / 2 == v * p + b / 2 by {
        assert v * (2 * p) == 2 * (v * p);
      }
      ShrAppend(v, b / 2, k - 1);
    }
  }

  lemma HalfMod(v: nat, m: nat)
    requires m > 0
    ensures v % (2 * m) / 2 == v / 2 % m
  {
    var q, r := v / (2 * m), v % (2 * m);
    assert v == 2 * (q * m) + r;
    assert v / 2 == q * m + r / 2;
    LastDigit(m, v / 2 / m, v / 2 % m, q, r / 2);
  }

  /** Shifting a truncated number is truncating the shifted one. */
  lemma {:induction false} ShrLow(v: nat, k: nat, m: nat)
    ensures Shr(v % Pow2(k + m), k) == Shr(v, k) % Pow2(m)
  {
    if k > 0 {
      HalfMod(v, Pow2(k - 1 + m));
      ShrLow(v / 2, k - 1, m);
    }
  }

  lemma Divide(a: nat, n: nat) returns (q: nat)
    requires n > 0
    ensures a == n * q + a % n
  {
    q := a / n;
  }

  lemma MulAssociates(a: nat, b: nat, c: nat)
    ensures a * b * c == a * (b * c)
  {
  }

  lemma DropMultiple32(k: nat, r: nat)
    ensures (32 * k + r) % 32 == r % 32
  {
  }

  lemma DropMultiple256(k: nat, r: nat)
    ensures (256 * k + r) % 256 == r % 256
  {
  }

  /** The low 5 or 8 bits of a number survive truncation to more bits. */
  lemma LowBits(a: nat, c: nat)
    requires c > 0
    ensures a % (32 * c) % 32 == a % 32 && a % (256 * c) % 256 == a % 256
  {
    var q := Divide(a, 32 * c);
    MulAssociates(32, c, q);
    DropMultiple32(c * q, a % (32 * c));
    q := Divide(a, 256 * c);
    MulAssociates(256, c, q);
    DropMultiple256(c * q, a % (256 * c));
  }

  lemma {:induction false} Pow2Sum(j: nat, k: nat)
    ensures Pow2(j + k) == Pow2(j) * Pow2(k)
  {
    if j > 0 {
      Pow2Sum(j - 1, k);
    }
  }

  // ---------------------------------------------------------------- bits

  function Bits(k: nat, v: nat): (s: seq<bool>)
    ensures |s| == k
  {
    if k == 0 then [] else Bits(k - 1, v / 2) + [v % 2 == 1]
  }

  function Number(s: seq<bool>): nat {
    if s == [] then 0 else 2 * Number(s[..|s| - 1]) + if s[|s| - 1] then 1 else 0
  }

  lemma {:induction false} NumberInjective(a: seq<bool>, b: seq<bool>)
    requires |a| == |b| && Number(a) == Number(b)
    ensures a == b
  {
    if a != [] {
      var n := |a| - 1;
      NumberInjective(a[..n], b[..n]);
      assert a == a[..n] + [a[n]] && b == b[..n] + [b[n]];
    }
  }

  lemma {:induction false} NumberAppend(a: seq<bool>, k: nat, d: nat)
    requires d < Pow2(k)
    ensures Number(a + Bits(k, d)) == Number(a) * Pow2(k) + d
  {
    var s := a + Bits(k, d);
    if k == 0 {
      assert s == a;
    } else {
      assert s[..|s| - 1] == a + Bits(k - 1, d / 2);
      NumberAppend(a, k - 1, d / 2);
      Doubling(Number(a), Pow2(k - 1));
    }
  }

  lemma Doubling(n: nat, p: nat)
    ensures n * (2 * p) == 2 * (n * p)
  {
  }

  /** All digits written out in k bits each. */
  function Spread(k: nat, s: seq<nat>): (b: seq<bool>)
    ensures |b| == k * |s|
  {
    if s == [] then [] else Spread(k, s[..|s| - 1]) + Bits(k, s[|s| - 1])
  }

  lemma {:induction false} SpreadNumber(k: nat, s: seq<nat>)
    requires Below(Pow2(k), s)
    ensures Number(Spread(k, s)) == Value(Pow2(k), s)
  {
    if s != [] {
      SpreadNumber(k, s[..|s| - 1]);
      NumberAppend(Spread(k, s[..|s| - 1]), k, s[|s| - 1]);
    }
  }

  /** Two groupings of one number are the same bit string. */
  lemma Regroup(j: nat, a: seq<nat>, k: nat, b: seq<nat>)
    requires Below(Pow2(j), a) && Below(Pow2(k), b) && j * |a| == k * |b| && Value(Pow2(j), a) == Value(Pow2(k), b)
    ensures Spread(j, a) == Spread(k, b)
  {
    SpreadNumber(j, a);
    SpreadNumber(k, b);
    NumberInjective(Spread(j, a), Spread(k, b));
  }

  /** Bits of digits that agree outside a window agree outside the window's bits. */
  lemma {:induction false} SpreadAgrees(k: nat, a: seq<nat>, b: seq<nat>, from: nat, to: nat)
    requires |a| == |b| && from <= to && forall i :: 0 <= i < |a| && !(from <= i < to) ==> a[i] == b[i]
    ensures forall x :: 0 <= x < k * |a| && !(k * from <= x < k * to) ==> Spread(k, a)[x] == Spread(k, b)[x]
  {
    if a != [] {
      var n := |a| - 1;
      SpreadAgrees(k, a[..n], b[..n], from, to);
      assert k * |a| == k * n + k;
      if from <= n < to {
        assert k * from <= k * n && k * n + k <= k * to by {
          MulLeq(k, from, n);
          MulLeq(k, n + 1, to);
        }
      }
    }
  }

  lemma MulLeq(k: nat, a: nat, b: nat)
    requires a <= b
    ensures k * a <= k * b
  {
  }

  lemma {:induction false} NumberBound(s: seq<bool>)
    ensures Number(s) < Pow2(|s|)
  {
    if s != [] {
      NumberBound(s[..|s| - 1]);
    }
  }

  lemma {:induction false} BitsOfNumber(s: seq<bool>)
    ensures Bits(|s|, Number(s)) == s
  {
    if s != [] {
      var n := |s| - 1;
      BitsOfNumber(s[..n]);
      assert Number(s) / 2 == Number(s[..n]);
      assert s == s[..n] + [s[n]];
    }
  }

  lemma {:induction false} BitsInjective(k: nat, v: nat, w: nat)
    requires v < Pow2(k) && w < Pow2(k) && Bits(k, v) == Bits(k, w)
    ensures v == w
  {
    if k > 0 {
      assert Bits(k, v)[..k - 1] == Bits(k - 1, v / 2) && Bits(k, w)[..k - 1] == Bits(k - 1, w / 2);
      assert Bits(k, v)[k - 1] == Bits(k, w)[k - 1];
      BitsInjective(k - 1, v / 2, w / 2);
    }
  }
}
