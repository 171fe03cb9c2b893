/** Powers of two, population count and bit masks, given their mathematical meaning.
    The streaming hasher leans on all three. */
module Bits {

  predicate IsPow2(n: nat) {
    n == 1 || (n > 1 && n % 2 == 0 && IsPow2(n / 2))
  }

  lemma {:induction false} Pow2Positive(p: nat)
    requires IsPow2(p)
    ensures p > 0
  {}

  /** The largest power of two that is at most n; 1 when n is 0. */
  function RoundDownPow2(n: nat): (p: nat)
    ensures IsPow2(p)
    ensures n == 0 ==> p == 1
    ensures n > 0 ==> p <= n < 2 * p
  {
    if n <= 1 then 1 else 2 * RoundDownPow2(n / 2)
  }

  /** Number of one bits. */
  function Popcnt(n: nat): nat {
    if n == 0 then 0 else n % 2 + Popcnt(n / 2)
  }

  /** Bitwise conjunction, digit by digit. */
  function BitAnd(a: nat, b: nat): nat {
    if a == 0 || b == 0 then 0 else 2 * BitAnd(a / 2, b / 2) + (a % 2) * (b % 2)
  }

  /** Bitwise disjunction, digit by digit. */
  function BitOr(a: nat, b: nat): nat {
    if a == 0 then b else if b == 0 then a
    else 2 * BitOr(a / 2, b / 2) + (if a % 2 == 1 || b % 2 == 1 then 1 else 0)
  }

  /** n is a multiple of the power of two p, by halving both. */
  predicate Multiple(n: nat, p: nat)
    requires IsPow2(p)
  {
    p == 1 || (n % 2 == 0 && Multiple(n / 2, p / 2))
  }

  /** Halving agrees with the remainder operator. */
  lemma {:induction false} MultipleMeansRemainder(n: nat, p: nat)
    requires IsPow2(p)
    ensures Multiple(n, p) <==> n % p == 0
    decreases p
  {
    if p > 1 {
      MultipleMeansRemainder(n / 2, p / 2);
      HalfRemainder(n, p / 2);
    }
  }

  lemma {:induction false} HalfRemainder(n: nat, h: nat)
    requires h > 0
    ensures n % (2 * h) == 2 * (n / 2 % h) + n % 2
  {
    var q, r := n / 2 / h, n / 2 % h;
    Twice(h, q, 2 * q);
    RemainderUnique(2 * h, n, q, 2 * r + n % 2);
  }

  lemma {:induction false} RemainderUnique(p: nat, n: nat, q: nat, r: nat)
    requires p > 0 && n == p * q + r && r < p
    ensures n % p == r
  {
    var q', r' := n / p, n % p;
    assert p * (q - q') == r' - r;
    if q != q' {
      MulMono(p, if q > q' then 1 else q - q', if q > q' then q - q' else -1);
    }
  }

  lemma {:induction false} MulMono(p: nat, a: int, b: int)
    requires a <= b
    ensures p * a <= p * b
  {}

  /** Masking with p - 1 tests for a multiple of p. */
  lemma {:induction false} MaskTestsMultiple(p: nat, c: nat)
    requires IsPow2(p)
    ensures BitAnd(p - 1, c) == 0 <==> Multiple(c, p)
    decreases p
  {
    if p > 1 {
      MaskTestsMultiple(p / 2, c / 2);
      assert (p - 1) / 2 == p / 2 - 1;
      if c == 0 {
        MultipleOfSelf(p);
      }
    }
  }

  lemma {:induction false} MultipleOfSelf(p: nat)
    requires IsPow2(p)
    ensures Multiple(p, p) && Multiple(0, p)
  {
    if p > 1 { MultipleOfSelf(p / 2); }
  }

  lemma {:induction false} MultipleSum(a: nat, b: nat, p: nat)
    requires IsPow2(p) && Multiple(a, p)
    ensures Multiple(a + b, p) <==> Multiple(b, p)
    decreases p
  {
    if p > 1 {
      MultipleSum(a / 2, b / 2, p / 2);
      assert b % 2 == 0 ==> (a + b) / 2 == a / 2 + b / 2;
    }
  }

  lemma {:induction false} MultipleDown(n: nat, p: nat, q: nat)
    requires IsPow2(p) && IsPow2(q) && q <= p && Multiple(n, p)
    ensures Multiple(n, q)
    decreases p
  {
    if q > 1 { MultipleDown(n / 2, p / 2, q / 2); }
  }

  /** Powers of two are ordered by divisibility. */
  lemma {:induction false} Pow2Multiple(p: nat, q: nat)
    requires IsPow2(p) && IsPow2(q) && p <= q
    ensures Multiple(q, p)
    decreases q
  {
    if p > 1 { Pow2Multiple(p / 2, q / 2); }
  }

  /** A multiple of p that is below a larger power of two leaves room for p. */
  lemma {:induction false} MultipleRoom(n: nat, p: nat, q: nat)
    requires IsPow2(p) && IsPow2(q) && p <= q && Multiple(n, p) && n < q
    ensures n + p <= q
    decreases q
  {
    if p > 1 { MultipleRoom(n / 2, p / 2, q / 2); }
  }

  lemma {:induction false} MultipleLowerBound(n: nat, p: nat)
    requires IsPow2(p) && Multiple(n, p) && n > 0
    ensures n >= p
    decreases p
  {
    if p > 1 { MultipleLowerBound(n / 2, p / 2); }
  }

  lemma {:induction false} MultipleScale(n: nat, p: nat, k: nat, nk: nat, pk: nat)
    requires IsPow2(p) && IsPow2(k)
    requires nk == n * k && pk == p * k
    ensures IsPow2(pk)
    ensures Multiple(nk, pk) <==> Multiple(n, p)
    decreases k
  {
    if k > 1 {
      var h := k / 2;
      var nh, ph := n * h, p * h;
      Twice(n, h, k);
      Twice(p, h, k);
      MultipleScale(n, p, h, nh, ph);
    }
  }

  /** A larger power of two is a power-of-two multiple of a smaller one. */
  lemma {:induction false} Unscale(l: nat, k: nat) returns (s: nat)
    requires IsPow2(l) && IsPow2(k) && k <= l
    ensures IsPow2(s) && l == s * k
    decreases k
  {
    if k == 1 {
      s := l;
    } else {
      s := Unscale(l / 2, k / 2);
      Twice(s, k / 2, k);
    }
  }

  lemma {:induction false} Pow2At1024()
    ensures IsPow2(1024)
  {}

  lemma {:induction false} Twice(n: nat, h: nat, k: nat)
    requires k == 2 * h
    ensures n * k == 2 * (n * h)
  {}

  /** Nothing lies strictly between a power of two and its double. */
  lemma {:induction false} Pow2Gap(d: nat, p: nat)
    requires IsPow2(d) && IsPow2(p) && d < 2 * p
    ensures d <= p
    decreases d
  {
    if d > 1 && p > 1 { Pow2Gap(d / 2, p / 2); }
  }

  /** Adding one more power of two adds at most one bit, and exactly one when there is room for it. */
  lemma {:induction false} PopcntAddPow2(y: nat, p: nat)
    requires IsPow2(p)
    ensures Popcnt(y + p) <= Popcnt(y) + 1
    ensures Multiple(y, 2 * p) ==> Popcnt(y + p) == Popcnt(y) + 1
    decreases p, y
  {
    if p == 1 {
      if y % 2 == 1 {
        PopcntAddPow2(y / 2, 1);
        assert (y + 1) / 2 == y / 2 + 1;
      } else {
        assert (y + 1) / 2 == y / 2;
      }
    } else {
      PopcntAddPow2(y / 2, p / 2);
      assert (y + p) / 2 == y / 2 + p / 2 && (y + p) % 2 == y % 2;
    }
  }

  function Pow2(e: nat): (p: nat)
    ensures IsPow2(p)
  {
    if e == 0 then 1 else 2 * Pow2(e - 1)
  }

  lemma {:induction false} Pow2Sum(a: nat, b: nat)
    ensures Pow2(a + b) == Pow2(a) * Pow2(b)
  {
    if a > 0 {
      Pow2Sum(a - 1, b);
      MulAssoc(Pow2(a - 1), Pow2(b));
    }
  }

  lemma {:induction false} Pow2At6()
    ensures Pow2(6) == 64
  {}

  lemma {:induction false} Pow2At54()
    ensures Pow2(54) == 0x40_0000_0000_0000
  {
    hide Pow2;
    Pow2At6();
    Pow2Sum(6, 6);
    Pow2Sum(12, 6);
    Pow2Sum(18, 18);
    Pow2Sum(36, 18);
  }

  lemma {:induction false} MulAssoc(x: nat, y: nat)
    ensures 2 * x * y == 2 * (x * y)
  {}

  /** A number below 2^e has at most e one bits. */
  lemma {:induction false} PopcntBound(n: nat, e: nat)
    requires n < Pow2(e)
    ensures Popcnt(n) <= e
    decreases e
  {
    if n > 0 { PopcntBound(n / 2, e - 1); }
  }
}
