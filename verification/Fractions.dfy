// The exact fractions of src/tools/fraction.js, for positive denominators.
module Fractions {
  import opened Cards

  datatype Fraction = Fraction(numerator: int, denominator: int)
  {
    predicate Ok() { denominator > 0 }

    ghost function Value(): real
      requires Ok()
    {
      numerator as real / denominator as real
    }
  }

  const ZERO := Fraction(0, 1)
  const ONE := Fraction(1, 1)

  // ----- Arithmetic facts -----

  predicate Divides(k: int, n: int)
    requires k > 0
  {
    n % k == 0
  }

  lemma DividesExact(k: int, n: int)
    requires k > 0 && Divides(k, n)
    ensures n == k * (n / k)
  {
  }

  lemma MultipleDivides(k: int, q: int)
    requires k > 0
    ensures Divides(k, k * q) && (k * q) / k == q
  {
    var n := k * q;
    var (x, r) := (n / k, n % k);
    assert n == k * x + r;
    assert k * (q - x) == r;
    if q - x >= 1 { MulMono(k, 1, q - x); }
    if q - x <= -1 { MulMono(k, q - x, -1); }
  }

  lemma MulMono(k: int, a: int, b: int)
    requires k >= 0 && a <= b
    ensures k * a <= k * b
  {
  }

  lemma DividesSum(k: int, a: int, b: int)
    requires k > 0 && Divides(k, a) && Divides(k, b)
    ensures Divides(k, a + b) && Divides(k, a - b)
  {
    DividesExact(k, a);
    DividesExact(k, b);
    assert a + b == k * (a / k + b / k) && a - b == k * (a / k - b / k);
    MultipleDivides(k, a / k + b / k);
    MultipleDivides(k, a / k - b / k);
  }

  lemma DividesTimes(k: int, a: int, b: int)
    requires k > 0 && Divides(k, a)
    ensures Divides(k, a * b)
  {
    DividesExact(k, a);
    assert a * b == k * (a / k * b);
    MultipleDivides(k, a / k * b);
  }

  lemma DividesTransitive(j: int, k: int, n: int)
    requires j > 0 && k > 0 && Divides(j, k) && Divides(k, n)
    ensures Divides(j, n)
  {
    DividesExact(k, n);
    DividesTimes(j, k, n / k);
  }

  lemma DivisorBound(k: int, n: int)
    requires k > 0 && n > 0 && Divides(k, n)
    ensures k <= n
  {
    DividesExact(k, n);
    if n / k >= 1 { MulMono(k, 1, n / k); }
    if n / k <= 0 { MulMono(k, n / k, 0); }
  }

  // ----- find_gcd and find_lcm -----

  /** `find_gcd`; on the positive numbers it is called with, the remainder is the usual one. */
  function FindGcd(a: int, b: int): (g: int)
    requires a > 0 && b >= 0
    ensures g > 0
    decreases b
  {
    if b == 0 then a else FindGcd(b, a % b)
  }

  /** The result divides both numbers, and every common divisor divides it. */
  lemma {:induction false} GcdIsGreatest(a: int, b: int)
    requires a > 0 && b >= 0
    ensures Divides(FindGcd(a, b), a) && Divides(FindGcd(a, b), b)
    ensures forall k | k > 0 && Divides(k, a) && Divides(k, b) :: Divides(k, FindGcd(a, b))
    decreases b
  {
    if b > 0 {
      var r := a % b;
      var g := FindGcd(b, r);
      GcdIsGreatest(b, r);
      DividesTimes(g, b, a / b);
      DividesSum(g, b * (a / b), r);
      assert a == b * (a / b) + r;
      forall k | k > 0 && Divides(k, a) && Divides(k, b)
        ensures Divides(k, g)
      {
        DividesTimes(k, b, a / b);
        DividesSum(k, a, b * (a / b));
      }
    }
  }

  function FindLcm(a: int, b: int): int
    requires a > 0 && b > 0
  {
    (a * b) / FindGcd(a, b)
  }

  /** The division by the gcd is exact and gives a positive common multiple. */
  lemma LcmIsMultiple(a: int, b: int)
    requires a > 0 && b > 0
    ensures FindLcm(a, b) > 0 && FindLcm(a, b) * FindGcd(a, b) == a * b
    ensures Divides(a, FindLcm(a, b)) && Divides(b, FindLcm(a, b))
  {
    var g := FindGcd(a, b);
    GcdIsGreatest(a, b);
    DividesExact(g, a);
    DividesExact(g, b);
    var (x, y) := (a / g, b / g);
    assert a * b == g * (x * b) == g * (y * a) by {
      assert g * (x * b) == (g * x) * b;
      assert g * (y * a) == (g * y) * a;
    }
    MultipleDivides(g, x * b);
    MultipleDivides(g, y * a);
    assert FindLcm(a, b) == x * b == y * a;
    MultipleDivides(b, x);
    MultipleDivides(a, y);
    assert x * b == b * x && y * a == a * y;
    if x <= 0 { MulMono(g, x, 0); }
    MulMono(b, 1, x);
  }

  // ----- Values -----

  /** A fraction has the value of its numerator over its denominator, by cross-multiplication. */
  lemma ValueIs(f: Fraction, v: real)
    requires f.Ok()
    ensures f.Value() == v <==> f.numerator as real == v * f.denominator as real
    ensures f.Value() < v <==> (f.numerator as real) < v * f.denominator as real
  {
    var (n, d) := (f.numerator as real, f.denominator as real);
    assert f.Value() * d == n;
    if f.Value() < v { RealMono(f.Value(), v, d); }
    if v < f.Value() { RealMono(v, f.Value(), d); }
  }

  lemma RealMono(x: real, y: real, d: real)
    requires d > 0.0 && x < y
    ensures x * d < y * d
  {
  }

  /** Equal values are equal cross products. */
  lemma SameValue(f: Fraction, g: Fraction)
    requires f.Ok() && g.Ok()
    ensures f.Value() == g.Value() <==> f.numerator * g.denominator == g.numerator * f.denominator
    ensures f.Value() < g.Value() <==> f.numerator * g.denominator < g.numerator * f.denominator
  {
    var (a, b, c, d) := (f.numerator as real, f.denominator as real, g.numerator as real, g.denominator as real);
    ValueIs(f, g.Value());
    assert g.Value() * d == c;
    assert (g.Value() * b) * d == c * b;
    if a < g.Value() * b { RealMono(a, g.Value() * b, d); }
    if g.Value() * b < a { RealMono(g.Value() * b, a, d); }
    CrossReal(f.numerator, g.denominator);
    CrossReal(g.numerator, f.denominator);
  }

  lemma CrossReal(a: int, b: int)
    ensures (a * b) as real == a as real * b as real
  {
  }

  // ----- reduce -----

  /** The first odd number from i on that divides both, up to the smaller one; 0 if there is none. */
  function CommonOdd(n: int, d: int, i: int): int
    requires i > 0
    decreases Min(n, d) + 2 - i
  {
    if i > Min(n, d) then 0
    else if Divides(i, d) && Divides(i, n) then i
    else CommonOdd(n, d, i + 2)
  }

  lemma {:induction false} CommonOddSpec(n: int, d: int, i: int)
    requires i > 0 && i % 2 == 1
    ensures var c := CommonOdd(n, d, i);
            if c == 0 then forall k | i <= k <= Min(n, d) && k % 2 == 1 :: !(Divides(k, n) && Divides(k, d))
            else i <= c <= Min(n, d) && Divides(c, n) && Divides(c, d)
    decreases Min(n, d) + 2 - i
  {
    if i <= Min(n, d) && !(Divides(i, d) && Divides(i, n)) {
      CommonOddSpec(n, d, i + 2);
      var c := CommonOdd(n, d, i + 2);
      if c == 0 {
        forall k | i <= k <= Min(n, d) && k % 2 == 1
          ensures !(Divides(k, n) && Divides(k, d))
        {
          if k > i { assert k >= i + 2; }
        }
      }
    }
  }

  /** What `reduce` returns. */
  function Reduced(f: Fraction): (r: Fraction)
    requires f.Ok()
    ensures r.Ok()
    decreases f.denominator
  {
    var (n, d) := (f.numerator, f.denominator);
    if n > d && n % d == 0 then Fraction(n / d, 1)
    else if d % 2 == 0 && n % 2 == 0 then Reduced(Fraction(n / 2, d / 2))
    else
      CommonOddSpec(n, d, 3);
      var c := CommonOdd(n, d, 3);
      if c == 0 then f
      else
        CutDown(d, c);
        Reduced(Fraction(n / c, d / c))
  }

  lemma CutDown(d: int, c: int)
    requires d > 0 && c > 1 && Divides(c, d)
    ensures 0 < d / c < d
  {
    DividesExact(c, d);
    if d / c <= 0 { MulMono(c, d / c, 0); }
    MulMono(d / c, 2, c);
  }

  /** `reduce`, with its scan for an odd common factor. */
  method Reduce(f: Fraction) returns (r: Fraction)
    requires f.Ok()
    ensures r == Reduced(f)
    decreases f.denominator
  {
    if f.numerator > f.denominator && f.numerator % f.denominator == 0 {
      return Fraction(f.numerator / f.denominator, 1);
    }
    if f.denominator % 2 == 0 && f.numerator % 2 == 0 {
      r := Reduce(Fraction(f.numerator / 2, f.denominator / 2));
      return;
    }
    CommonOddSpec(f.numerator, f.denominator, 3);
    var i := 3;
    while i <= Min(f.numerator, f.denominator)
      invariant i >= 3 && CommonOdd(f.numerator, f.denominator, i) == CommonOdd(f.numerator, f.denominator, 3)
    {
      if Divides(i, f.denominator) && Divides(i, f.numerator) {
        CutDown(f.denominator, i);
        r := Reduce(Fraction(f.numerator / i, f.denominator / i));
        return;
      }
      i := i + 2;
    }
    return f;
  }

  lemma CancelValue(n: int, d: int, c: int)
    requires d > 0 && c > 0 && Divides(c, n) && Divides(c, d) && d / c > 0
    ensures Fraction(n / c, d / c).Value() == Fraction(n, d).Value()
  {
    DividesExact(c, n);
    DividesExact(c, d);
    assert (n / c) * d == (n / c) * (c * (d / c)) == n * (d / c);
    SameValue(Fraction(n / c, d / c), Fraction(n, d));
  }

  /** Reducing keeps the value. */
  lemma {:induction false} ReducedValue(f: Fraction)
    requires f.Ok()
    ensures Reduced(f).Value() == f.Value()
    decreases f.denominator
  {
    var (n, d) := (f.numerator, f.denominator);
    if n > d && n % d == 0 {
      DividesExact(d, n);
      SameValue(Fraction(n / d, 1), f);
    } else if d % 2 == 0 && n % 2 == 0 {
      CancelValue(n, d, 2);
      ReducedValue(Fraction(n / 2, d / 2));
    } else {
      CommonOddSpec(n, d, 3);
      var c := CommonOdd(n, d, 3);
      if c != 0 {
        CutDown(d, c);
        CancelValue(n, d, c);
        ReducedValue(Fraction(n / c, d / c));
      }
    }
  }

  /** No number above 1 divides both parts. */
  ghost predicate Lowest(f: Fraction) {
    forall k | k > 1 :: !(Divides(k, f.numerator) && Divides(k, f.denominator))
  }

  /** Positive fractions are reduced to lowest terms. */
  lemma {:induction false} ReducedLowest(f: Fraction)
    requires f.Ok() && f.numerator > 0
    ensures Lowest(Reduced(f))
    decreases f.denominator
  {
    var (n, d) := (f.numerator, f.denominator);
    if n > d && n % d == 0 {
      forall k | k > 1
        ensures !(Divides(k, n / d) && Divides(k, 1))
      {
        if Divides(k, 1) { DivisorBound(k, 1); }
      }
    } else if d % 2 == 0 && n % 2 == 0 {
      ReducedLowest(Fraction(n / 2, d / 2));
    } else {
      CommonOddSpec(n, d, 3);
      var c := CommonOdd(n, d, 3);
      if c != 0 {
        CutDown(d, c);
        DividesExact(c, n);
        if n / c <= 0 { MulMono(c, n / c, 0); }
        ReducedLowest(Fraction(n / c, d / c));
      } else {
        forall k | k > 1
          ensures !(Divides(k, n) && Divides(k, d))
        {
          NoCommonDivisor(n, d, k);
        }
      }
    }
  }

  lemma NoCommonDivisor(n: int, d: int, k: int)
    requires n > 0 && d > 0 && k > 1 && !(d % 2 == 0 && n % 2 == 0)
    requires forall j | 3 <= j <= Min(n, d) && j % 2 == 1 :: !(Divides(j, n) && Divides(j, d))
    ensures !(Divides(k, n) && Divides(k, d))
  {
    if Divides(k, n) && Divides(k, d) {
      DivisorBound(k, n);
      DivisorBound(k, d);
      if k % 2 == 0 {
        assert Divides(2, k);
        DividesTransitive(2, k, n);
        DividesTransitive(2, k, d);
      }
    }
  }

  ghost predicate NoOddCommon(f: Fraction) {
    forall k | k > 1 && k % 2 == 1 :: !(Divides(k, f.numerator) && Divides(k, f.denominator))
  }

  lemma OddProduct(a: int, b: int)
    requires a % 2 == 1 && b % 2 == 1
    ensures a * b % 2 == 1
  {
    var (x, y) := (a / 2, b / 2);
    assert a * b == (2 * x + 1) * (2 * y + 1) == 2 * (2 * x * y + x + y) + 1;
  }

  /** An odd number divides an even one exactly when it divides its half. */
  lemma OddHalf(k: int, n: int)
    requires k > 0 && k % 2 == 1 && n % 2 == 0
    ensures Divides(k, n) <==> Divides(k, n / 2)
  {
    if Divides(k, n) {
      DividesExact(k, n);
      var q := n / k;
      if q % 2 == 1 { OddProduct(k, q); }
      assert n == k * (2 * (q / 2)) == 2 * (k * (q / 2));
      MultipleDivides(k, q / 2);
    }
    if Divides(k, n / 2) {
      DividesSum(k, n / 2, n / 2);
    }
  }

  /** A numerator that is not positive is only ever halved. */
  lemma {:induction false} OnlyHalved(f: Fraction)
    requires f.Ok() && f.numerator <= 0
    ensures Lowest(Reduced(f)) <==> NoOddCommon(f)
    decreases f.denominator
  {
    var (n, d) := (f.numerator, f.denominator);
    if d % 2 == 0 && n % 2 == 0 {
      OnlyHalved(Fraction(n / 2, d / 2));
      forall k | k > 1 && k % 2 == 1
        ensures Divides(k, n) <==> Divides(k, n / 2)
        ensures Divides(k, d) <==> Divides(k, d / 2)
      {
        OddHalf(k, n);
        OddHalf(k, d);
      }
    } else {
      forall k | k > 1 && k % 2 == 0
        ensures !(Divides(k, n) && Divides(k, d))
      {
        if Divides(k, n) && Divides(k, d) {
          assert Divides(2, k);
          DividesTransitive(2, k, n);
          DividesTransitive(2, k, d);
        }
      }
    }
  }

  /** Exactly when `reduce` reaches lowest terms: the numerator is positive, or no odd number divides both parts. */
  lemma ReducesFully(f: Fraction)
    requires f.Ok()
    ensures Lowest(Reduced(f)) <==> f.numerator > 0 || NoOddCommon(f)
  {
    if f.numerator > 0 {
      ReducedLowest(f);
    } else {
      OnlyHalved(f);
    }
  }

  /** A fraction that stays unreduced. */
  lemma NegativeStays()
    ensures Reduced(Fraction(-3, 9)) == Fraction(-3, 9) && !Lowest(Fraction(-3, 9))
  {
    assert CommonOdd(-3, 9, 3) == 0;
    assert Divides(3, -3) && Divides(3, 9);
  }

  // ----- The operations -----

  /** The numerator over the denominator l. */
  function Numerator(f: Fraction, l: int): int
    requires f.Ok()
  {
    f.numerator * (l / f.denominator)
  }

  function Plus(f: Fraction, g: Fraction): (r: Fraction)
    requires f.Ok() && g.Ok()
    ensures r.Ok()
  {
    var lcm := FindLcm(f.denominator, g.denominator);
    LcmIsMultiple(f.denominator, g.denominator);
    Reduced(Fraction(Numerator(f, lcm) + Numerator(g, lcm), lcm))
  }

  function Subtract(f: Fraction, g: Fraction): (r: Fraction)
    requires f.Ok() && g.Ok()
    ensures r.Ok()
  {
    Plus(f, Fraction(-g.numerator, g.denominator))
  }

  function Product(f: Fraction, g: Fraction): (r: Fraction)
    requires f.Ok() && g.Ok()
    ensures r.Ok()
  {
    MulMono(f.denominator, 1, g.denominator);
    Fraction(f.numerator * g.numerator, f.denominator * g.denominator)
  }

  function Multiply(f: Fraction, g: Fraction): (r: Fraction)
    requires f.Ok() && g.Ok()
    ensures r.Ok()
  {
    Reduced(Product(f, g))
  }

  /** The divisor has to be positive: otherwise the denominator would not be. */
  function Divide(f: Fraction, g: Fraction): (r: Fraction)
    requires f.Ok() && g.Ok() && g.numerator > 0
    ensures r.Ok()
  {
    Multiply(f, Fraction(g.denominator, g.numerator))
  }

  function LessThan(f: Fraction, g: Fraction): bool
    requires f.Ok() && g.Ok()
  {
    Subtract(f, g).numerator < 0
  }

  function Equals(f: Fraction, g: Fraction): bool
    requires f.Ok() && g.Ok()
  {
    Subtract(f, g).numerator == 0
  }

  lemma Scaled(f: Fraction, l: int)
    requires f.Ok() && l > 0 && Divides(f.denominator, l)
    ensures Numerator(f, l) as real == f.Value() * l as real
  {
    DividesExact(f.denominator, l);
    var q := l / f.denominator;
    CrossReal(f.numerator, q);
    CrossReal(f.denominator, q);
    assert f.Value() * f.denominator as real == f.numerator as real;
    assert f.Value() * l as real == (f.Value() * f.denominator as real) * q as real;
  }

  lemma ValueTimes(f: Fraction)
    requires f.Ok()
    ensures f.Value() * f.denominator as real == f.numerator as real
  {
  }

  lemma SumOver(x: int, y: int, l: int, a: real, b: real)
    requires l > 0 && x as real == a * l as real && y as real == b * l as real
    ensures Fraction(x + y, l).Value() == a + b
  {
    assert (x + y) as real == (a + b) * l as real;
    ValueIs(Fraction(x + y, l), a + b);
  }

  /** The lcm divides evenly and the values add up. */
  lemma PlusValue(f: Fraction, g: Fraction)
    requires f.Ok() && g.Ok()
    ensures Plus(f, g).Value() == f.Value() + g.Value()
  {
    var l := FindLcm(f.denominator, g.denominator);
    LcmIsMultiple(f.denominator, g.denominator);
    hide FindLcm, Reduced, Divides, Numerator, Fraction.Value;
    Scaled(f, l);
    Scaled(g, l);
    SumOver(Numerator(f, l), Numerator(g, l), l, f.Value(), g.Value());
    ReducedValue(Fraction(Numerator(f, l) + Numerator(g, l), l));
  }

  lemma MinusValue(f: Fraction)
    requires f.Ok()
    ensures Fraction(-f.numerator, f.denominator).Value() == -f.Value()
  {
    ValueTimes(f);
    ValueIs(Fraction(-f.numerator, f.denominator), -f.Value());
  }

  lemma SubtractValue(f: Fraction, g: Fraction)
    requires f.Ok() && g.Ok()
    ensures Subtract(f, g).Value() == f.Value() - g.Value()
  {
    hide Plus, Fraction.Value;
    MinusValue(g);
    PlusValue(f, Fraction(-g.numerator, g.denominator));
  }

  lemma ProductReal(x: real, a: real, n: real, y: real, b: real, m: real)
    requires x * a == n && y * b == m
    ensures n * m == (x * y) * (a * b)
  {
    assert (x * a) * (y * b) == (x * y) * (a * b);
  }

  lemma ProductOver(n: int, d: int, m: int, e: int, a: real, b: real)
    requires d > 0 && e > 0 && d * e > 0 && a * d as real == n as real && b * e as real == m as real
    ensures Fraction(n * m, d * e).Value() == a * b
  {
    CrossReal(n, m);
    CrossReal(d, e);
    ProductReal(a, d as real, n as real, b, e as real, m as real);
    ValueIs(Fraction(n * m, d * e), a * b);
  }

  lemma MultiplyValue(f: Fraction, g: Fraction)
    requires f.Ok() && g.Ok()
    ensures Multiply(f, g).Value() == f.Value() * g.Value()
  {
    hide Reduced, Fraction.Value, Product;
    ProductValue(f, g);
    ReducedValue(Product(f, g));
  }

  lemma ProductValue(f: Fraction, g: Fraction)
    requires f.Ok() && g.Ok()
    ensures Product(f, g).Value() == f.Value() * g.Value()
  {
    MulMono(f.denominator, 1, g.denominator);
    ValueTimes(f);
    ValueTimes(g);
    hide Fraction.Value;
    ProductOver(f.numerator, f.denominator, g.numerator, g.denominator, f.Value(), g.Value());
  }

  lemma DivideValue(f: Fraction, g: Fraction)
    requires f.Ok() && g.Ok() && g.numerator > 0
    ensures Divide(f, g).Value() * g.Value() == f.Value()
  {
    var inverse := Fraction(g.denominator, g.numerator);
    MultiplyValue(f, inverse);
    ValueTimes(g);
    ValueTimes(inverse);
    hide Multiply, Fraction.Value;
    InverseReal(inverse.Value(), g.Value(), g.numerator as real, g.denominator as real);
    CancelReal(f.Value(), inverse.Value(), g.Value());
  }

  lemma CancelReal(a: real, x: real, y: real)
    requires x * y == 1.0
    ensures (a * x) * y == a
  {
    assert (a * x) * y == a * (x * y);
  }

  lemma InverseReal(x: real, y: real, n: real, d: real)
    requires n > 0.0 && d > 0.0 && x * n == d && y * d == n
    ensures x * y == 1.0
  {
    assert x == d / n && y == n / d;
  }

  /** Comparisons agree with the order of the values. */
  lemma OrderAgrees(f: Fraction, g: Fraction)
    requires f.Ok() && g.Ok()
    ensures LessThan(f, g) <==> f.Value() < g.Value()
    ensures Equals(f, g) <==> f.Value() == g.Value()
  {
    var diff := Subtract(f, g);
    SubtractValue(f, g);
    ValueIs(diff, 0.0);
  }
}
