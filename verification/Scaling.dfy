/** The scale calculators of scale/scale.go, over exact reals instead of 32-bit
    floats.  Unsigned integers keep their 32-bit wrap-around. */
module Scaling {
  import opened Words

  datatype Scale = Constant | Incremental(step: u32) | Exponential(factor: real) {

    predicate IsValid() {
      match this
      case Constant => true
      case Incremental(step) => step >= 1
      case Exponential(factor) => factor > 1.0
    }

    /** The conversion of an out-of-range product to an unsigned integer is left
        to the platform, so its value is the parameter `wild`. */
    function Apply(n: u32, wild: u32): u32 {
      match this
      case Constant => n
      case Incremental(step) => Add32(n, step)
      case Exponential(factor) =>
        AtLeastOneMore(n, ToU32(factor * n as real, wild))
    }

    function ApplyInverse(n: u32, wild: u32): u32 {
      match this
      case Constant => n
      case Incremental(step) => if step > n then 0 else n - step
      case Exponential(factor) =>
        AtLeastOneLess(n, if factor == 0.0 then wild else ToU32(n as real / factor, wild))
    }
  }

  function AtLeastOneMore(n: u32, res: u32): u32 {
    if res <= n then Add32(n, 1) else res
  }

  function AtLeastOneLess(n: u32, res: u32): u32 {
    if res >= n && n > 0 then n - 1 else res
  }

  function ToU32(x: real, wild: u32): u32 {
    if 0 <= x.Floor < TWO32 then x.Floor else wild
  }

  /** One fully successful scale-up of n connections: see governor.allowedScaleDelta. */
  function Target(scale: Scale, minConns: u32, maxConns: u32, n: u32, wild: u32): u32 {
    Min(Max(scale.Apply(n, wild), minConns), maxConns)
  }

  function ScaledUp(scale: Scale, minConns: u32, maxConns: u32, n: u32, wild: u32): u32 {
    if n >= maxConns then n else Max(n, Target(scale, minConns, maxConns, n, wild))
  }

  /** n after k fully successful scale-ups. */
  function Grown(scale: Scale, minConns: u32, maxConns: u32, n: u32, wild: u32, k: nat): u32 {
    if k == 0 then n
    else ScaledUp(scale, minConns, maxConns, Grown(scale, minConns, maxConns, n, wild, k - 1), wild)
  }

  lemma FloorBounds(x: real, n: int)
    requires n as real <= x < n as real + 1.0
    ensures x.Floor == n
  {}

  /** A valid scale grows by at least one unless the word is full. */
  lemma ApplyGrows(scale: Scale, n: u32, wild: u32)
    requires scale.IsValid() && !scale.Constant?
    requires scale.Incremental? ==> n + scale.step < TWO32
    requires n < TWO32 - 1
    ensures scale.Apply(n, wild) > n
  {}

  /** The whole number a scaling by a real factor leads to: the exact product or quotient rounded
      down. */
  predicate RoundedDown(m: int, x: real) {
    m as real <= x < m as real + 1.0
  }

  /** Scaling up: a constant stays, an increment is added, and a factor multiplies, rounded down,
      but to at least one more. */
  lemma ApplyExact(scale: Scale, n: u32, wild: u32)
    requires n < TWO32 - 1
    ensures scale.Constant? ==> scale.Apply(n, wild) == n
    ensures scale.Incremental? && n + scale.step < TWO32 ==> scale.Apply(n, wild) == n + scale.step
    ensures scale.Exponential? && 0.0 <= scale.factor * n as real < TWO32 as real ==>
              var m := scale.Apply(n, wild);
              if scale.factor * n as real >= n as real + 1.0 then RoundedDown(m, scale.factor * n as real)
              else m == n + 1
  {}

  /** Scaling down: a constant stays, an increment is taken off down to none, and a factor divides,
      rounded down, but to at least one less unless there is none. */
  lemma ApplyInverseExact(scale: Scale, n: u32, q: real, wild: u32)
    requires scale.Exponential? ==> scale.factor > 0.0 && q == n as real / scale.factor
    ensures scale.Constant? ==> scale.ApplyInverse(n, wild) == n
    ensures scale.Incremental? ==> scale.ApplyInverse(n, wild) == Max(n - scale.step, 0)
    ensures scale.Exponential? && 0.0 <= q < TWO32 as real ==>
              var m := scale.ApplyInverse(n, wild);
              if n > 0 && q >= n as real then m == n - 1 else RoundedDown(m, q)
  {}

  /** A scale is valid exactly when its rule alone adds to one connection, or it is constant. */
  lemma ValidIff(scale: Scale)
    ensures scale.IsValid() <==>
              match scale
              case Constant => true
              case Incremental(step) => 1 + step > 1
              case Exponential(factor) => factor * 1.0 > 1.0
  {}

  lemma NonNegative(a: real, f: real)
    requires f > 0.0 && a * f >= 0.0
    ensures a >= 0.0
  {}

  /** Rounding the exact product x down, but to at least one more than n. */
  lemma RoundedProduct(n: u32, x: real, wild: u32, m: u32)
    requires n as real <= x < TWO32 as real && n < TWO32 - 1 && (n == 0 ==> x == 0.0)
    requires m == AtLeastOneMore(n, ToU32(x, wild))
    ensures m > n
    ensures m as real >= x ==> m == n + 1 || m as real == x
    ensures m as real < x ==> x - 1.0 < m as real && n > 0
  {}

  lemma ProductGrows(f: real, n: int, x: real)
    requires f >= 1.0 && n >= 0 && x == f * n as real
    ensures x >= n as real && (n == 0 ==> x == 0.0)
  {
    assert x - n as real == (f - 1.0) * n as real;
  }

  lemma OneMultipleLess(f: real, n: int)
    ensures f * (n - 1) as real == f * n as real - f
  {}

  /** Dividing m by the factor lands on n when m is within one factor above n's multiple y. */
  lemma Quotient(factor: real, m: u32, n: int, y: real)
    requires factor > 1.0 && y == factor * n as real
    requires y <= m as real < y + factor
    ensures (m as real / factor).Floor == n
  {
    var q := m as real / factor;
    Divided(m as real, factor, q);
    assert (q - n as real) * factor == m as real - y;
    NonNegative(q - n as real, factor);
    var gap := n as real + 1.0 - q;
    assert gap * factor == y + factor - m as real;
    Positive(gap, factor);
    FloorBounds(q, n);
  }

  lemma Divided(a: real, f: real, q: real)
    requires f > 0.0 && q == a / f
    ensures q * f == a
  {}

  lemma Positive(a: real, f: real)
    requires f > 0.0 && a * f > 0.0
    ensures a > 0.0
  {}

  lemma DividedDown(factor: real, m: u32, k: u32, wild: u32)
    requires factor > 1.0 && k < m && (m as real / factor).Floor == k
    ensures Exponential(factor).ApplyInverse(m, wild) == k
  {}

  lemma ApplyUnfolds(factor: real, n: u32, x: real, wild: u32)
    requires x == factor * n as real
    ensures Exponential(factor).Apply(n, wild) == AtLeastOneMore(n, ToU32(x, wild))
  {}

  lemma InverseAfterRounding(factor: real, n: u32, x: real, m: u32, wild: u32)
    requires factor > 1.0 && x == factor * n as real && m > n && x >= n as real
    requires m as real >= x ==> m == n + 1 || m as real == x
    requires m as real < x ==> x - 1.0 < m as real && n > 0
    ensures Exponential(factor).ApplyInverse(m, wild) == (if m as real >= x then n else n - 1)
  {
    if m as real >= x {
      Quotient(factor, m, n, x);
      DividedDown(factor, m, n, wild);
    } else {
      OneMultipleLess(factor, n);
      Quotient(factor, m, n - 1, x - factor);
      DividedDown(factor, m, n - 1, wild);
    }
  }

  /** Winding down undoes scaling up exactly when scaling up did not round down;
      otherwise it is one short. */
  lemma InverseOfApply(factor: real, n: u32, wild: u32)
    requires factor > 1.0 && n < TWO32 - 1 && factor * n as real < TWO32 as real
    ensures var m := Exponential(factor).Apply(n, wild);
            && Exponential(factor).ApplyInverse(m, wild) == (if m as real >= factor * n as real then n else n - 1)
            && (m as real < factor * n as real ==> n > 0)
  {
    var m := Exponential(factor).Apply(n, wild);
    var x := factor * n as real;
    ProductGrows(factor, n, x);
    ApplyUnfolds(factor, n, x, wild);
    RoundedProduct(n, x, wild, m);
    InverseAfterRounding(factor, n, x, m, wild);
  }

  lemma IncrementalInverse(step: u32, n: u32, wild: u32)
    ensures Incremental(step).ApplyInverse(Incremental(step).Apply(n, wild), wild) == n <==>
            (n + step < TWO32 || (n == 0 && step == 0))
  {}

  /** Below the cap every scale-up by a factor above 1 adds a connection, and the cap is never passed. */
  lemma StrictGrowth(scale: Scale, minConns: u32, maxConns: u32, n: u32, wild: u32)
    requires scale.IsValid() && !scale.Constant?
    requires scale.Incremental? ==> n + scale.step < TWO32
    ensures var m := ScaledUp(scale, minConns, maxConns, n, wild);
            && (n < maxConns ==> n < m <= maxConns)
            && (n >= maxConns ==> m == n)
  {
    if n < maxConns {
      ApplyGrows(scale, n, wild);
    }
  }

  lemma WholeFactor(b: nat, n: u32, p: u32, wild: u32)
    requires b >= 2 && n >= 1 && p == b * n
    ensures Exponential(b as real).Apply(n, wild) == p
  {
    Multiples(b, n, n);
    RealProduct(b, n);
    assert ToU32(p as real, wild) == p;
  }

  lemma RealProduct(b: nat, n: nat)
    ensures b as real * n as real == (b * n) as real
  {}

  lemma {:induction false} PowPositive(b: nat, k: nat)
    requires b >= 1
    ensures Pow(b, k) >= 1
  {
    if k > 0 {
      PowPositive(b, k - 1);
      assert b * Pow(b, k - 1) >= 1 * Pow(b, k - 1);
    }
  }

  lemma GrowthStep(scale: Scale, minConns: u32, maxConns: u32, g: nat, p: nat, wild: u32)
    requires minConns <= g <= p
    requires g < maxConns ==> scale.Apply(g, wild) == p
    ensures ScaledUp(scale, minConns, maxConns, Min(g, maxConns), wild) == Min(p, maxConns)
  {}

  lemma Multiples(b: nat, g: nat, m: int)
    requires b >= 2
    ensures (g > 0 ==> b * g > g) && b * g >= g && (g <= m ==> b * g <= b * m)
  {}

  /** No step that is taken overflows: from below the cap, the next multiple fits the word. */
  ghost predicate StepsFit(b: nat, maxConns: u32, n: nat, k: nat) {
    forall j :: 0 <= j < k && n * Pow(b, j) < maxConns ==> b * (n * Pow(b, j)) < TWO32
  }

  /** k fully successful scale-ups by a whole factor multiply the connections by
      its k-th power, up to the cap. */
  lemma {:induction false} GeometricGrowth(b: nat, minConns: u32, maxConns: u32, n: u32, wild: u32, k: nat)
    requires b >= 2 && 1 <= n && minConns <= n <= maxConns
    requires StepsFit(b, maxConns, n, k)
    ensures Grown(Exponential(b as real), minConns, maxConns, n, wild, k) == Min(n * Pow(b, k), maxConns)
  {
    if k > 0 {
      GeometricGrowth(b, minConns, maxConns, n, wild, k - 1);
      PowPositive(b, k - 1);
      var g := n * Pow(b, k - 1);
      var p := b * g;
      assert g >= n by { Multiples(2, n, n); PowTimes(n, Pow(b, k - 1)); }
      assert n * Pow(b, k) == p by { Reassociate(n, b, Pow(b, k - 1)); }
      Multiples(b, g, g);
      if g < maxConns {
        assert p < TWO32;
        WholeFactor(b, g, p, wild);
      }
      GrowthStep(Exponential(b as real), minConns, maxConns, g, p, wild);
    }
  }

  /** A final number that fits the word makes every step fit, whatever the cap is. */
  lemma {:induction false} FinalFits(b: nat, maxConns: u32, n: nat, k: nat)
    requires b >= 2 && n * Pow(b, k) < TWO32
    ensures StepsFit(b, maxConns, n, k)
  {
    if k > 0 {
      var g := n * Pow(b, k - 1);
      Reassociate(n, b, Pow(b, k - 1));
      assert b * g == n * Pow(b, k);
      Multiples(b, g, g);
      FinalFits(b, maxConns, n, k - 1);
    }
  }

  lemma PowTimes(n: nat, p: nat)
    requires p >= 1
    ensures n * p >= n
  {}

  lemma Reassociate(a: int, b: int, c: int)
    ensures a * (b * c) == b * (a * c)
  {}
}
