/** Currency conversion at an exact rate, with its three rounding rules. */
module Exchange {
  import opened Amounts

  datatype Rule = Floor | Ceiling | HalfEven

  /** The quotient of two positive integers under a rounding rule. */
  function Rounded(p: nat, d: nat, rule: Rule): nat
    requires d > 0
  {
    var q, r := p / d, p % d;
    match rule
    case Floor => q
    case Ceiling => if r != 0 then q + 1 else q
    case HalfEven => if 2 * r > d || (2 * r == d && q % 2 == 1) then q + 1 else q
  }

  function Converted(base: int, numerator: int, denominator: int, rule: Rule): Option<int> {
    if base <= 0 || numerator <= 0 || denominator <= 0 then None
    else
      var p: nat := base * numerator;
      var q := Rounded(p, denominator, rule);
      if Fits(q) then Some(q) else None
  }

  /** Adjusts the truncated quotient in place, as the rule asks. */
  method Convert(base: int, numerator: int, denominator: int, rule: Rule) returns (result: Option<int>)
    ensures result == Converted(base, numerator, denominator, rule)
    ensures result.Some? ==> IsRounding(base * numerator, denominator, rule, result.value)
    ensures result.None? <==>
            base <= 0 || numerator <= 0 || denominator <= 0
            || exists q: int :: IsRounding(base * numerator, denominator, rule, q) && q >= LIMIT
  {
    hide IsRounding;
    ConvertFails(base, numerator, denominator, rule);
    if base <= 0 || numerator <= 0 || denominator <= 0 {
      return None;
    }
    assert base * numerator > 0;
    var product := base * numerator;
    RoundedMeans(product, denominator, rule);
    var quotient, remainder := product / denominator, product % denominator;
    match rule {
      case Floor =>
      case Ceiling =>
        if remainder != 0 {
          quotient := quotient + 1;
        }
      case HalfEven =>
        var twice := 2 * remainder;
        if twice > denominator || (twice == denominator && quotient % 2 == 1) {
          quotient := quotient + 1;
        }
    }
    result := if Fits(quotient) then Some(quotient) else None;
  }

  // ----- what each rule means ----------------------------------------------------------------------

  /**
   * q is p / d rounded by the rule, said without dividing; the last case is roundTiesToEven of section 4.3.1 of IEEE
   * 754-2019.
   */
  predicate IsRounding(p: int, d: int, rule: Rule, q: int) {
    match rule
    case Floor => q * d <= p < q * d + d
    case Ceiling => q * d - d < p <= q * d
    case HalfEven =>
      && -d <= 2 * (p - q * d) <= d
      && (2 * (p - q * d) == d || 2 * (p - q * d) == -d ==> q % 2 == 0)
  }

  lemma DivMod(p: nat, d: nat)
    requires d > 0
    ensures (p / d) * d + p % d == p && 0 <= p % d < d
  {
  }

  lemma RoundedMeans(p: nat, d: nat, rule: Rule)
    requires d > 0
    ensures IsRounding(p, d, rule, Rounded(p, d, rule))
  {
    DivMod(p, d);
    var q, r := p / d, p % d;
    assert (q + 1) * d == q * d + d;
  }

  /** A larger multiple of d is larger by at least d. */
  lemma Apart(q: int, k: int, d: int)
    requires d > 0 && q < k
    ensures q * d + d <= k * d
    ensures q + 1 < k ==> q * d + 2 * d <= k * d
  {
    Scale(k - q - 1, d);
    assert k * d == q * d + d + (k - q - 1) * d;
    if q + 1 < k {
      Scale(k - q - 2, d);
      assert k * d == q * d + 2 * d + (k - q - 2) * d;
    }
  }

  lemma Scale(n: int, d: int)
    requires n >= 0 && d > 0
    ensures n * d >= 0
  {
  }

  /** Of two amounts, the larger never rounds to less, whichever roundings they are. */
  lemma RoundingsOrdered(p: int, p': int, d: int, rule: Rule, q: int, q': int)
    requires d > 0 && p <= p' && IsRounding(p, d, rule, q) && IsRounding(p', d, rule, q')
    ensures q <= q'
  {
    if q' < q {
      Apart(q', q, d);
    }
  }

  /** Each rule determines its result, so the description and the computation agree. */
  lemma RoundedExactly(p: nat, d: nat, rule: Rule, q: int)
    requires d > 0
    ensures IsRounding(p, d, rule, q) <==> q == Rounded(p, d, rule)
  {
    hide Rounded, IsRounding;
    RoundedMeans(p, d, rule);
    if IsRounding(p, d, rule, q) {
      RoundingsOrdered(p, p, d, rule, q, Rounded(p, d, rule));
      RoundingsOrdered(p, p, d, rule, Rounded(p, d, rule), q);
    }
  }

  // ----- conversions ----------------------------------------------------------------------------------

  lemma ProductGrows(a: int, b: int, n: int)
    requires a <= b && n > 0
    ensures a * n <= b * n
  {
    Scale(b - a, n);
    assert b * n == a * n + (b - a) * n;
  }

  /** More of the base never converts to less. */
  lemma ConvertMonotone(a: int, b: int, n: int, d: int, rule: Rule)
    requires a <= b && Converted(a, n, d, rule).Some? && Converted(b, n, d, rule).Some?
    ensures Converted(a, n, d, rule).value <= Converted(b, n, d, rule).value
  {
    hide Rounded, IsRounding, Fits;
    ProductGrows(a, b, n);
    RoundedMeans(a * n, d, rule);
    RoundedMeans(b * n, d, rule);
    RoundingsOrdered(a * n, b * n, d, rule, Rounded(a * n, d, rule), Rounded(b * n, d, rule));
  }

  /** Floor, half-even and ceiling are ordered and at most one atom apart. */
  lemma RulesOrdered(p: nat, d: nat)
    requires d > 0
    ensures Rounded(p, d, Floor) <= Rounded(p, d, HalfEven) <= Rounded(p, d, Ceiling) <= Rounded(p, d, Floor) + 1
    ensures Rounded(p, d, Floor) == Rounded(p, d, Ceiling) <==> p % d == 0
  {
  }

  /** Under Floor, converting there and back at the inverse rate never yields more than it took. */
  lemma RoundTripNeverGains(base: int, n: int, d: int)
    requires Converted(base, n, d, Floor).Some? && Converted(Converted(base, n, d, Floor).value, d, n, Floor).Some?
    ensures Converted(Converted(base, n, d, Floor).value, d, n, Floor).value <= base
  {
    hide Rounded, Fits;
    var q := Converted(base, n, d, Floor).value;
    RoundedMeans(base * n, d, Floor);
    var back := Rounded(q * d, n, Floor);
    RoundedMeans(q * d, n, Floor);
    if base < back {
      Apart(base, back, n);
    }
  }

  lemma FloorSplits(p: int, q: int, d: int, x: int, y: int, z: int)
    requires d > 0 && IsRounding(p, d, Floor, x) && IsRounding(q, d, Floor, y) && IsRounding(p + q, d, Floor, z)
    ensures x + y <= z <= x + y + 1
  {
    assert (x + y) * d == x * d + y * d;
    if z < x + y {
      Apart(z, x + y, d);
    }
    if x + y + 1 < z {
      Apart(x + y, z, d);
    }
  }

  /**
   * Under Floor, converting an amount in two parts never yields more than converting it at once, and at most one atom
   * less.
   */
  lemma SplittingNeverGains(a: int, b: int, n: int, d: int)
    requires Converted(a, n, d, Floor).Some? && Converted(b, n, d, Floor).Some? && Converted(a + b, n, d, Floor).Some?
    ensures Converted(a, n, d, Floor).value + Converted(b, n, d, Floor).value <= Converted(a + b, n, d, Floor).value
    ensures Converted(a + b, n, d, Floor).value <= Converted(a, n, d, Floor).value + Converted(b, n, d, Floor).value + 1
  {
    hide Rounded, Fits, IsRounding;
    Distributes(a, b, n);
    RoundedMeans(a * n, d, Floor);
    RoundedMeans(b * n, d, Floor);
    RoundedMeans((a + b) * n, d, Floor);
    FloorSplits(a * n, b * n, d, Rounded(a * n, d, Floor), Rounded(b * n, d, Floor), Rounded((a + b) * n, d, Floor));
  }

  lemma Distributes(a: int, b: int, n: int)
    ensures (a + b) * n == a * n + b * n
  {
  }

  /** A conversion fails exactly for amounts that are not positive and for results of more than 38 digits. */
  lemma ConvertFails(base: int, n: int, d: int, rule: Rule)
    ensures Converted(base, n, d, rule).None? <==>
            base <= 0 || n <= 0 || d <= 0 || exists q: int :: IsRounding(base * n, d, rule, q) && q >= LIMIT
  {
    hide Rounded, IsRounding;
    if base > 0 && n > 0 && d > 0 {
      Scale(base, n);
      RoundedMeans(base * n, d, rule);
      forall q: int | IsRounding(base * n, d, rule, q) ensures q == Rounded(base * n, d, rule) {
        RoundedExactly(base * n, d, rule, q);
      }
    }
  }
}
