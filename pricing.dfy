/** The price calculator of the estimate form (`calculateEstimate`).

    The source multiplies a base price of 100 by the number of hours and by two
    multipliers, 1 or 1.5 for the location type and 1 or 1.25 for the video
    resolution, and rounds with `Math.round`. Both multipliers are exact binary
    fractions, so the floating-point product is an exact rational; the model
    below states the source's formula over `real` (Total) and computes the price
    over integers (Price), and proves that Price is Math.round of Total. */
module Pricing {

  /** The base price per hour (`basePrice`). */
  const BasePrice: nat := 100

  /** A non-negative fraction num/den, used for the multipliers. */
  datatype Fraction = Fraction(num: nat, den: nat) {
    predicate Valid() { den > 0 }
    function Value(): real requires Valid() { num as real / den as real }
  }

  /** The location multiplier as the source writes it: 1 for "urban", 1.5 for
      every other value. */
  function LocationMultiplier(location: string): real {
    if location == "urban" then 1.0 else 1.5
  }

  /** The resolution multiplier as the source writes it: 1 for "4k", 1.25 for
      every other value. */
  function ResolutionMultiplier(resolution: string): real {
    if resolution == "4k" then 1.0 else 1.25
  }

  /** The unrounded `total` of the source: base price times hours times both
      multipliers. */
  function Total(hours: nat, location: string, resolution: string): real {
    BasePrice as real * hours as real * LocationMultiplier(location) * ResolutionMultiplier(resolution)
  }

  /** `p` is what `Math.round` returns for `x`: the integer nearest to `x`,
      a half rounded toward +infinity (that is, p == floor(x + 0.5)). */
  predicate IsRounding(p: int, x: real) {
    p as real <= x + 0.5 < p as real + 1.0
  }

  /** The location multiplier as an integer fraction. */
  function LocationFactor(location: string): (f: Fraction)
    ensures f.Valid() && f.Value() == LocationMultiplier(location)
    ensures f.den in {1, 2}
  {
    if location == "urban" then Fraction(1, 1) else Fraction(3, 2)
  }

  /** The resolution multiplier as an integer fraction. */
  function ResolutionFactor(resolution: string): (f: Fraction)
    ensures f.Valid() && f.Value() == ResolutionMultiplier(resolution)
    ensures f.den in {1, 4}
  {
    if resolution == "4k" then Fraction(1, 1) else Fraction(5, 4)
  }

  /** Math.round of the fraction num/den, computed with integer division. */
  function RoundHalfUp(num: nat, den: nat): (p: nat)
    requires den > 0
    ensures IsRounding(p, num as real / den as real)
  {
    var p := (2 * num + den) / (2 * den);
    DivisionBracket(2 * num + den, 2 * den);
    HalfStep(num, den, p);
    p
  }

  /** The price `Math.round(basePrice * hours * locationMultiplier *
      resolutionMultiplier)`, computed over integers. */
  function Price(hours: nat, location: string, resolution: string): (p: nat)
    ensures IsRounding(p, Total(hours, location, resolution))
  {
    var l := LocationFactor(location);
    var r := ResolutionFactor(resolution);
    ExactProduct(hours, l, r);
    RoundHalfUp(BasePrice * hours * l.num * r.num, l.den * r.den)
  }

  // ----- properties of the price -----

  /** Math.round has one answer: two roundings of the same value agree. */
  lemma RoundingUnique(p: int, q: int, x: real)
    requires IsRounding(p, x) && IsRounding(q, x)
    ensures p == q
  {
  }

  /** Math.round is monotone: a larger value never rounds lower. */
  lemma RoundingMonotone(p: int, x: real, q: int, y: real)
    requires IsRounding(p, x) && IsRounding(q, y) && x <= y
    ensures p <= q
  {
  }

  /** The price for each of the four option pairs, as a closed form in the
      hours: 100 per hour for urban 4k, 150 for rural 4k, 125 for urban 8k,
      and 187.5 rounded half up for rural 8k. */
  lemma {:induction false} PriceClosedForm(hours: nat)
    ensures Price(hours, "urban", "4k") == 100 * hours
    ensures Price(hours, "rural", "4k") == 150 * hours
    ensures Price(hours, "urban", "8k") == 125 * hours
    ensures Price(hours, "rural", "8k") == (375 * hours + 1) / 2
  {
    var t := hours as real;
    assert Total(hours, "urban", "4k") == 100.0 * t;
    assert Total(hours, "rural", "4k") == 150.0 * t;
    assert Total(hours, "urban", "8k") == 125.0 * t;
    RoundingUnique(Price(hours, "urban", "4k"), 100 * hours, 100.0 * t);
    RoundingUnique(Price(hours, "rural", "4k"), 150 * hours, 150.0 * t);
    RoundingUnique(Price(hours, "urban", "8k"), 125 * hours, 125.0 * t);
    var k := (375 * hours + 1) / 2;
    assert Total(hours, "rural", "8k") == 187.5 * t;
    assert IsRounding(k, 187.5 * t) by {
      assert 2 * k <= 375 * hours + 1 < 2 * k + 2;
      assert (2 * k) as real <= (375 * hours + 1) as real < (2 * k + 2) as real;
    }
    RoundingUnique(Price(hours, "rural", "8k"), k, 187.5 * t);
  }

  /** Worked examples: 1 hour urban 4k is 100, a second
      hour doubles it, rural multiplies by 1.5 and 8k by 1.25. */
  lemma PriceExamples()
    ensures Price(1, "urban", "4k") == 100
    ensures Price(2, "urban", "4k") == 200
    ensures Price(1, "rural", "4k") == 150
    ensures Price(1, "urban", "8k") == 125
  {
    PriceClosedForm(1);
    PriceClosedForm(2);
  }

  /** A price that lies exactly half-way between two integers rounds up. */
  lemma HalfwayRoundsUp(hours: nat, location: string, resolution: string, k: int)
    requires Total(hours, location, resolution) == k as real + 0.5
    ensures Price(hours, location, resolution) == k + 1
  {
    RoundingUnique(Price(hours, location, resolution), k + 1, k as real + 0.5);
  }

  /** 3 hours, rural, 8k: the exact total is 562.5 and the price is 563. */
  lemma HalfwayExample()
    ensures Total(3, "rural", "8k") == 562.5
    ensures Price(3, "rural", "8k") == 563
  {
    HalfwayRoundsUp(3, "rural", "8k", 562);
  }

  /** Any location other than "urban" is charged as "rural", and any
      resolution other than "4k" as "8k": the ternaries default to the
      premium rate. */
  lemma PremiumByDefault(hours: nat, location: string, resolution: string)
    ensures location != "urban" ==> Price(hours, location, resolution) == Price(hours, "rural", resolution)
    ensures resolution != "4k" ==> Price(hours, location, resolution) == Price(hours, location, "8k")
  {
  }

  /** For at least one hour the premium rates are strictly dearer: the price
      equals the urban price exactly when the location is "urban", and the 4k
      price exactly when the resolution is "4k". */
  lemma PremiumIsDearer(hours: nat, location: string, resolution: string)
    requires hours >= 1
    ensures Price(hours, location, resolution) == Price(hours, "urban", resolution) <==> location == "urban"
    ensures Price(hours, location, resolution) == Price(hours, location, "4k") <==> resolution == "4k"
  {
    PriceClosedForm(hours);
  }

  /** For fixed options the price never decreases when the hours grow. */
  lemma PriceMonotone(h1: nat, h2: nat, location: string, resolution: string)
    requires h1 <= h2
    ensures Price(h1, location, resolution) <= Price(h2, location, resolution)
  {
    var m := LocationMultiplier(location) * ResolutionMultiplier(resolution);
    assert Total(h1, location, resolution) == 100.0 * h1 as real * m;
    assert Total(h2, location, resolution) == 100.0 * h2 as real * m;
    assert m >= 1.0;
    ScaleMonotone(100.0 * m, h1 as real, h2 as real);
    RoundingMonotone(Price(h1, location, resolution), Total(h1, location, resolution),
                     Price(h2, location, resolution), Total(h2, location, resolution));
  }

  /** The price lies between 100 and 187.5 per hour: at least 100 times
      the hours, and at most the rural 8k rate rounded up. */
  lemma PriceBounds(hours: nat, location: string, resolution: string)
    ensures 100 * hours <= Price(hours, location, resolution) <= (375 * hours + 1) / 2
  {
    PriceClosedForm(hours);
    PremiumByDefault(hours, location, resolution);
    PremiumByDefault(hours, "urban", resolution);
    PremiumByDefault(hours, "rural", resolution);
  }

  /** The price is positive, and so passes the `estimatedPrice > 0` display
      gate, exactly when at least one hour is booked. */
  lemma PricePositive(hours: nat, location: string, resolution: string)
    ensures Price(hours, location, resolution) > 0 <==> hours >= 1
  {
    PriceBounds(hours, location, resolution);
  }

  // ----- helpers for the arithmetic -----

  lemma DivisionBracket(a: nat, b: nat)
    requires b > 0
    ensures b * (a / b) <= a < b * (a / b) + b
  {
  }

  lemma HalfStep(num: nat, den: nat, p: nat)
    requires den > 0
    requires 2 * den * p <= 2 * num + den < 2 * den * p + 2 * den
    ensures IsRounding(p, num as real / den as real)
  {
    var lo, mid := 2 * den * p, 2 * num + den;
    var scale := (2 * den) as real;
    var y := num as real / den as real + 0.5;
    CastProduct(2 * den, p);
    CastHalf(num, den);
    assert lo as real == scale * p as real;
    assert mid as real == scale * y;
    RealBracket(scale, p as real, y, lo as real, mid as real);
  }

  lemma RealBracket(scale: real, q: real, y: real, lo: real, mid: real)
    requires scale > 0.0 && lo == scale * q && mid == scale * y
    requires lo <= mid < lo + scale
    ensures q <= y < q + 1.0
  {
    ScaleCancel(scale, q, y);
    ScaleCancelStrict(scale, y, q + 1.0);
  }

  lemma CastProduct(a: nat, b: nat)
    ensures (a * b) as real == a as real * b as real
  {
  }

  lemma CastHalf(num: nat, den: nat)
    requires den > 0
    ensures (2 * num + den) as real == 2.0 * den as real * (num as real / den as real + 0.5)
  {
  }

  lemma ScaleMonotone(c: real, a: real, b: real)
    requires c >= 0.0 && a <= b
    ensures c * a <= c * b
  {
  }

  lemma ScaleCancel(d: real, a: real, b: real)
    requires d > 0.0 && d * a <= d * b
    ensures a <= b
  {
  }

  lemma ScaleCancelStrict(d: real, a: real, b: real)
    requires d > 0.0 && d * a < d * b
    ensures a < b
  {
  }

  lemma ExactProduct(hours: nat, l: Fraction, r: Fraction)
    requires l.Valid() && r.Valid()
    ensures (BasePrice * hours * l.num * r.num) as real / (l.den * r.den) as real
         == BasePrice as real * hours as real * l.Value() * r.Value()
  {
  }
}
