/**
 * The unit conversion of the resolver's success path, over mathematical
 * reals: an idealisation of the float64 arithmetic the service performs.
 */
module Temperature {

  /** `r` lies on the one-decimal grid. */
  predicate IsTenth(r: real) {
    (r * 10.0).Floor as real == r * 10.0
  }

  /**
   * `n` is a nearest integer to `x`, and on a tie (`x` exactly halfway)
   * it is the one farther from zero.
   */
  predicate NearestAwayFromZero(x: real, n: int) {
    var d := x - n as real;
    && -0.5 <= d <= 0.5
    && (d == 0.5 ==> x < 0.0)
    && (d == -0.5 ==> x > 0.0)
  }

  /** Go's `math.Round`: round half away from zero. */
  function Round(x: real): (n: int)
    ensures NearestAwayFromZero(x, n)
  {
    if x < 0.0 then -((-x + 0.5).Floor) else (x + 0.5).Floor
  }

  /** At most one integer is nearest-with-ties-away, so `Round` is that integer. */
  lemma RoundUnique(x: real, n: int)
    requires NearestAwayFromZero(x, n)
    ensures n == Round(x)
  {
    var m := Round(x);
    assert NearestAwayFromZero(x, m);
  }

  /**
   * `r` is a nearest one-decimal value to `x`, and on a tie (`x` exactly
   * halfway between two) it is the one farther from zero.
   */
  predicate NearestTenthAwayFromZero(x: real, r: real) {
    && IsTenth(r)
    && -0.05 <= x - r <= 0.05
    && (x - r == 0.05 ==> x < 0.0)
    && (x - r == -0.05 ==> x > 0.0)
  }

  /** `round1`: round half away from zero at the first decimal, i.e. `math.Round(f*10) / 10`. */
  function Round1(x: real): (r: real)
    ensures NearestTenthAwayFromZero(x, r)
  {
    Round(x * 10.0) as real / 10.0
  }

  /** `Round1` is the only one-decimal value that is nearest with ties away from zero. */
  lemma Round1Unique(x: real, r: real)
    requires NearestTenthAwayFromZero(x, r)
    ensures r == Round1(x)
  {
    var n := (r * 10.0).Floor;
    assert n as real == r * 10.0;
    assert NearestAwayFromZero(x * 10.0, n);
    RoundUnique(x * 10.0, n);
  }

  /** A value already on the one-decimal grid is left alone. */
  lemma Round1Idempotent(x: real)
    requires IsTenth(x)
    ensures Round1(x) == x
  {
    Round1Unique(x, x);
  }

  /** Rounding is symmetric about zero. */
  lemma Round1Odd(x: real)
    ensures Round1(-x) == -Round1(x)
  {
    var r := Round1(x);
    assert (-r * 10.0).Floor == -((r * 10.0).Floor);
    Round1Unique(-x, -r);
  }

  /** Rounding never reverses the order of two readings. */
  lemma Round1Monotonic(x: real, y: real)
    requires x <= y
    ensures Round1(x) <= Round1(y)
  {
    RoundMonotonic(x * 10.0, y * 10.0);
  }

  lemma RoundMonotonic(x: real, y: real)
    requires x <= y
    ensures Round(x) <= Round(y)
  {
    if 0.0 <= x {
      assert (x + 0.5).Floor <= (y + 0.5).Floor;
    } else if y < 0.0 {
      assert (-y + 0.5).Floor <= (-x + 0.5).Floor;
    }
  }

  function Fahrenheit(c: real): real {
    c * 1.8 + 32.0
  }

  /** Kelvin with the integral 273 offset the service uses (not 273.15). */
  function Kelvin(c: real): real {
    c + 273.0
  }

  datatype Readings = Readings(celsius: real, fahrenheit: real, kelvin: real)

  /** The three readings, each rounded independently from the unrounded Celsius value. */
  function Convert(c: real): (t: Readings)
    ensures NearestTenthAwayFromZero(c, t.celsius)
    ensures NearestTenthAwayFromZero(Fahrenheit(c), t.fahrenheit)
    ensures NearestTenthAwayFromZero(Kelvin(c), t.kelvin)
  {
    Readings(Round1(c), Round1(Fahrenheit(c)), Round1(Kelvin(c)))
  }

  /**
   * The conversion's contract leaves no freedom: any three readings that are
   * the nearest tenths (ties away from zero) of C, C*1.8+32 and C+273 are
   * exactly what `Convert` returns.
   */
  lemma ConvertDeterminedByRounding(c: real, t: Readings)
    requires NearestTenthAwayFromZero(c, t.celsius)
    requires NearestTenthAwayFromZero(Fahrenheit(c), t.fahrenheit)
    requires NearestTenthAwayFromZero(Kelvin(c), t.kelvin)
    ensures t == Convert(c)
  {
    Round1Unique(c, t.celsius);
    Round1Unique(Fahrenheit(c), t.fahrenheit);
    Round1Unique(Kelvin(c), t.kelvin);
  }

  /** Reference points: freezing, boiling, the -40 crossover, and 25 degrees. */
  lemma ConvertExamples()
    ensures Convert(0.0) == Readings(0.0, 32.0, 273.0)
    ensures Convert(100.0) == Readings(100.0, 212.0, 373.0)
    ensures Convert(-40.0) == Readings(-40.0, -40.0, 233.0)
    ensures Convert(25.0) == Readings(25.0, 77.0, 298.0)
  {
    Round1Idempotent(0.0);
    Round1Idempotent(32.0);
    Round1Idempotent(273.0);
    Round1Idempotent(100.0);
    Round1Idempotent(212.0);
    Round1Idempotent(373.0);
    Round1Idempotent(-40.0);
    Round1Idempotent(233.0);
    Round1Idempotent(25.0);
    Round1Idempotent(77.0);
    Round1Idempotent(298.0);
  }

  /** A value ending in exactly .05 rounds away from zero, on either side of zero. */
  lemma Round1TieExamples()
    ensures Round1(98.45) == 98.5
    ensures Round1(-98.45) == -98.5
    ensures Round1(0.05) == 0.1
  {
    Round1Unique(98.45, 98.5);
    Round1Odd(98.45);
    Round1Unique(0.05, 0.1);
  }

  /** For non-negative Celsius the rounded Kelvin reading is the rounded Celsius plus 273. */
  lemma KelvinTracksCelsius(c: real)
    requires c >= 0.0
    ensures Convert(c).kelvin == Convert(c).celsius + 273.0
  {
    var r := Round1(c);
    assert (r * 10.0 + 2730.0).Floor == (r * 10.0).Floor + 2730;
    Round1Unique(Kelvin(c), r + 273.0);
  }

  /**
   * Below zero the two roundings can part ways: -0.05 rounds away from zero
   * to -0.1, while 272.95 rounds up to 273.0, a gap of 273.1.
   */
  lemma KelvinOffsetTieExample()
    ensures Convert(-0.05).celsius == -0.1
    ensures Convert(-0.05).kelvin == 273.0
  {
    Round1Unique(-0.05, -0.1);
    Round1Unique(272.95, 273.0);
  }
}
