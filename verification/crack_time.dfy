/**
 * The unit ladder of `estimate_crack_time`. The expected number of seconds is
 * `2 ** entropy / (2 * 1e9)`; the power is a floating-point library call and is
 * passed in as a function. The ladder itself is modelled over exact reals,
 * with Python's `int(x)` on a non-negative value as `x.Floor`.
 */
module CrackTime {

  /** The human-readable duration, one constructor per returned string shape. */
  datatype Duration =
    | LessThanASecond
    | Seconds(n: nat)
    | Minutes(n: nat)
    | Hours(n: nat)
    | Days(n: nat)
    | Months(n: nat)
    | Years(n: nat)
    | ThousandsOfYears(n: nat)
    | MillionsOfYears

  /** The assumed attacker speed. */
  const GuessesPerSecond: real := 1000000000.0

  const SecondsPerMinute: nat := 60
  const SecondsPerHour: nat := 3600
  const SecondsPerDay: nat := 86400
  /** A month is 30 days. */
  const SecondsPerMonth: nat := 2592000
  /** A year is 365 days. */
  const SecondsPerYear: nat := 31536000

  /** The ladder from seconds to the coarsest sensible unit, counts truncated. */
  function Ladder(seconds: real): (d: Duration)
    ensures d == LessThanASecond <==> seconds < 1.0
    ensures d.Seconds? <==> 1.0 <= seconds < SecondsPerMinute as real
    ensures d.Minutes? <==> SecondsPerMinute as real <= seconds < SecondsPerHour as real
    ensures d.Hours? <==> SecondsPerHour as real <= seconds < SecondsPerDay as real
    ensures d.Days? <==> SecondsPerDay as real <= seconds < SecondsPerMonth as real
    ensures d.Months? <==> SecondsPerMonth as real <= seconds < SecondsPerYear as real
    ensures d.Years? <==> SecondsPerYear as real <= seconds < 1001.0 * SecondsPerYear as real
    ensures d.ThousandsOfYears? <==> 1001.0 * SecondsPerYear as real <= seconds < 1000001.0 * SecondsPerYear as real
    ensures d == MillionsOfYears <==> seconds >= 1000001.0 * SecondsPerYear as real
  {
    if seconds < 1.0 then LessThanASecond
    else if seconds < SecondsPerMinute as real then Seconds(seconds.Floor)
    else if seconds < SecondsPerHour as real then Minutes((seconds / SecondsPerMinute as real).Floor)
    else if seconds < SecondsPerDay as real then Hours((seconds / SecondsPerHour as real).Floor)
    else if seconds < SecondsPerMonth as real then Days((seconds / SecondsPerDay as real).Floor)
    else if seconds < SecondsPerYear as real then Months((seconds / SecondsPerMonth as real).Floor)
    else
      var years := (seconds / SecondsPerYear as real).Floor;
      if years > 1000000 then MillionsOfYears
      else if years > 1000 then ThousandsOfYears(years / 1000)
      else Years(years)
  }

  /**
   * Python's float power `2 ** x` raises `OverflowError` once the result
   * exceeds the largest double, that is from `x >= 1024` on.
   */
  const FloatExponentLimit: real := 1024.0

  /** What `estimate_crack_time` produces as written: a duration, or the exception of `2 ** entropy`. */
  datatype CrackTimeOutcome = Estimated(d: Duration) | OverflowError

  /** `estimate_crack_time(entropy)` as written, with `pow2` standing for `2 ** x`. */
  function EstimateCrackTimeAsWritten(entropy: real, pow2: real -> real): (r: CrackTimeOutcome)
    ensures r.OverflowError? <==> entropy >= FloatExponentLimit
  {
    if entropy >= FloatExponentLimit then OverflowError
    else Estimated(Ladder(pow2(entropy) / (2.0 * GuessesPerSecond)))
  }

  /**
   * The estimate with the overflow removed: an entropy too large for the
   * float power lands on the top rung, as the exact power would.
   */
  function EstimateCrackTime(entropy: real, pow2: real -> real): (d: Duration)
    ensures entropy >= FloatExponentLimit ==> d == MillionsOfYears
  {
    if entropy >= FloatExponentLimit then MillionsOfYears
    else Ladder(pow2(entropy) / (2.0 * GuessesPerSecond))
  }

  /** Wherever the code as written returns an estimate, the corrected one returns the same. */
  lemma CorrectedAgreesWhereDefined(entropy: real, pow2: real -> real)
    ensures EstimateCrackTimeAsWritten(entropy, pow2).Estimated? ==>
      EstimateCrackTimeAsWritten(entropy, pow2).d == EstimateCrackTime(entropy, pow2)
  {
  }

  /**
   * For a power function that is monotone and exact at 80, the corrected
   * estimate is the ladder of the exact expected seconds, for every entropy:
   * the cut-off at 1024 bits loses nothing.
   */
  lemma CorrectedMatchesExactLadder(entropy: real, pow2: real -> real)
    requires forall x: real, y: real :: x <= y ==> pow2(x) <= pow2(y)
    requires pow2(80.0) == 1208925819614629174706176.0
    ensures EstimateCrackTime(entropy, pow2) == Ladder(pow2(entropy) / (2.0 * GuessesPerSecond))
  {
    if entropy >= FloatExponentLimit {
      assert pow2(80.0) <= pow2(entropy);
      var seconds := pow2(entropy) / (2.0 * GuessesPerSecond);
      assert 1000001.0 * SecondsPerYear as real <= pow2(80.0) / (2.0 * GuessesPerSecond);
      ScaleKeepsOrder(pow2(80.0), pow2(entropy), 1.0 / (2.0 * GuessesPerSecond));
    }
  }

  /** The number of seconds one step of a duration's count stands for. */
  function UnitSeconds(d: Duration): nat
  {
    match d
    case LessThanASecond => 1
    case Seconds(_) => 1
    case Minutes(_) => SecondsPerMinute
    case Hours(_) => SecondsPerHour
    case Days(_) => SecondsPerDay
    case Months(_) => SecondsPerMonth
    case Years(_) => SecondsPerYear
    case ThousandsOfYears(_) => 1000 * SecondsPerYear
    case MillionsOfYears => 1000000 * SecondsPerYear
  }

  /** Units ordered from finest to coarsest. */
  function Rank(d: Duration): nat
  {
    match d
    case LessThanASecond => 0
    case Seconds(_) => 1
    case Minutes(_) => 2
    case Hours(_) => 3
    case Days(_) => 4
    case Months(_) => 5
    case Years(_) => 6
    case ThousandsOfYears(_) => 7
    case MillionsOfYears => 8
  }

  /** The count a duration carries; zero for the two fixed strings. */
  function Count(d: Duration): nat
  {
    match d
    case LessThanASecond => 0
    case MillionsOfYears => 0
    case _ => d.n
  }

  /** Every count is the truncated quotient: `n` whole units fit into the seconds, `n + 1` do not. */
  lemma LadderTruncates(seconds: real)
    requires 1.0 <= seconds
    requires !Ladder(seconds).MillionsOfYears?
    ensures Ladder(seconds).n >= 1
    ensures var d := Ladder(seconds);
      d.n as real * UnitSeconds(d) as real <= seconds < (d.n + 1) as real * UnitSeconds(d) as real
  {
    if seconds < SecondsPerHour as real {
      LadderTruncatesBelowAnHour(seconds);
    } else if seconds < SecondsPerMonth as real {
      LadderTruncatesHoursAndDays(seconds);
    } else if seconds < SecondsPerYear as real {
      LadderTruncatesMonths(seconds);
    } else {
      LadderTruncatesYears(seconds);
    }
  }

  lemma LadderTruncatesBelowAnHour(seconds: real)
    requires 1.0 <= seconds < SecondsPerHour as real
    ensures Ladder(seconds).n >= 1
    ensures var d := Ladder(seconds);
      d.n as real * UnitSeconds(d) as real <= seconds < (d.n + 1) as real * UnitSeconds(d) as real
  {
    if seconds < SecondsPerMinute as real {
      QuotientFloorBrackets(seconds, 1.0);
    } else {
      QuotientFloorBrackets(seconds, SecondsPerMinute as real);
    }
  }

  lemma LadderTruncatesHoursAndDays(seconds: real)
    requires SecondsPerHour as real <= seconds < SecondsPerMonth as real
    ensures Ladder(seconds).n >= 1
    ensures var d := Ladder(seconds);
      d.n as real * UnitSeconds(d) as real <= seconds < (d.n + 1) as real * UnitSeconds(d) as real
  {
    if seconds < SecondsPerDay as real {
      QuotientFloorBrackets(seconds, SecondsPerHour as real);
    } else {
      QuotientFloorBrackets(seconds, SecondsPerDay as real);
    }
  }

  lemma LadderTruncatesMonths(seconds: real)
    requires SecondsPerMonth as real <= seconds < SecondsPerYear as real
    ensures Ladder(seconds).n >= 1
    ensures var d := Ladder(seconds);
      d.n as real * UnitSeconds(d) as real <= seconds < (d.n + 1) as real * UnitSeconds(d) as real
  {
    QuotientFloorBrackets(seconds, SecondsPerMonth as real);
  }

  lemma LadderTruncatesYears(seconds: real)
    requires SecondsPerYear as real <= seconds
    requires !Ladder(seconds).MillionsOfYears?
    ensures Ladder(seconds).n >= 1
    ensures var d := Ladder(seconds);
      d.n as real * UnitSeconds(d) as real <= seconds < (d.n + 1) as real * UnitSeconds(d) as real
  {
    var u := SecondsPerYear as real;
    QuotientFloorBrackets(seconds, u);
    var years := (seconds / u).Floor;
    if years > 1000 {
      var k := years / 1000;
      assert k * 1000 <= years < (k + 1) * 1000;
      assert k as real * 1000.0 <= years as real < (k + 1) as real * 1000.0;
      assert Ladder(seconds) == ThousandsOfYears(k);
    }
  }

  /** The truncated quotient brackets the dividend between two consecutive multiples of the unit. */
  lemma QuotientFloorBrackets(x: real, u: real)
    requires 0.0 < u
    ensures (x / u).Floor as real * u <= x < ((x / u).Floor as real + 1.0) * u
  {
    var q := x / u;
    var f := q.Floor as real;
    assert q * u == x;
    ScaleKeepsOrder(f, q, u);
    ScaleKeepsStrictOrder(q, f + 1.0, u);
    assert f * u <= x;
    assert x < (f + 1.0) * u;
    assert (x / u).Floor as real == f;
  }

  lemma ScaleKeepsOrder(a: real, b: real, u: real)
    requires a <= b && 0.0 < u
    ensures a * u <= b * u
  {
  }

  lemma ScaleKeepsStrictOrder(a: real, b: real, u: real)
    requires a < b && 0.0 < u
    ensures a * u < b * u
  {
  }

  /**
   * The ladder only coarsens: more seconds never give a finer unit, and in
   * the same unit never a smaller count.
   */
  lemma LadderMonotone(a: real, b: real)
    requires a <= b
    ensures var da, db := Ladder(a), Ladder(b);
      Rank(da) < Rank(db) || (Rank(da) == Rank(db) && Count(da) <= Count(db))
  {
    var da, db := Ladder(a), Ladder(b);
    if Rank(da) == Rank(db) && 1 <= Rank(da) <= 7 {
      var u := UnitSeconds(if da.ThousandsOfYears? then Years(0) else da) as real;
      QuotientFloorMonotone(a, b, u);
    }
  }

  /** Truncated division by a positive unit keeps the order of its arguments. */
  lemma QuotientFloorMonotone(a: real, b: real, u: real)
    requires 0.0 < u && a <= b
    ensures (a / u).Floor <= (b / u).Floor
  {
    var qa, qb := a / u, b / u;
    assert qa * u == a && qb * u == b;
    if qa > qb {
      assert qa * u > qb * u;
    }
  }

  /** `estimate_crack_time(0)`: with `2 ** 0 == 1` the estimate is under a second. */
  lemma ZeroEntropyCracksInstantly(pow2: real -> real)
    requires pow2(0.0) == 1.0
    ensures EstimateCrackTime(0.0, pow2) == LessThanASecond
  {
  }
}
