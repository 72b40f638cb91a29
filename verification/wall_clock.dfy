/** Conversion of a wall-clock duration in hours into the whole hours and
    minutes the pages display: total minutes are `Math.floor(hours * 60)`,
    hours are `Math.floor(minutes / 60)` and minutes are `minutes % 60` with
    JavaScript's remainder operator. */
module WallClock {

  /** The "hh hr mm min" pair shown to the user. */
  datatype HoursMinutes = HoursMinutes(hours: int, minutes: int)

  /** JavaScript's `%` on integers, for the positive divisors the pages use.
      Unlike Dafny's `%`, whose remainder is never negative, the result takes
      the sign of the dividend: the dividend minus the remainder is a whole
      multiple of the divisor. */
  function JsRem(a: int, b: int): (r: int)
    requires b > 0
    ensures (a - r) % b == 0
    ensures a >= 0 ==> 0 <= r < b
    ensures a < 0 ==> -b < r <= 0
  {
    RemainderLeavesMultiple(a, b);
    if a >= 0 then a % b else -((-a) % b)
  }

  /** Both the non-negative and the sign-following remainder leave a whole
      multiple of the divisor behind. */
  lemma RemainderLeavesMultiple(a: int, b: int)
    requires b > 0
    ensures (a - a % b) % b == 0
    ensures (a + (-a) % b) % b == 0
  {
    var q := a / b;
    assert a - a % b == q * b;
    MultipleMod(q, b);
    var p := (-a) / b;
    assert -a == p * b + (-a) % b;
    assert a + (-a) % b == (-p) * b;
    MultipleMod(-p, b);
  }

  lemma MultipleMod(k: int, b: int)
    requires b > 0
    ensures (k * b) % b == 0
  {
    var q, r := (k * b) / b, (k * b) % b;
    assert k * b == q * b + r && 0 <= r < b;
    assert r == (k - q) * b;
    NonZeroMultiple(k - q, b);
  }

  /** A non-zero whole multiple of `b` is at least `b` away from zero. */
  lemma NonZeroMultiple(d: int, b: int)
    requires b > 0
    ensures d >= 1 ==> d * b >= b
    ensures d <= -1 ==> d * b <= -b
  {
  }

  /** `Math.floor(wallHours * 60)`: whole minutes, dropping any fraction. */
  function TotalMinutes(wallHours: real): (m: int)
    ensures m as real <= wallHours * 60.0 < m as real + 1.0
    ensures wallHours >= 0.0 ==> m >= 0
  {
    (wallHours * 60.0).Floor
  }

  /** `hh = Math.floor(m / 60)` and `mm = m % 60`. For a non-negative minute
      count this is the usual hours-and-minutes decomposition. */
  function Split(m: int): (t: HoursMinutes)
    ensures m >= 0 ==> t.hours >= 0 && 0 <= t.minutes < 60 && t.hours * 60 + t.minutes == m
    ensures m < 0 ==> t.hours < 0 && -60 < t.minutes <= 0
  {
    HoursMinutes((m as real / 60.0).Floor, JsRem(m, 60))
  }

  /** The hours-and-minutes display of a wall-clock duration. For a
      non-negative duration the displayed time, read back as minutes, is the
      duration truncated to whole minutes. */
  function Display(wallHours: real): (t: HoursMinutes)
    ensures wallHours >= 0.0 ==> t.hours >= 0 && 0 <= t.minutes < 60
    ensures wallHours >= 0.0 ==>
      (t.hours * 60 + t.minutes) as real <= wallHours * 60.0 < (t.hours * 60 + t.minutes + 1) as real
  {
    Split(TotalMinutes(wallHours))
  }

  /** `Math.floor` on the real quotient agrees with Dafny's integer division
      by 60, whatever the sign of the minute count. */
  lemma FloorDivAgrees(m: int)
    ensures (m as real / 60.0).Floor == m / 60
  {
  }

  /** The non-negative guard on the decomposition matters: the JavaScript
      remainder of a negative count does not recombine with the floored hours. */
  lemma NegativeMinutesDoNotRecombine()
    ensures Split(-1) == HoursMinutes(-1, -1)
    ensures Split(-1).hours * 60 + Split(-1).minutes != -1
  {
  }
}
