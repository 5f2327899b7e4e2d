// Foundations shared by every part of the model: optional values, the
// JavaScript number operations the components use, and the calendar.

module Wrappers {
  /** An optional value: `null`/`undefined`, a falsy query parameter, a failed fetch. */
  datatype Option<+T> = None | Some(value: T)
}

/**
 * JavaScript numbers as far as the components need them. Values are exact
 * reals; the only floating-point behaviour kept is what a division by zero
 * produces, because several percentages in the source divide without a guard.
 */
module JsNum {

  datatype JsNumber = Finite(value: real) | PosInf | NegInf | NaN

  /** `Math.round`: the nearest integer, a half rounded up (towards +infinity). */
  function Round(x: real): (r: int)
    ensures r as real - 1.0 / 2.0 <= x < r as real + 1.0 / 2.0
  {
    (x + 1.0 / 2.0).Floor
  }

  /** `Math.floor`: the greatest integer not above `x`. */
  function Floor(x: real): (r: int)
    ensures r as real <= x < r as real + 1.0
  {
    x.Floor
  }

  /** `a / b` on numbers: x/0 is +-Infinity, and 0/0 is NaN. */
  function Div(a: real, b: real): (r: JsNumber)
    ensures r.Finite? <==> b != 0.0
    ensures b != 0.0 ==> r.value * b == a
    ensures r.NaN? <==> b == 0.0 && a == 0.0
    ensures r.PosInf? <==> b == 0.0 && a > 0.0
  {
    if b != 0.0 then Finite(a / b)
    else if a > 0.0 then PosInf
    else if a < 0.0 then NegInf
    else NaN
  }

  /** `x * k` for a positive constant `k` (the `* 100` of every percentage). */
  function Scale(x: JsNumber, k: real): (r: JsNumber)
    requires k > 0.0
    ensures r.Finite? == x.Finite? && r.NaN? == x.NaN?
    ensures r.PosInf? == x.PosInf? && r.NegInf? == x.NegInf?
    ensures x.Finite? ==> r.value == x.value * k
  {
    match x
    case Finite(v) => Finite(v * k)
    case _ => x
  }

  /** `Math.round` on a number: infinities and NaN are returned unchanged. */
  function RoundNumber(x: JsNumber): (r: JsNumber)
    ensures r.Finite? <==> x.Finite?
    ensures !x.Finite? ==> r == x
    ensures x.Finite? ==> r.value == Round(x.value) as real
  {
    match x
    case Finite(v) => Finite(Round(v) as real)
    case _ => x
  }

  /** `Math.min(x, c)`: NaN wins, +Infinity loses, -Infinity wins. */
  function Min(x: JsNumber, c: real): (r: JsNumber)
    ensures r.NaN? <==> x.NaN?
    ensures r.Finite? ==> r.value <= c
    ensures x.Finite? ==> r.Finite? && (r.value == x.value || r.value == c) && r.value <= x.value
    ensures x.PosInf? ==> r == Finite(c)
    ensures x.NegInf? ==> r == NegInf
  {
    match x
    case Finite(v) => Finite(if v <= c then v else c)
    case PosInf => Finite(c)
    case NegInf => NegInf
    case NaN => NaN
  }

  /** `x >= c`: false for NaN, whatever `c` is. */
  predicate AtLeast(x: JsNumber, c: real)
  {
    match x
    case Finite(v) => v >= c
    case PosInf => true
    case _ => false
  }
}

/**
 * Calendar arithmetic. An instant is a count of milliseconds since the epoch
 * (UTC); a day is a count of days since 1970-01-01, which was a Thursday. The
 * local time zone is a fixed offset `tz` in milliseconds (no daylight saving).
 * A `yyyy-MM-dd` string names exactly one day, so days stand for those strings.
 */
module Calendar {

  const MsPerDay: int := 86400000

  /** The local calendar day of an instant (`format(t, 'yyyy-MM-dd')`). */
  function LocalDay(t: int, tz: int): int
  {
    (t + tz) / MsPerDay
  }

  /** The UTC calendar day of an instant (`t.toISOString().split('T')[0]`). */
  function UtcDay(t: int): int
  {
    t / MsPerDay
  }

  /** `startOfDay`: the first millisecond of local day `d`. */
  function StartOfLocalDay(d: int, tz: int): int
  {
    d * MsPerDay - tz
  }

  /** `endOfDay`: the last millisecond of local day `d`. */
  function EndOfLocalDay(d: int, tz: int): int
  {
    (d + 1) * MsPerDay - tz - 1
  }

  /** An instant lies between the first and the last millisecond of a local day exactly when it is on that day. */
  lemma InLocalDay(t: int, d: int, tz: int)
    ensures StartOfLocalDay(d, tz) <= t <= EndOfLocalDay(d, tz) <==> LocalDay(t, tz) == d
  {
    var q := (t + tz) / MsPerDay;
    assert q * MsPerDay <= t + tz < q * MsPerDay + MsPerDay;
  }

  /** Moving an instant `k` whole days back moves its local day `k` days back (`subDays`). */
  lemma LocalDayShift(t: int, k: int, tz: int)
    ensures LocalDay(t - k * MsPerDay, tz) == LocalDay(t, tz) - k
  {
    var q := LocalDay(t, tz);
    assert q * MsPerDay <= t + tz < q * MsPerDay + MsPerDay;
    assert (q - k) * MsPerDay == q * MsPerDay - k * MsPerDay;
    InLocalDay(t - k * MsPerDay, q - k, tz);
  }

  /** Day of the week, Monday = 0 … Sunday = 6. */
  function Weekday(d: int): (w: int)
    ensures 0 <= w < 7
  {
    (d + 3) % 7
  }

  /** `startOfWeek(d, { weekStartsOn: 1 })`: the Monday of the week containing `d`. */
  function StartOfWeek(d: int): (m: int)
    ensures m <= d < m + 7
    ensures Weekday(m) == 0
  {
    var m := d - Weekday(d);
    assert (m + 3) % 7 == 0 by {
      var w := (d + 3) % 7;
      assert d + 3 == (d + 3) / 7 * 7 + w;
      assert m + 3 == (d + 3) / 7 * 7;
    }
    m
  }

  /** The days of a week starting on Monday `m` have weekdays 0 … 6, in order. */
  lemma WeekdayInWeek(m: int, i: int)
    requires Weekday(m) == 0 && 0 <= i < 7
    ensures Weekday(m + i) == i
  {
    assert m + 3 == (m + 3) / 7 * 7;
    assert m + i + 3 == (m + 3) / 7 * 7 + i;
  }
}
