/** Hand-angle arithmetic of the T10 watch face.
    Angles are integers in the Pebble SDK's unit, where TRIG_MAX_ANGLE is one
    full clockwise turn starting from 12 o'clock (the top of the display). */
module Angles {

  /** TRIG_MAX_ANGLE of the Pebble SDK: the angle of one full turn. */
  const TRIG_MAX_ANGLE := 0x10000

  /** The range of a 32-bit C `int`. */
  predicate FitsInt32(x: int) {
    -0x8000_0000 <= x < 0x8000_0000
  }

  /** C's `/` on `int` with a positive divisor: the quotient is truncated
      toward zero, so the remainder takes the sign of the dividend. */
  function CDiv(a: int, b: int): (q: int)
    requires b > 0
    ensures 0 <= a ==> 0 <= a - q * b < b
    ensures a < 0 ==> -b < a - q * b <= 0
  {
    if a >= 0 then a / b else -((-a) / b)
  }

  /** The time-of-day record (Pebble's PblTm, a C `struct tm`) that the tick
      event delivers. Only hour, minute and second drive the hands; the
      calendar fields feed the date text. */
  datatype Time = Time(sec: int, min: int, hour: int, mday: int, mon: int,
                       year: int, wday: int, yday: int, isdst: int)

  /** The ranges the platform delivers for the three clock fields. */
  predicate ValidTime(t: Time) {
    0 <= t.hour < 24 && 0 <= t.min < 60 && 0 <= t.sec < 60
  }

  /** Minutes elapsed since midnight. */
  function MinuteOfDay(hour: int, min: int): int {
    hour * 60 + min
  }

  /** Hour hand on a 24-hour dial: one revolution per day. */
  function HourAngle(hour: int, min: int): (r: int)
    ensures 0 <= hour < 24 && 0 <= min < 60 ==> 0 <= r < TRIG_MAX_ANGLE
  {
    CDiv((hour * 60 + min) * TRIG_MAX_ANGLE, 60 * 24)
  }

  /** Minute hand: one revolution per hour, moving in whole-minute steps. */
  function MinuteAngle(min: int): (r: int)
    ensures 0 <= min < 60 ==> 0 <= r < TRIG_MAX_ANGLE
  {
    CDiv(min * TRIG_MAX_ANGLE, 60)
  }

  /** Second hand: one revolution per minute. */
  function SecondAngle(sec: int): (r: int)
    ensures 0 <= sec < 60 ==> 0 <= r < TRIG_MAX_ANGLE
  {
    CDiv(sec * TRIG_MAX_ANGLE, 60)
  }

  /** For non-negative dividends C's division and Dafny's agree. */
  lemma CDivOfNatural(a: int, b: int)
    requires a >= 0 && b > 0
    ensures CDiv(a, b) == a / b
  {
  }

  /** The hour angle is strictly increasing in the minute of the day. Read
      with the range ensured by HourAngle, the hand passes every angle it
      shows exactly once per day. */
  lemma HourAngleStrictlyIncreasing(h1: int, m1: int, h2: int, m2: int)
    requires 0 <= h1 < 24 && 0 <= m1 < 60
    requires 0 <= h2 < 24 && 0 <= m2 < 60
    requires MinuteOfDay(h1, m1) < MinuteOfDay(h2, m2)
    ensures HourAngle(h1, m1) < HourAngle(h2, m2)
  {
  }

  /** The minute angle is strictly increasing over one hour. */
  lemma MinuteAngleStrictlyIncreasing(m1: int, m2: int)
    requires 0 <= m1 < m2 < 60
    ensures MinuteAngle(m1) < MinuteAngle(m2)
  {
  }

  /** The hour hand starts at 0 at midnight, and the same expression at 24:00
      reaches exactly one full turn: one revolution per day. Midnight of the
      next day therefore shows the same angle as 00:00 modulo a turn. */
  lemma HourHandOneRevolutionPerDay()
    ensures HourAngle(0, 0) == 0
    ensures HourAngle(24, 0) == TRIG_MAX_ANGLE
    ensures HourAngle(23, 59) < TRIG_MAX_ANGLE
  {
  }

  /** The minute hand is at 0 on the hour and just short of a full turn at
      minute 59; minute 60 would complete the turn. */
  lemma MinuteHandOneRevolutionPerHour()
    ensures MinuteAngle(0) == 0
    ensures MinuteAngle(59) == TRIG_MAX_ANGLE - TRIG_MAX_ANGLE / 60 - 1
    ensures MinuteAngle(60) == TRIG_MAX_ANGLE
  {
  }

  /** The second hand uses the minute hand's formula on the seconds field. */
  lemma SecondAngleIsMinuteAngle(k: int)
    ensures SecondAngle(k) == MinuteAngle(k)
  {
  }

  /** The quarter days put the hour hand on the quarter turns. */
  lemma HourHandQuarterDays()
    ensures HourAngle(0, 0) == 0
    ensures HourAngle(6, 0) == TRIG_MAX_ANGLE / 4
    ensures HourAngle(12, 0) == TRIG_MAX_ANGLE / 2
    ensures HourAngle(18, 0) == 3 * TRIG_MAX_ANGLE / 4
  {
  }

  /** At 12:30 the hour hand is half a turn plus one 48th of a turn, and the
      minute hand is half a turn. */
  lemma HalfPastNoon()
    ensures HourAngle(12, 30) == TRIG_MAX_ANGLE / 2 + TRIG_MAX_ANGLE / 48
    ensures MinuteAngle(30) == TRIG_MAX_ANGLE / 2
  {
  }

  /** A minute count times TRIG_MAX_ANGLE fits a 32-bit `int` exactly when
      the count lies in [-32768, 32768). */
  lemma ScaledMinutesFitInt32(m: int)
    ensures FitsInt32(m * TRIG_MAX_ANGLE) <==> -0x8000 <= m < 0x8000
  {
  }

  /** For every time the platform delivers, every intermediate value of the
      three angle expressions fits a 32-bit `int`, so none overflows. */
  lemma AngleArithmeticFitsInt32(t: Time)
    requires ValidTime(t)
    ensures FitsInt32(t.hour * 60) && FitsInt32(MinuteOfDay(t.hour, t.min))
    ensures FitsInt32(MinuteOfDay(t.hour, t.min) * TRIG_MAX_ANGLE)
    ensures FitsInt32(t.min * TRIG_MAX_ANGLE) && FitsInt32(t.sec * TRIG_MAX_ANGLE)
  {
    ScaledMinutesFitInt32(MinuteOfDay(t.hour, t.min));
    ScaledMinutesFitInt32(t.min);
    ScaledMinutesFitInt32(t.sec);
  }
}
