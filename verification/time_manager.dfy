/** Day boundaries and minute/millisecond conversions (TimeManager.kt). */
module TimeManager {
  import opened Kotlin

  const MILLIS_PER_MINUTE: int := 60 * 1000
  const MINUTES_PER_HOUR: int := 60

  /**
   * The daily limit is due for a reset when the last reset happened before today's
   * midnight. The midnight is an input: computing it from the calendar is platform work.
   */
  predicate ShouldResetDailyLimit(lastResetDate: int, todayStart: int)
  {
    lastResetDate < todayStart
  }

  /** `minutesToMillis`: an `Int` widened to `Long` and multiplied; it never overflows. */
  function MinutesToMillis(minutes: int): (millis: int)
    requires IsInt(minutes)
    ensures IsLong(millis)
    ensures minutes >= 0 ==> millis >= 0
  {
    minutes * MILLIS_PER_MINUTE
  }

  /**
   * `millisToMinutes`: truncating `Long` division, then `toInt()`, which keeps the low 32 bits.
   * For every duration whose minute count fits an `Int` this is plain division.
   */
  function MillisToMinutes(millis: int): (minutes: int)
    ensures IsInt(minutes)
    ensures 0 <= millis && millis / MILLIS_PER_MINUTE <= INT_MAX ==> minutes == millis / MILLIS_PER_MINUTE
    ensures 0 <= millis ==> 0 <= millis / MILLIS_PER_MINUTE <= INT_MAX ==> minutes >= 0
  {
    ToInt(DivTrunc(millis, MILLIS_PER_MINUTE))
  }

  /** Converting whole minutes to milliseconds and back gives the minutes again, for every `Int`. */
  lemma MillisToMinutesRoundTrip(minutes: int)
    requires IsInt(minutes)
    ensures MillisToMinutes(MinutesToMillis(minutes)) == minutes
  {
    var ms := MinutesToMillis(minutes);
    if minutes >= 0 {
      assert ms / MILLIS_PER_MINUTE == minutes;
    } else {
      assert -ms == (-minutes) * MILLIS_PER_MINUTE;
      assert (-ms) / MILLIS_PER_MINUTE == -minutes;
    }
  }

  /** More milliseconds never give fewer minutes, while the minute count fits an `Int`. */
  lemma MillisToMinutesMonotone(a: int, b: int)
    requires 0 <= a <= b
    requires b / MILLIS_PER_MINUTE <= INT_MAX
    ensures MillisToMinutes(a) <= MillisToMinutes(b)
  {
  }

  /** The hours and minutes `formatMinutes` shows for a minute count. */
  datatype HoursMinutes = HoursMinutes(hours: int, mins: int)

  /** `val hours = minutes / 60; val mins = minutes % 60` with Kotlin's truncating operators. */
  function SplitMinutes(minutes: int): (r: HoursMinutes)
    ensures r.hours * MINUTES_PER_HOUR + r.mins == minutes
    ensures minutes >= 0 ==> 0 <= r.mins < MINUTES_PER_HOUR && r.hours == minutes / MINUTES_PER_HOUR
    ensures minutes < 0 ==> -MINUTES_PER_HOUR < r.mins <= 0 && r.hours <= 0
  {
    HoursMinutes(DivTrunc(minutes, MINUTES_PER_HOUR), RemTrunc(minutes, MINUTES_PER_HOUR))
  }

  /** The three localised string templates `formatMinutes` chooses between, with their arguments. */
  datatype TimeText =
    | HoursAndMinutesText(hours: int, mins: int)
    | HoursOnlyText(hours: int)
    | MinutesOnlyText(mins: int)

  /** The number of minutes a rendered text denotes. */
  function Denoted(t: TimeText): int
  {
    match t
    case HoursAndMinutesText(h, m) => h * MINUTES_PER_HOUR + m
    case HoursOnlyText(h) => h * MINUTES_PER_HOUR
    case MinutesOnlyText(m) => m
  }

  /** `formatMinutes`: both parts when both are positive, hours alone on a whole hour, else minutes alone. */
  function FormatMinutes(minutes: int): (t: TimeText)
    ensures minutes >= 0 ==> Denoted(t) == minutes
  {
    var s := SplitMinutes(minutes);
    if s.hours > 0 && s.mins > 0 then HoursAndMinutesText(s.hours, s.mins)
    else if s.hours > 0 then HoursOnlyText(s.hours)
    else MinutesOnlyText(s.mins)
  }

  /** Which template a non-negative minute count gets; zero is shown as "0 minutes". */
  lemma FormatMinutesChoice(minutes: int)
    requires minutes >= 0
    ensures FormatMinutes(minutes).HoursAndMinutesText? <==> minutes >= 60 && minutes % 60 != 0
    ensures FormatMinutes(minutes).HoursOnlyText? <==> minutes >= 60 && minutes % 60 == 0
    ensures FormatMinutes(minutes).MinutesOnlyText? <==> minutes < 60
    ensures minutes == 0 ==> FormatMinutes(minutes) == MinutesOnlyText(0)
  {
  }
}
