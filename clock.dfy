// Instants and their text forms. An instant is a whole number of seconds since Go's zero time,
// 0001-01-01 00:00:00 UTC, which was a Monday; all calendar reasoning is in UTC.
module Clock {
  import opened Wrappers
  import Strconv

  type Time = int

  /** models.NOT_COMPLETED, the zero time.Time. */
  const NotCompleted: Time := 0

  const SecondsPerDay: int := 86400

  predicate IsZero(t: Time) { t == NotCompleted }

  /** The start of the day that holds `t`. */
  function Midnight(t: Time): (m: Time)
    ensures m <= t < m + SecondsPerDay
    ensures m % SecondsPerDay == 0
  {
    t - t % SecondsPerDay
  }

  /** time.Time.AddDate(0, 0, n) in UTC. */
  function AddDays(t: Time, n: int): (r: Time)
    ensures r - t == n * SecondsPerDay
  {
    t + n * SecondsPerDay
  }

  /** time.Weekday: 0 is Sunday, 1 is Monday, and the zero time is a Monday. */
  function Weekday(t: Time): (w: int)
    ensures 0 <= w < 7
  {
    (t / SecondsPerDay + 1) % 7
  }

  lemma WeekdayNextDay(t: Time)
    ensures Weekday(AddDays(t, 1)) == (Weekday(t) + 1) % 7
  {
    assert (t + SecondsPerDay) / SecondsPerDay == t / SecondsPerDay + 1;
  }

  /** Text of an instant in the store (a stand-in for the layout "2006-01-02 15:04:05"). */
  function FormatTime(t: Time): string { Strconv.Itoa(t) }

  function ParseTime(s: string): Option<Time> { Strconv.ParseDecimal(s) }

  /** Text of a day (a stand-in for the layout "2006-01-02"): the day number of `t`. */
  function FormatDate(t: Time): string { Strconv.Itoa(t / SecondsPerDay) }

  /** time.Parse with the date layout: the midnight that starts the named day. */
  function ParseDate(s: string): (r: Option<Time>)
    ensures r.Some? ==> r.value % SecondsPerDay == 0
  {
    match Strconv.ParseDecimal(s)
    case Some(d) => Some(d * SecondsPerDay)
    case None => None
  }

  /** The text the store writes for a zero date: the zero time formatted as a date. */
  const ZeroDateText: string := FormatDate(NotCompleted)

  lemma ParseFormatTime(t: Time)
    ensures ParseTime(FormatTime(t)) == Some(t)
  {
    Strconv.ParseItoa(t);
  }

  /** A date keeps its day and loses its time of day. */
  lemma ParseFormatDate(t: Time)
    ensures ParseDate(FormatDate(t)) == Some(Midnight(t))
  {
    Strconv.ParseItoa(t / SecondsPerDay);
  }

  lemma ParseZeroDate()
    ensures ParseDate(ZeroDateText) == Some(NotCompleted)
  {
    ParseFormatDate(NotCompleted);
  }
}
