/** Wall-clock arithmetic shared by both revisions of the pain recorder.

    An instant is a naive local date-time, counted in microseconds from
    1970-01-01T00:00 (the source never attaches a time zone to the keys of
    its table). Dafny's `/` and `%` with a positive divisor round toward
    negative infinity, which is what Python's `timedelta.days` and the
    calendar fields of a `datetime` do. */
module Clock {

  type Instant = int

  const SECOND: int := 1_000_000
  const MINUTE: int := 60_000_000
  const HOUR: int := 3_600_000_000
  const DAY: int := 86_400_000_000

  /** The `minute` field of the date-time. */
  function MinuteOfHour(t: Instant): (m: int)
    ensures 0 <= m < 60
    ensures HourStart(t) + m * MINUTE <= t < HourStart(t) + (m + 1) * MINUTE
  {
    (t % HOUR) / MINUTE
  }

  /** The `hour` field of the date-time. */
  function HourOfDay(t: Instant): (h: int)
    ensures 0 <= h < 24
    ensures DayStart(t) + h * HOUR <= t < DayStart(t) + (h + 1) * HOUR
  {
    (t % DAY) / HOUR
  }

  /** Midnight at the start of the date of `t`. */
  function DayStart(t: Instant): (d: Instant)
    ensures d <= t < d + DAY && d % DAY == 0
  {
    t - t % DAY
  }

  /** The date-time with minute, second and microsecond set to zero. */
  function HourStart(t: Instant): (h: Instant)
    ensures h <= t < h + HOUR && h % HOUR == 0
  {
    t - t % HOUR
  }

  /** Minute, second and microsecond are all zero. */
  predicate OnTheHour(t: Instant) {
    t % HOUR == 0
  }

  /** `(later - earlier).days` of two date-times: whole days, floored. */
  function DaysBetween(earlier: Instant, later: Instant): (days: int)
    ensures days * DAY <= later - earlier < (days + 1) * DAY
  {
    (later - earlier) / DAY
  }

  /** How a date-time was written as text in the config file.
      MinuteForm is 'YYYY-MM-DDTHH:MM' (the form of the times in the forecast
      payload and of the times the older revision is called with); SecondForm is
      'YYYY-MM-DD HH:MM:SS', which is what `str()` of a `datetime` whose
      microsecond is zero gives. Other layouts (fractional seconds, a
      zone offset) are not modelled. */
  datatype Form = MinuteForm | SecondForm

  /** A date-time string: the instant it parses to, and its layout. */
  datatype Text = Text(at: Instant, form: Form)

  /** The key built by `text[:-5] + "23:00"` for the end of the cursor's day.
      Dropping the last five characters of a MinuteForm string leaves
      'YYYY-MM-DDT', so the key is 23:00 on the cursor's date; dropping them
      from a SecondForm string leaves 'YYYY-MM-DD HH:', so the key is minute 23
      of the cursor's own hour. */
  function EndOfDayKey(text: Text): (key: Instant)
    ensures text.form == MinuteForm ==>
      DayStart(key) == DayStart(text.at) && HourOfDay(key) == 23 && OnTheHour(key)
    ensures text.form == SecondForm ==>
      HourStart(key) == HourStart(text.at) && MinuteOfHour(key) == 23 && key % MINUTE == 0
  {
    match text.form
    case MinuteForm =>
      MinuteFormKey(text.at);
      DayStart(text.at) + 23 * HOUR
    case SecondForm =>
      SecondFormKey(text.at);
      HourStart(text.at) + 23 * MINUTE
  }

  /** 23:00 on the date of `t` is on the hour, at hour 23, on that date. */
  lemma MinuteFormKey(t: Instant)
    ensures var key := DayStart(t) + 23 * HOUR;
      DayStart(key) == DayStart(t) && HourOfDay(key) == 23 && OnTheHour(key)
  {
    var d := t / DAY;
    assert DayStart(t) == d * DAY;
    DayParts(d * DAY + 23 * HOUR, d, 23 * HOUR);
    HourParts(d * DAY + 23 * HOUR, d * 24 + 23, 0);
  }

  /** Minute 23 of the hour of `t` is a whole minute in that hour. */
  lemma SecondFormKey(t: Instant)
    ensures var key := HourStart(t) + 23 * MINUTE;
      HourStart(key) == HourStart(t) && MinuteOfHour(key) == 23 && key % MINUTE == 0
  {
    var h := t / HOUR;
    assert HourStart(t) == h * HOUR;
    HourParts(h * HOUR + 23 * MINUTE, h, 23 * MINUTE);
  }

  /** For an on-the-hour time written 'YYYY-MM-DDTHH:MM', the end-of-day key
      lies at or after it and before any time a day or more later. */
  lemma MinuteEndOfDayBetween(t: Instant, later: Instant)
    requires OnTheHour(t) && DaysBetween(t, later) > 0
    ensures t <= EndOfDayKey(Text(t, MinuteForm)) < later
  {
    var q := t % DAY;
    HourParts(q, q / HOUR, q % HOUR);
    assert q % HOUR == 0 by {
      HourParts(t, (t / DAY) * 24 + q / HOUR, q % HOUR);
    }
  }

  /** Hours and the time within the hour are the only pair that rebuilds an
      instant; the same for days. */
  lemma HourParts(a: int, q: int, r: int)
    requires a == q * HOUR + r && 0 <= r < HOUR
    ensures a / HOUR == q && a % HOUR == r
  {
  }

  lemma DayParts(a: int, q: int, r: int)
    requires a == q * DAY + r && 0 <= r < DAY
    ensures a / DAY == q && a % DAY == r
  {
  }
}
