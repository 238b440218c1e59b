/** The current revision of the pain recorder, `WeatherHandler` in
    WeatherHandler.py: a report time is first rounded to the hour, and the
    cursor is stored as `str()` of that rounded `datetime`. */
module Handler {
  import opened Outcomes
  import opened Clock
  import opened Ledger
  import opened LedgerProperties

  /** `_clean_timestamp`: add an hour when the minute is 30 or more, then clear
      minute, second and microsecond. */
  function CleanTimestamp(t: Instant): (r: Instant)
    ensures OnTheHour(r)
    ensures MinuteOfHour(t) < 30 ==> r == HourStart(t)
    ensures MinuteOfHour(t) >= 30 ==> r == HourStart(t) + HOUR
  {
    var ts := if MinuteOfHour(t) >= 30 then t + HOUR else t;
    assert (t + HOUR) % HOUR == t % HOUR;
    HourStart(ts)
  }

  /** The rounded time is the nearest hour, a half hour going up. */
  lemma CleanTimestampNearest(t: Instant)
    ensures CleanTimestamp(t) - 30 * MINUTE <= t < CleanTimestamp(t) + 30 * MINUTE
  {
  }

  /** An on-the-hour time is already clean, so cleaning twice is cleaning once. */
  lemma CleanTimestampIdempotent(t: Instant)
    ensures OnTheHour(t) ==> CleanTimestamp(t) == t
    ensures CleanTimestamp(CleanTimestamp(t)) == CleanTimestamp(t)
  {
  }

  /** From 23:30 on, a report belongs to midnight of the next date. */
  lemma CleanTimestampRollsOverMidnight(t: Instant)
    requires HourOfDay(t) == 23 && MinuteOfHour(t) >= 30
    ensures CleanTimestamp(t) == DayStart(t) + DAY
    ensures HourOfDay(CleanTimestamp(t)) == 0
  {
    var d, r := t / DAY, t % DAY;
    var q := r % HOUR;
    assert r == 23 * HOUR + q;
    assert t == (d * 24 + 23) * HOUR + q;
    HourParts(t, d * 24 + 23, q);
    assert CleanTimestamp(t) == (d + 1) * DAY;
    DayParts(CleanTimestamp(t), d + 1, 0);
    HourParts(CleanTimestamp(t), (d + 1) * 24, 0);
  }


  /** `_get_previous_timestamp`: the `previous_time` entry of the config, or
      None when the file is not valid JSON or has no such entry; a missing
      file raises. */
  function PreviousTimestamp(config: Config): (r: Result<Option<Text>, Error>)
    ensures r.Err? <==> config.Absent?
    ensures r.Err? ==> r.error == NoConfigFile
    ensures r.Ok? ==> (r.value.Some? <==> config.Parsed? && config.previousTime.Some?)
    ensures config.Parsed? ==> r == Ok(config.previousTime)
  {
    match config
    case Absent => Err(NoConfigFile)
    case Malformed => Ok(None)
    case Parsed(previousTime) => Ok(previousTime)
  }

  /** `str(timestamp)` of a `datetime` whose microsecond is zero. */
  function Stored(t: Instant): (r: Text)
    ensures r.at == t && r.form == SecondForm
    ensures EndOfDayKey(r) == HourStart(t) + 23 * MINUTE && !OnTheHour(EndOfDayKey(r))
  {
    Text(t, SecondForm)
  }

  /** `log_pain(raw, level)`: read the cursor, round the time, update. */
  function Logged(s: Snapshot, raw: Instant, level: real): (r: Result<Snapshot, Error>)
    ensures s.config.Absent? ==> r == Err(NoConfigFile)
    ensures !s.config.Absent? && IndexOf(s.rows, CleanTimestamp(raw)).None? ==>
      r == Err(NotAKey(CleanTimestamp(raw)))
    ensures r.Ok? ==> s.config.Parsed?
    ensures r.Ok? ==> r.value.config == Parsed(Some(Stored(CleanTimestamp(raw))))
    ensures r.Ok? ==> SameKeysAndWeather(s.rows, r.value.rows)
  {
    match PreviousTimestamp(s.config)
    case Err(e) => Err(e)
    case Ok(prev) =>
      var clean := CleanTimestamp(raw);
      Recorded(s, clean, level, prev, Stored(clean))
  }

  function LoggedState(s: Snapshot, raw: Instant, level: real): Snapshot {
    var o := Logged(s, raw, level);
    if o.Ok? then o.value else s
  }

  /** `update_pain(timestamp, level, prev)` on a rounded time. */
  method UpdatePain(ledger: PainLedger, timestamp: Instant, level: real, prev: Option<Text>) returns (status: Status)
    requires ledger.Valid()
    modifies ledger.rows, ledger`config
    ensures ledger.Valid()
    ensures ledger.Snap() == After(old(ledger.Snap()), timestamp, level, prev, Stored(timestamp))
    ensures status == StatusOf(Recorded(old(ledger.Snap()), timestamp, level, prev, Stored(timestamp)))
  {
    status := ledger.Record(timestamp, level, prev, Stored(timestamp));
  }

  /** `log_pain(timestamp, level)`. */
  method LogPain(ledger: PainLedger, raw: Instant, level: real) returns (status: Status)
    requires ledger.Valid()
    modifies ledger.rows, ledger`config
    ensures ledger.Valid()
    ensures ledger.Snap() == LoggedState(old(ledger.Snap()), raw, level)
    ensures status == StatusOf(Logged(old(ledger.Snap()), raw, level))
  {
    var prev := PreviousTimestamp(ledger.config);
    if prev.Err? {
      return Failed(prev.error);
    }
    var clean := CleanTimestamp(raw);
    status := UpdatePain(ledger, clean, level, prev.value);
  }

  /** A report is filed under the row of its rounded hour, and a report that
      goes through leaves that rounded time, written with seconds, as the
      cursor. */
  lemma ReportUsesCleanTime(s: Snapshot, raw: Instant, level: real)
    requires Keyed(s.rows)
    ensures IndexOf(s.rows, CleanTimestamp(raw)).None? ==> Logged(s, raw, level).Err?
    ensures Logged(s, raw, level).Ok? ==>
      Logged(s, raw, level).value.config == Parsed(Some(Text(CleanTimestamp(raw), SecondForm))) &&
      Keyed(Logged(s, raw, level).value.rows)
  {
    var o := Logged(s, raw, level);
    if o.Ok? {
      var prev := PreviousTimestamp(s.config).value;
      SuccessRewritesCursor(s, CleanTimestamp(raw), level, prev, Stored(CleanTimestamp(raw)));
    }
  }

  /** First-ever report: the row of the rounded hour gets the level, no other
      row changes, and the cursor becomes the rounded time. */
  lemma FirstHandlerReport(s: Snapshot, raw: Instant, level: real, pos: nat)
    requires Keyed(s.rows) && pos < |s.rows| && s.rows[pos].time == CleanTimestamp(raw)
    requires s.config == Parsed(None)
    ensures Logged(s, raw, level).Ok?
    ensures var r := LoggedState(s, raw, level);
      r.config == Parsed(Some(Stored(CleanTimestamp(raw)))) &&
      r.rows[pos].pain == level && UnchangedOutside(s.rows, r.rows, pos, pos)
  {
    FirstReport(s, level, Stored(CleanTimestamp(raw)), pos);
  }

  /** Because this revision writes its cursor as 'YYYY-MM-DD HH:MM:SS', the
      end-of-day key it builds from it is never a key: every report a day or
      more after one of its own raises and leaves both files unchanged. */
  lemma OwnCursorNeverBackfills(s: Snapshot, raw: Instant, level: real, p: Instant)
    requires Keyed(s.rows) && s.config == Parsed(Some(Stored(p)))
    requires DaysBetween(p, CleanTimestamp(raw)) > 0
    ensures Logged(s, raw, level).Err?
    ensures LoggedState(s, raw, level) == s
  {
    var clean := CleanTimestamp(raw);
    SecondCursorCannotBackfill(s, clean, level, Stored(p), Stored(clean));
  }

  /** So after any report that goes through, every later report a day or
      more on fails. */
  lemma NoBackfillAfterOwnReport(s: Snapshot, raw1: Instant, level1: real, raw2: Instant, level2: real)
    requires Keyed(s.rows) && Logged(s, raw1, level1).Ok?
    requires DaysBetween(CleanTimestamp(raw1), CleanTimestamp(raw2)) > 0
    ensures Logged(Logged(s, raw1, level1).value, raw2, level2).Err?
  {
    ReportUsesCleanTime(s, raw1, level1);
    OwnCursorNeverBackfills(Logged(s, raw1, level1).value, raw2, level2, CleanTimestamp(raw1));
  }
}
