/** The older revision of the pain recorder, the module-level functions of
    weather.py: the report time is used exactly as given, both to find its
    row and as the text stored for the cursor. */
module Legacy {
  import opened Outcomes
  import opened Clock
  import opened Ledger
  import opened LedgerProperties
  import Handler

  /** `get_prev_info`: the `previous_time` entry, or None when the parsed
      config has no such entry. A missing file raises, and so does a config
      that is not valid JSON (`get_config` returns None and the membership
      test on None raises TypeError). */
  function PrevInfo(config: Config): (r: Result<Option<Text>, Error>)
    ensures r.Ok? <==> config.Parsed?
    ensures r.Ok? ==> (r.value.None? <==> config.previousTime.None?)
    ensures r.Ok? ==> r.value == config.previousTime
    ensures config.Absent? ==> r == Err(NoConfigFile)
    ensures config.Malformed? ==> r == Err(ConfigUnreadable)
  {
    match config
    case Absent => Err(NoConfigFile)
    case Malformed => Err(ConfigUnreadable)
    case Parsed(previousTime) => Ok(previousTime)
  }

  /** `log_pain(logged_time, painlevel)`: read the cursor, then update with
      the time as given. */
  function Logged(s: Snapshot, curr: Text, level: real): (r: Result<Snapshot, Error>)
    ensures !s.config.Parsed? ==> r.Err?
    ensures s.config.Parsed? && IndexOf(s.rows, curr.at).None? ==> r == Err(NotAKey(curr.at))
    ensures r.Ok? ==> r.value.config == Parsed(Some(curr))
    ensures r.Ok? ==> SameKeysAndWeather(s.rows, r.value.rows)
  {
    match PrevInfo(s.config)
    case Err(e) => Err(e)
    case Ok(prev) => Recorded(s, curr.at, level, prev, curr)
  }

  function LoggedState(s: Snapshot, curr: Text, level: real): Snapshot {
    var o := Logged(s, curr, level);
    if o.Ok? then o.value else s
  }

  /** `update_pain(curr_time, painlevel, prev_time)`. */
  method UpdatePain(ledger: PainLedger, curr: Text, level: real, prev: Option<Text>) returns (status: Status)
    requires ledger.Valid()
    modifies ledger.rows, ledger`config
    ensures ledger.Valid()
    ensures ledger.Snap() == After(old(ledger.Snap()), curr.at, level, prev, curr)
    ensures status == StatusOf(Recorded(old(ledger.Snap()), curr.at, level, prev, curr))
  {
    status := ledger.Record(curr.at, level, prev, curr);
  }

  /** `log_pain(logged_time, painlevel)`. */
  method LogPain(ledger: PainLedger, curr: Text, level: real) returns (status: Status)
    requires ledger.Valid()
    modifies ledger.rows, ledger`config
    ensures ledger.Valid()
    ensures ledger.Snap() == LoggedState(old(ledger.Snap()), curr, level)
    ensures status == StatusOf(Logged(old(ledger.Snap()), curr, level))
  {
    var prev := PrevInfo(ledger.config);
    if prev.Err? {
      return Failed(prev.error);
    }
    status := UpdatePain(ledger, curr, level, prev.value);
  }

  /** The time is not rounded: a report off the hour matches no row and
      raises, leaving both files as they were; one that goes through leaves
      the given text, unchanged, as the cursor. */
  lemma RawTimeIsUsedAsGiven(s: Snapshot, curr: Text, level: real)
    requires Keyed(s.rows)
    ensures !OnTheHour(curr.at) ==> Logged(s, curr, level).Err? && LoggedState(s, curr, level) == s
    ensures Logged(s, curr, level).Ok? ==> Logged(s, curr, level).value.config == Parsed(Some(curr))
  {
    if Logged(s, curr, level).Ok? {
      SuccessRewritesCursor(s, curr.at, level, PrevInfo(s.config).value, curr);
    }
  }

  /** First recording: only the row of the given time changes, to the level,
      and the cursor becomes the given text. */
  lemma FirstLegacyReport(s: Snapshot, curr: Text, level: real, pos: nat)
    requires Keyed(s.rows) && pos < |s.rows| && s.rows[pos].time == curr.at
    requires s.config == Parsed(None)
    ensures Logged(s, curr, level).Ok?
    ensures var r := LoggedState(s, curr, level);
      r.config == Parsed(Some(curr)) &&
      r.rows[pos].pain == level && UnchangedOutside(s.rows, r.rows, pos, pos)
  {
    FirstReport(s, level, curr, pos);
  }

  /** With a 'YYYY-MM-DDTHH:MM' cursor, a report a day or more later holds the
      previous level from the cursor's row through 23:00 of the cursor's date,
      writes the new level only at its own row, and leaves the rows in the gap
      after that 23:00 untouched. */
  lemma MinuteCursorBackfill(s: Snapshot, curr: Text, level: real, p: Text, startPos: nat, eodPos: nat, endPos: nat)
    requires Keyed(s.rows) && startPos < |s.rows| && eodPos < |s.rows| && endPos < |s.rows|
    requires s.config == Parsed(Some(p)) && p.form == MinuteForm
    requires s.rows[startPos].time == p.at && s.rows[endPos].time == curr.at
    requires DayStart(s.rows[eodPos].time) == DayStart(p.at) && HourOfDay(s.rows[eodPos].time) == 23
    requires DaysBetween(p.at, curr.at) > 0
    ensures Logged(s, curr, level).Ok?
    ensures var r := LoggedState(s, curr, level);
      r.config == Parsed(Some(curr)) &&
      r.rows[endPos].pain == level &&
      (forall i :: startPos <= i <= eodPos ==> r.rows[i].pain == s.rows[startPos].pain) &&
      (forall i :: eodPos < i < endPos ==> r.rows[i] == s.rows[i]) &&
      (forall i :: 0 <= i < startPos || endPos < i < |s.rows| ==> r.rows[i] == s.rows[i])
  {
    var eod := s.rows[eodPos].time;
    assert eod == EndOfDayKey(p) by {
      assert OnTheHour(eod);
      assert eod == DayStart(eod) + 23 * HOUR + eod % HOUR by {
        assert eod % DAY == 23 * HOUR + (eod % DAY) % HOUR;
        HourParts(eod, (eod / DAY) * 24 + 23, (eod % DAY) % HOUR);
      }
    }
    MinuteCursorEndOfDay(s, p, startPos, eodPos, endPos);
    BackfillBranch(s, level, p, curr, startPos, eodPos, endPos);
  }

  /** Less than a day after the cursor, rows `startPos..endPos` get the
      rounded ramp `round(prev_pain - delta_pain * (i - startPos), 1)`, the
      cursor becomes the given text, and no other row changes. */
  lemma LegacyInterpolation(s: Snapshot, curr: Text, level: real, p: Text, startPos: nat, endPos: nat)
    requires Keyed(s.rows) && startPos < |s.rows| && endPos < |s.rows|
    requires s.config == Parsed(Some(p))
    requires s.rows[startPos].time == p.at && s.rows[endPos].time == curr.at
    requires DaysBetween(p.at, curr.at) <= 0
    ensures Logged(s, curr, level).Ok?
    ensures var r := LoggedState(s, curr, level);
      var prevPain := s.rows[startPos].pain;
      var step := PainMath.Step(prevPain, level, startPos, endPos);
      r.config == Parsed(Some(curr)) &&
      UnchangedOutside(s.rows, r.rows, startPos, endPos) &&
      forall i :: startPos <= i <= endPos ==> r.rows[i].pain == PainMath.RampLevel(prevPain, step, i - startPos)
  {
    InterpolationBranch(s, level, p, curr, startPos, endPos);
  }

  /** On an on-the-hour report time and a readable config, the two revisions
      write the same table and differ only in the text of the new cursor;
      on an unreadable config both leave the files unchanged. */
  lemma RevisionsAgreeOnTable(s: Snapshot, curr: Text, level: real)
    requires OnTheHour(curr.at)
    ensures !s.config.Parsed? ==> Logged(s, curr, level).Err? && Handler.Logged(s, curr.at, level).Err?
    ensures Logged(s, curr, level).Ok? <==> Handler.Logged(s, curr.at, level).Ok?
    ensures Logged(s, curr, level).Ok? ==>
      Logged(s, curr, level).value.rows == Handler.Logged(s, curr.at, level).value.rows
  {
    Handler.CleanTimestampIdempotent(curr.at);
  }
}
