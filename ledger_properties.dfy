/** What a single report does to the ledger, branch by branch, proved about
    the reference definition `Ledger.Recorded` that `PainLedger.Record`
    implements. Positions are given as rows whose keys are the report's and
    the cursor's times. */
module LedgerProperties {
  import opened Outcomes
  import opened Clock
  import opened PainMath
  import opened Ledger

  /** Rows outside `lo..hi` are exactly as they were. */
  ghost predicate UnchangedOutside(a: seq<Row>, b: seq<Row>, lo: int, hi: int) {
    |a| == |b| && forall i :: 0 <= i < |a| && !(lo <= i <= hi) ==> b[i] == a[i]
  }

  /** In a keyed table a row's key is found at that row. */
  lemma IndexOfRow(rows: seq<Row>, pos: nat)
    requires Keyed(rows) && pos < |rows|
    ensures IndexOf(rows, rows[pos].time) == Some(pos)
  {
    assert forall j :: 0 <= j < pos ==> rows[j].time < rows[pos].time;
  }

  /** A report fails exactly when the new time, the cursor, or (on the
      backfill branch) the end-of-day key is not a key of the table, or when
      the config cannot be rewritten; a failed report leaves both files as
      they were. */
  lemma FailsExactlyWhen(s: Snapshot, at: Instant, level: real, prev: Option<Text>, stored: Text)
    ensures Recorded(s, at, level, prev, stored).Err? <==>
      (IndexOf(s.rows, at).None? ||
       (prev.Some? && IndexOf(s.rows, prev.value.at).None?) ||
       (prev.Some? && DaysBetween(prev.value.at, at) > 0 && IndexOf(s.rows, EndOfDayKey(prev.value)).None?) ||
       !s.config.Parsed?)
    ensures Recorded(s, at, level, prev, stored).Err? ==> After(s, at, level, prev, stored) == s
  {
  }

  /** Every report that goes through rewrites the cursor to `stored` and
      changes pain levels only: the keys and the weather stay as they were. */
  lemma SuccessRewritesCursor(s: Snapshot, at: Instant, level: real, prev: Option<Text>, stored: Text)
    requires Recorded(s, at, level, prev, stored).Ok?
    ensures s.config.Parsed?
    ensures Recorded(s, at, level, prev, stored).value.config == Parsed(Some(stored))
    ensures SameKeysAndWeather(s.rows, Recorded(s, at, level, prev, stored).value.rows)
    ensures Keyed(s.rows) ==> Keyed(Recorded(s, at, level, prev, stored).value.rows)
  {
    var r := Recorded(s, at, level, prev, stored).value.rows;
    if Keyed(s.rows) {
      SameKeysKeepKeyed(s.rows, r);
    }
  }

  /** The lookup of the new time comes first: when it is missing the error
      names it, whatever else is wrong. */
  lemma MissingTimeReportedFirst(s: Snapshot, at: Instant, level: real, prev: Option<Text>, stored: Text)
    requires forall i :: 0 <= i < |s.rows| ==> s.rows[i].time != at
    ensures Recorded(s, at, level, prev, stored) == Err(NotAKey(at))
  {
  }

  /** First-ever report: only the new row's pain level changes, to the
      reported level, and the cursor becomes `stored`. */
  lemma FirstReport(s: Snapshot, level: real, stored: Text, endPos: nat)
    requires Keyed(s.rows) && endPos < |s.rows| && s.config.Parsed?
    ensures var at := s.rows[endPos].time;
      Recorded(s, at, level, None, stored).Ok? &&
      var r := After(s, at, level, None, stored);
      r.config == Parsed(Some(stored)) &&
      SameKeysAndWeather(s.rows, r.rows) &&
      r.rows[endPos].pain == level &&
      UnchangedOutside(s.rows, r.rows, endPos, endPos)
  {
    IndexOfRow(s.rows, endPos);
  }

  /** Interpolation branch (less than a day after the cursor): each row from
      the cursor's to the new one gets the rounded ramp value for its offset,
      and no other row and no key or weather value changes. */
  lemma InterpolationBranch(s: Snapshot, level: real, p: Text, stored: Text, startPos: nat, endPos: nat)
    requires Keyed(s.rows) && startPos < |s.rows| && endPos < |s.rows| && s.config.Parsed?
    requires s.rows[startPos].time == p.at
    requires DaysBetween(p.at, s.rows[endPos].time) <= 0
    ensures var at := s.rows[endPos].time;
      var prevPain := s.rows[startPos].pain;
      var step := Step(prevPain, level, startPos, endPos);
      Recorded(s, at, level, Some(p), stored).Ok? &&
      var r := After(s, at, level, Some(p), stored);
      r.config == Parsed(Some(stored)) &&
      SameKeysAndWeather(s.rows, r.rows) &&
      UnchangedOutside(s.rows, r.rows, startPos, endPos) &&
      forall i :: startPos <= i <= endPos ==> r.rows[i].pain == RampLevel(prevPain, step, i - startPos)
  {
    var at := s.rows[endPos].time;
    var prevPain := s.rows[startPos].pain;
    var step := Step(prevPain, level, startPos, endPos);
    IndexOfRow(s.rows, startPos);
    IndexOfRow(s.rows, endPos);
    var rows := Interpolate(s.rows, startPos, endPos, prevPain, step);
    assert Recorded(s, at, level, Some(p), stored) == Ok(Snapshot(rows, Parsed(Some(stored))));
  }

  /** The ramp keeps the previous level (rounded) at the cursor's row and
      writes the new level (rounded) at the new row. */
  lemma RampEndpoints(s: Snapshot, level: real, p: Text, stored: Text, startPos: nat, endPos: nat)
    requires Keyed(s.rows) && startPos < endPos < |s.rows| && s.config.Parsed?
    requires s.rows[startPos].time == p.at
    requires DaysBetween(p.at, s.rows[endPos].time) <= 0
    ensures var r := After(s, s.rows[endPos].time, level, Some(p), stored);
      r.rows[startPos].pain == RoundTenth(s.rows[startPos].pain) &&
      r.rows[endPos].pain == RoundTenth(level)
  {
    InterpolationBranch(s, level, p, stored, startPos, endPos);
    RoundedRampEnds(s.rows[startPos].pain, level, startPos, endPos);
  }

  /** Down the ramp the written levels never turn back: they fall (or stay)
      when the pain fell, and rise (or stay) when it rose. */
  lemma RampMonotoneInRows(s: Snapshot, level: real, p: Text, stored: Text, startPos: nat, endPos: nat, i: nat, j: nat)
    requires startPos <= i <= j <= endPos
    requires Keyed(s.rows) && endPos < |s.rows| && s.config.Parsed?
    requires s.rows[startPos].time == p.at
    requires DaysBetween(p.at, s.rows[endPos].time) <= 0
    ensures var r := After(s, s.rows[endPos].time, level, Some(p), stored);
      (s.rows[startPos].pain >= level ==> r.rows[i].pain >= r.rows[j].pain) &&
      (s.rows[startPos].pain <= level ==> r.rows[i].pain <= r.rows[j].pain)
  {
    InterpolationBranch(s, level, p, stored, startPos, endPos);
    RoundedRampMonotone(s.rows[startPos].pain, level, startPos, endPos, i, j);
  }

  /** Same-hour re-report: the step is zero, so the row is rewritten with the
      previous level rounded, the reported level is not written, and the
      cursor is still replaced. */
  lemma SameHourReport(s: Snapshot, level: real, p: Text, stored: Text, pos: nat)
    requires Keyed(s.rows) && pos < |s.rows| && s.config.Parsed?
    requires s.rows[pos].time == p.at
    ensures var r := After(s, p.at, level, Some(p), stored);
      Recorded(s, p.at, level, Some(p), stored).Ok? &&
      r.config == Parsed(Some(stored)) &&
      SameKeysAndWeather(s.rows, r.rows) &&
      UnchangedOutside(s.rows, r.rows, pos, pos) &&
      r.rows[pos].pain == RoundTenth(s.rows[pos].pain)
  {
    InterpolationBranch(s, level, p, stored, pos, pos);
  }

  /** A report earlier than the cursor takes the interpolation branch with a
      reversed range: no row changes, but the cursor is still overwritten. */
  lemma EarlierReport(s: Snapshot, level: real, p: Text, stored: Text, startPos: nat, endPos: nat)
    requires Keyed(s.rows) && startPos < |s.rows| && endPos < |s.rows| && s.config.Parsed?
    requires s.rows[startPos].time == p.at
    requires s.rows[endPos].time < p.at
    ensures After(s, s.rows[endPos].time, level, Some(p), stored) == Snapshot(s.rows, Parsed(Some(stored)))
  {
    var at := s.rows[endPos].time;
    IndexOfRow(s.rows, startPos);
    IndexOfRow(s.rows, endPos);
    IndexOrder(s.rows, at, p.at, endPos, startPos);
    assert DaysBetween(p.at, at) < 0;
    InterpolationBranch(s, level, p, stored, startPos, endPos);
    assert After(s, at, level, Some(p), stored).rows == s.rows;
  }

  /** Backfill branch (a day or more after the cursor): the rows from the
      cursor's through the end-of-day row hold the previous level, the new row
      holds the new level, and every other row, including those between the
      end-of-day row and the new one, is unchanged. */
  lemma BackfillBranch(s: Snapshot, level: real, p: Text, stored: Text, startPos: nat, eodPos: nat, endPos: nat)
    requires Keyed(s.rows) && startPos < |s.rows| && eodPos < |s.rows| && endPos < |s.rows| && s.config.Parsed?
    requires s.rows[startPos].time == p.at && s.rows[eodPos].time == EndOfDayKey(p)
    requires DaysBetween(p.at, s.rows[endPos].time) > 0
    ensures var at := s.rows[endPos].time;
      var prevPain := s.rows[startPos].pain;
      Recorded(s, at, level, Some(p), stored).Ok? &&
      var r := After(s, at, level, Some(p), stored);
      r.config == Parsed(Some(stored)) &&
      SameKeysAndWeather(s.rows, r.rows) &&
      r.rows[endPos].pain == level &&
      (forall i :: startPos <= i <= eodPos && i != endPos ==> r.rows[i].pain == prevPain) &&
      (forall i :: 0 <= i < |s.rows| && i != endPos && !(startPos <= i <= eodPos) ==> r.rows[i] == s.rows[i])
  {
    IndexOfRow(s.rows, startPos);
    IndexOfRow(s.rows, eodPos);
    IndexOfRow(s.rows, endPos);
  }

  /** With a 'YYYY-MM-DDTHH:MM' cursor the backfill stops at 23:00 of the
      cursor's date, a row at or after the cursor's and strictly before the
      new one. */
  lemma MinuteCursorEndOfDay(s: Snapshot, p: Text, startPos: nat, eodPos: nat, endPos: nat)
    requires Keyed(s.rows) && startPos < |s.rows| && eodPos < |s.rows| && endPos < |s.rows|
    requires p.form == MinuteForm
    requires s.rows[startPos].time == p.at && s.rows[eodPos].time == EndOfDayKey(p)
    requires DaysBetween(p.at, s.rows[endPos].time) > 0
    ensures DayStart(s.rows[eodPos].time) == DayStart(p.at) && HourOfDay(s.rows[eodPos].time) == 23
    ensures startPos <= eodPos < endPos
  {
    var eod, at := EndOfDayKey(p), s.rows[endPos].time;
    MinuteEndOfDayBetween(p.at, at);
    assert p == Text(p.at, MinuteForm);
    IndexOfRow(s.rows, startPos);
    IndexOfRow(s.rows, eodPos);
    IndexOfRow(s.rows, endPos);
    IndexOrder(s.rows, p.at, eod, startPos, eodPos);
    IndexOrder(s.rows, eod, at, eodPos, endPos);
  }

  /** With a 'YYYY-MM-DD HH:MM:SS' cursor the end-of-day key is minute 23 of
      an hour, which is never a key, so every report a day or more later
      raises and changes nothing. */
  lemma SecondCursorCannotBackfill(s: Snapshot, at: Instant, level: real, p: Text, stored: Text)
    requires Keyed(s.rows) && p.form == SecondForm
    requires DaysBetween(p.at, at) > 0
    ensures Recorded(s, at, level, Some(p), stored).Err?
    ensures After(s, at, level, Some(p), stored) == s
  {
    var eod := EndOfDayKey(p);
    assert !OnTheHour(eod) by {
      assert eod - HourStart(eod) == 23 * MINUTE;
    }
    assert IndexOf(s.rows, eod).None?;
  }

  /** Pain levels inside 0..10 stay inside 0..10 after any report of a level
      in that range, as the chat command enforces. */
  lemma LevelsStayInRange(s: Snapshot, at: Instant, level: real, prev: Option<Text>, stored: Text)
    requires Keyed(s.rows)
    requires forall i :: 0 <= i < |s.rows| ==> 0.0 <= s.rows[i].pain <= 10.0
    requires 0.0 <= level <= 10.0
    ensures var r := After(s, at, level, prev, stored);
      forall i :: 0 <= i < |r.rows| ==> 0.0 <= r.rows[i].pain <= 10.0
  {
    var o := Recorded(s, at, level, prev, stored);
    if o.Ok? {
      var endPos := IndexOf(s.rows, at).value;
      if prev.None? {
        FirstReport(s, level, stored, endPos);
      } else {
        var p := prev.value;
        var startPos := IndexOf(s.rows, p.at).value;
        var prevPain := s.rows[startPos].pain;
        if DaysBetween(p.at, at) > 0 {
          var eodPos := IndexOf(s.rows, EndOfDayKey(p)).value;
          BackfillBranch(s, level, p, stored, startPos, eodPos, endPos);
        } else {
          InterpolationBranch(s, level, p, stored, startPos, endPos);
          var r := o.value.rows;
          forall i | startPos <= i <= endPos ensures 0.0 <= r[i].pain <= 10.0 {
            RoundedRampWithin(prevPain, level, startPos, endPos, i, 0.0, 10.0);
          }
        }
      }
    }
  }

  /** The worked example of a same-day ramp: level 7 at 12:00, then level 3
      at 15:00 on 2025-05-24 gives 7.0, 5.7, 4.3 and 3.0 in the four rows. */
  lemma SameDayRampExample(weather: seq<real>)
    ensures var day := 20232 * DAY;
      var rows := seq(4, h requires 0 <= h < 4 => Row(day + (12 + h) * HOUR, if h == 0 then 7.0 else 0.0, weather));
      var noon := Text(day + 12 * HOUR, MinuteForm);
      var three := Text(day + 15 * HOUR, MinuteForm);
      var r := Recorded(Snapshot(rows, Parsed(Some(noon))), three.at, 3.0, Some(noon), three);
      r.Ok? && r.value.config == Parsed(Some(three)) &&
      r.value.rows[0].pain == 7.0 && r.value.rows[1].pain == 5.7 &&
      r.value.rows[2].pain == 4.3 && r.value.rows[3].pain == 3.0
  {
    var day := 20232 * DAY;
    var rows := seq(4, h requires 0 <= h < 4 => Row(day + (12 + h) * HOUR, if h == 0 then 7.0 else 0.0, weather));
    var s := Snapshot(rows, Parsed(Some(Text(day + 12 * HOUR, MinuteForm))));
    assert Keyed(rows);
    var step := Step(7.0, 3.0, 0, 3);
    assert step == 4.0 / 3.0;
    assert RoundTenth(7.0 - step * 1.0) == 5.7 by { assert (7.0 - step) * 10.0 == 170.0 / 3.0; }
    assert RoundTenth(7.0 - step * 2.0) == 4.3 by { assert (7.0 - step * 2.0) * 10.0 == 130.0 / 3.0; }
    InterpolationBranch(s, 3.0, Text(day + 12 * HOUR, MinuteForm), Text(day + 15 * HOUR, MinuteForm), 0, 3);
  }
}
