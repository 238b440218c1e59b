# Pain ledger recorder of JointBot, modelled in Dafny

JointBot keeps an hour-indexed table, one row per forecast hour, with the
hour's weather and a `pain_level` (0.0 until reported). When the user
reports a pain level, the recorder writes it into the table and fills in the
rows between this report and the previous one, whose time it keeps as the
cursor `previous_time` in the config file. The fill depends on how much time
has passed:

- no cursor yet: only the new row is written;
- less than a whole day: the rows from the cursor's row to the new row get a
  straight ramp, each value rounded to one decimal;
- a whole day or more: with a 'YYYY-MM-DDTHH:MM' cursor, the previous level
  is held from the cursor's row through 23:00 of the cursor's date, and the
  new level is written at the new row only. The rows in between keep their
  values. With the current revision's own cursor this branch raises (see
  below).

There are two revisions of the recorder. `WeatherHandler` in
WeatherHandler.py is the current one. The module functions of weather.py are
the older one. The current revision rounds the report time to the nearest
hour and stores the cursor as `str()` of the rounded `datetime`. The older
one uses the time string exactly as given, both for the lookup and as the
stored cursor.

## Layout

- `outcomes.dfy` — `Option` and `Result`.
- `clock.dfy` (module `Clock`) — instants in microseconds, calendar fields,
  `timedelta.days` as floored division, date-time strings (`Text`) and the
  end-of-day key built by string slicing.
- `pain_math.dfy` (module `PainMath`) — `round(x, 1)` on reals, the per-row
  step, and the shape of the ramp.
- `ledger.dfy` (module `Ledger`) — rows, the config, the table built from a
  forecast payload, key lookup, the reference definition `Recorded` of one
  report, and the class `PainLedger`. This class holds the table as an array
  and the config as a field. Its method `Record` performs a report in place,
  shared by both revisions.
- `ledger_properties.dfy` (module `LedgerProperties`) — each branch of a
  report, proved about `Recorded`.
- `handler.dfy` (module `Handler`) — the current revision: rounding, reading
  the cursor, `update_pain` and `log_pain`.
- `legacy.dfy` (module `Legacy`) — the older revision, and how it compares
  with the current one.

The table and the config are state in memory. Reading the files at the start
of a report and writing them at the end is not modelled. A report that raises
leaves both as they were. Both revisions call `append_config` before
`to_csv`, so a config that cannot be rewritten also means the table is not
saved. The model checks this before it writes any row.

## Behaviour of the source worth knowing

- A same-hour re-report writes `round(prev_pain, 1)` into the row, not the
  new level, because the step is 0 (`SameHourReport`).
- A report earlier than the cursor is not rejected. It takes the
  interpolation branch with a reversed range, so no row changes, but the
  cursor is still overwritten (`EarlierReport`).
- The current revision stores its cursor as 'YYYY-MM-DD HH:MM:SS'. Slicing
  off the last five characters and appending "23:00" then gives minute 23 of
  the cursor's hour, which is never a key. So, after one of its own reports,
  every report a day or more later raises and changes nothing
  (`Handler.OwnCursorNeverBackfills`, `Handler.NoBackfillAfterOwnReport`).
  With a 'YYYY-MM-DDTHH:MM' cursor, as weather.py writes it, the same slice
  gives 23:00 of the cursor's date (`Legacy.MinuteCursorBackfill`).

## Model

| member | source | states |
|---|---|---|
| `Clock.MinuteOfHour` | WeatherHandler.py:64 | the `minute` field: 0..59, the number of whole minutes since the start of the hour |
| `Clock.HourOfDay` | WeatherHandler.py:105 | the `hour` field: 0..23, the number of whole hours since the start of the day |
| `Clock.DaysBetween` | WeatherHandler.py:97-103 | the day count is the whole number of days in the difference, floored, as `timedelta.days` is |
| `Clock.EndOfDayKey` | WeatherHandler.py:105 | a 'YYYY-MM-DDTHH:MM' cursor gives 23:00 on the cursor's date; a 'YYYY-MM-DD HH:MM:SS' cursor gives minute 23 of the cursor's own hour |
| `Clock.MinuteEndOfDayBetween` | weather.py:79-81 | for an on-the-hour 'YYYY-MM-DDTHH:MM' cursor, the end-of-day key is at or after the cursor and before any time a day or more later |
| `PainMath.RoundTenth` | WeatherHandler.py:115-117 | `round(x, 1)` is a whole number of tenths within 0.05 of `x`; on an exact tie it is the even tenth |
| `PainMath.RoundTenthMonotone` | WeatherHandler.py:115-117 | rounding never reverses the order of two values |
| `PainMath.RoundTenthKeepsTenths` | WeatherHandler.py:115-117 | a value that already has one decimal is unchanged by rounding |
| `PainMath.Step` | WeatherHandler.py:128-134 | the step is 0 when the two rows coincide and otherwise times the row distance equals `prev_pain - curr_pain` |
| `PainMath.StepSign` | weather.py:100-104 | on a forward range the step is non-negative when the pain fell and non-positive when it rose |
| `PainMath.RampEnds` | weather.py:89-104 | the unrounded ramp is `prev_pain` at the start row and the new level at the end row |
| `PainMath.RampMonotone` | WeatherHandler.py:113-117 | the unrounded ramp moves in one direction only across the range |
| `PainMath.RampBetween` | WeatherHandler.py:113-117 | every unrounded ramp value lies between the two reported levels |
| `PainMath.RoundedRampMonotone` | WeatherHandler.py:113-117 | the rounded values written move in one direction only: down when the pain fell, up when it rose |
| `PainMath.RoundedRampEnds` | WeatherHandler.py:113-117 | the rounded ramp starts at `round(prev_pain, 1)` and, when the rows differ, ends at the rounded new level |
| `PainMath.RoundedRampWithin` | WeatherHandler.py:113-117 | when both levels lie in a range with one-decimal bounds, every written value does too |
| `Ledger.InitialTable` | WeatherHandler.py:45-56 | one row per entry of the time column, in payload order, with that position's weather values and pain 0.0; when the time column is not empty, fails exactly when some column's length differs from the time column's |
| `Ledger.InitialTableKeyed` | weather.py:37-48 | a payload whose times increase and fall on the hour yields a table with unique, ordered hourly keys |
| `Ledger.IndexOf` | WeatherHandler.py:93 | `get_loc` finds the first row holding the key, or reports that no row holds it |
| `Ledger.IndexOrder` | WeatherHandler.py:93-96 | in a keyed table, the positions of two keys are in the same order as the keys |
| `Ledger.FirstLog` | WeatherHandler.py:120-122 | the first report changes pain levels only, never a key or a weather value |
| `Ledger.Backfill` | WeatherHandler.py:105-109 | the backfill changes pain levels only, never a key or a weather value |
| `Ledger.Saved` | WeatherHandler.py:119-126 | `append_config` then `to_csv`: the table and the new cursor are saved exactly when the config parses; a missing file and an unreadable one raise |
| `Ledger.Recorded` | WeatherHandler.py:92-126 | a new time that is not a key raises for that time; a report that goes through needed a readable config, sets the cursor to the stored text and changes pain levels only |
| `Ledger.Interpolate` | WeatherHandler.py:114-117 | the ramp changes pain levels only, never a key or a weather value |
| `Ledger.PainLedger.constructor` | WeatherHandler.py:13-16 | the ledger holds exactly the given table and config |
| `Ledger.PainLedger.Locate` | WeatherHandler.py:93 | the binary search over the sorted keys returns what `IndexOf` specifies |
| `Ledger.PainLedger.FillRange` | WeatherHandler.py:105-109 | the slice `start:eod+1` gets `prev_pain`, then row `end` gets the new level, and nothing else changes |
| `Ledger.PainLedger.FillRamp` | WeatherHandler.py:113-117 | after the loop, row `i` in `start..end` holds `round(prev - step*(i-start), 1)`, and all other rows are unchanged |
| `Ledger.PainLedger.Record` | WeatherHandler.py:92-126 | the table and the config end up as `Recorded` defines, or unchanged when it raises; the keys stay ordered |
| `LedgerProperties.IndexOfRow` | WeatherHandler.py:93 | in a keyed table, a row's key is found at that row |
| `LedgerProperties.FailsExactlyWhen` | WeatherHandler.py:92-126 | a report raises exactly when the new time, the cursor or (a day later) the end-of-day key is missing, or the config cannot be rewritten; then nothing changes |
| `LedgerProperties.MissingTimeReportedFirst` | WeatherHandler.py:92-93 | a new time that is not a key raises `KeyError` for that time before anything else is looked at |
| `LedgerProperties.SuccessRewritesCursor` | WeatherHandler.py:119-126 | every report that goes through sets the cursor and changes only pain levels |
| `LedgerProperties.FirstReport` | WeatherHandler.py:120-124 | with no cursor, only the new row changes, to the level, and the cursor is set |
| `LedgerProperties.InterpolationBranch` | WeatherHandler.py:111-119 | under a day later, each row from the cursor's to the new one gets the rounded ramp for its offset; other rows, keys and weather are unchanged; the cursor is set |
| `LedgerProperties.RampEndpoints` | WeatherHandler.py:113-117 | the cursor's row keeps `round(prev_pain, 1)` and the new row gets the rounded new level |
| `LedgerProperties.RampMonotoneInRows` | WeatherHandler.py:113-117 | the levels written between the two rows fall when the pain fell and rise when it rose |
| `LedgerProperties.SameHourReport` | WeatherHandler.py:113-119 | a re-report in the cursor's hour rewrites that row with `round(prev_pain, 1)`, does not write the new level, and still sets the cursor |
| `LedgerProperties.EarlierReport` | WeatherHandler.py:103-119 | a report earlier than the cursor changes no row but still overwrites the cursor |
| `LedgerProperties.BackfillBranch` | WeatherHandler.py:103-109 | a day or more later, rows from the cursor's through the end-of-day row hold `prev_pain`, the new row holds the new level, and all other rows are unchanged |
| `LedgerProperties.MinuteCursorEndOfDay` | weather.py:79-84 | with a 'YYYY-MM-DDTHH:MM' cursor, the backfill stops at 23:00 of the cursor's date, at or after the cursor's row and before the new row |
| `LedgerProperties.SecondCursorCannotBackfill` | WeatherHandler.py:103-106 | with a 'YYYY-MM-DD HH:MM:SS' cursor, every report a day or more later raises and changes nothing |
| `LedgerProperties.LevelsStayInRange` | WeatherHandler.py:103-124 | reports of levels in 0..10 keep every pain level of a keyed table in 0..10 |
| `LedgerProperties.SameDayRampExample` | WeatherHandler.py:111-117 | level 7 at 12:00, then level 3 at 15:00 on the same date, gives 7.0, 5.7, 4.3, 3.0 |
| `Handler.CleanTimestamp` | WeatherHandler.py:59-69 | the result is on the hour; it is the input's own hour when the minute is under 30 and the next hour otherwise |
| `Handler.CleanTimestampNearest` | WeatherHandler.py:59-69 | the result is the nearest hour, with a half hour rounding up |
| `Handler.CleanTimestampIdempotent` | WeatherHandler.py:59-69 | an on-the-hour time is unchanged, so cleaning twice is cleaning once |
| `Handler.CleanTimestampRollsOverMidnight` | WeatherHandler.py:64-68 | from 23:30 on, the result is midnight of the next date |
| `Handler.PreviousTimestamp` | WeatherHandler.py:80-83 | the cursor is present exactly when the config parses and holds `previous_time`; a missing file raises |
| `Handler.Stored` | WeatherHandler.py:119 | `str()` of the time is its seconds-form text, whose end-of-day key is minute 23 of its own hour and so never on the hour |
| `Handler.Logged` | WeatherHandler.py:71-78 | a missing config raises; otherwise a rounded hour that is not a key raises for that hour; success stores the rounded time in seconds form and changes pain levels only |
| `Handler.UpdatePain` | WeatherHandler.py:85-126 | performs the report on the rounded time and stores `str()` of that time as the cursor |
| `Handler.LogPain` | WeatherHandler.py:71-78 | reads the cursor, rounds the time and updates, or leaves everything unchanged when any step raises |
| `Handler.ReportUsesCleanTime` | WeatherHandler.py:76-119 | a report is filed under its rounded hour (raising if that hour is absent), and the cursor left is the rounded time with seconds |
| `Handler.FirstHandlerReport` | WeatherHandler.py:120-124 | the first report writes only the rounded hour's row and sets the cursor to that time |
| `Handler.OwnCursorNeverBackfills` | WeatherHandler.py:103-106 | after a cursor written by this revision, a report a day or more later raises and changes nothing |
| `Handler.NoBackfillAfterOwnReport` | WeatherHandler.py:103-119 | after any successful report, every report a day or more later fails |
| `Legacy.PrevInfo` | weather.py:55-61 | returns None exactly when the parsed config lacks `previous_time`, and its value otherwise; a missing or unparsable config raises |
| `Legacy.Logged` | weather.py:50-52 | a config that is missing or unreadable raises; otherwise a time that is not a key raises for that time; success stores the given text and changes pain levels only |
| `Legacy.UpdatePain` | weather.py:63-98 | performs the report on the time as given and stores the given text as the cursor |
| `Legacy.LogPain` | weather.py:50-52 | reads the cursor and updates, or leaves everything unchanged when any step raises |
| `Legacy.RawTimeIsUsedAsGiven` | weather.py:63-96 | an off-the-hour time raises and changes nothing; a successful report stores the given text, unrounded |
| `Legacy.FirstLegacyReport` | weather.py:94-96 | the first recording writes only the given time's row and sets the cursor to the given text |
| `Legacy.LegacyInterpolation` | weather.py:87-93 | under a day later, rows `start..end` get the rounded ramp and no other row changes |
| `Legacy.MinuteCursorBackfill` | weather.py:79-86 | with a 'YYYY-MM-DDTHH:MM' cursor, rows from the cursor's through 23:00 of its date get `prev_pain`, only the new row gets the new level, and the gap rows are untouched |
| `Legacy.RevisionsAgreeOnTable` | weather.py:63-98 | for an on-the-hour time, both revisions succeed or fail together and write the same table |

## Left out

- Forecast merging, the `is_actual` and `predicted_pain` columns and a refresh cycle: the recorder neither creates nor writes them; only ml.py, which is outside the recorder, reads those two columns (ml.py:9, ml.py:20).
- Fetching weather and location over HTTP (`get_weather`, `get_location`): the forecast payload is a parameter. A failed fetch, which makes `init_data` raise on `None`, is not modelled.
- Reading and writing the CSV and JSON files: the table and config live in memory, and a report that raises changes neither.
- Config entries other than `previous_time` (`zipOrCity`, `country`, `lat`, `log`, `timezone`): the recorder never reads them; the weather fetch and the chat commands in main.py do.
- The column order of the CSV (`pain_level` second): the model keeps pain and weather as separate fields.
- `Ledger.PainLedger.constructor`: requires ordered, unique, on-the-hour keys. The source assumes this of Open-Meteo's hourly times and never checks it; pandas lookups on a non-unique index are not modelled.
- `Ledger.InitialTable`: says nothing when the time column is empty. pandas then takes its index from the first non-empty column and writes rows whose time is NaN; a NaN key is not an instant, so the model reports `MisalignedColumn` there instead.
- `PainMath.RoundTenth`: works on exact reals with ties to even. It does not model binary floating point, where a value such as 0.35 sits just below the tie.
- Date-time strings other than 'YYYY-MM-DDTHH:MM' and 'YYYY-MM-DD HH:MM:SS', such as fractional seconds or a zone offset, and Python's falsy empty string in `if prev_timestamp:`. Report times are taken as the instant they parse to; a string `fromisoformat` rejects raises ValueError in `_clean_timestamp` before any change, which is not modelled.
- main.py (chat commands, follow-up scheduling), ml.py (model training and statistics) and the environment and time-zone helpers in helper_funcs.py: all outside the recorder.
- The test calls at module level, the debug prints and the unfinished `WeatherHandler` stub in weather.py.
