/** The pain ledger: the hour-keyed table of rows kept in the CSV file, the
    `previous_time` cursor kept in the JSON config file, and the update
    that both revisions of the pain recorder perform on them. */
module Ledger {
  import opened Outcomes
  import opened Clock
  import opened PainMath

  /** One row of the table: its key, the reported pain level, and the
      weather columns, which the recorder only carries along. */
  datatype Row = Row(time: Instant, pain: real, weather: seq<real>)

  /** The config file as the recorder sees it: missing, not valid JSON
      (`get_config` then returns None), or parsed, holding the
      `previous_time` entry or not. The location entries are only read by
      the weather fetch and are not modelled. */
  datatype Config = Absent | Malformed | Parsed(previousTime: Option<Text>)

  /** The exceptions that abort a report or the table's creation. */
  datatype Error =
    | NotAKey(key: Instant)     // `get_loc` raised KeyError
    | NoConfigFile              // opening config.json raised FileNotFoundError
    | ConfigUnreadable          // config.json is not valid JSON
    | MisalignedColumn          // a weather column's length differs from the time column's

  /** What the two files hold. */
  datatype Snapshot = Snapshot(rows: seq<Row>, config: Config)

  datatype Status = Done | Failed(error: Error)

  /** The `hourly` part of a forecast response: the time column and the
      weather columns, each meant to hold one value per time. */
  datatype Payload = Payload(time: seq<Instant>, columns: seq<seq<real>>)

  /** The table is indexed by its keys: they are strictly increasing, so
      unique, and each is a whole hour, as the hourly forecast gives them. */
  ghost predicate Keyed(rows: seq<Row>) {
    (forall i, j :: 0 <= i < j < |rows| ==> rows[i].time < rows[j].time) &&
    (forall i :: 0 <= i < |rows| ==> OnTheHour(rows[i].time))
  }

  /** The same keys and weather, row for row; only pain levels may differ. */
  ghost predicate SameKeysAndWeather(a: seq<Row>, b: seq<Row>) {
    |a| == |b| &&
    forall i :: 0 <= i < |a| ==> a[i].time == b[i].time && a[i].weather == b[i].weather
  }

  /** Rewriting pain levels keeps a table keyed. */
  lemma SameKeysKeepKeyed(a: seq<Row>, b: seq<Row>)
    requires Keyed(a) && SameKeysAndWeather(a, b)
    ensures Keyed(b)
  {
    forall i, j | 0 <= i < j < |b| ensures b[i].time < b[j].time {
      assert a[i].time < a[j].time;
    }
  }

  /** `init_data`: one row per entry of the time column, in payload order,
      with the weather values of that position and a pain level of 0.0.
      Assigning a column whose length differs from the time column's raises. */
  function InitialTable(p: Payload): (r: Result<seq<Row>, Error>)
    ensures |p.time| > 0 ==> (r.Err? <==> exists c :: 0 <= c < |p.columns| && |p.columns[c]| != |p.time|)
    ensures r.Ok? ==> |r.value| == |p.time|
    ensures r.Ok? ==> forall i :: 0 <= i < |p.time| ==>
      r.value[i].time == p.time[i] && r.value[i].pain == 0.0 &&
      |r.value[i].weather| == |p.columns| &&
      forall c :: 0 <= c < |p.columns| ==> r.value[i].weather[c] == p.columns[c][i]
  {
    if forall c :: 0 <= c < |p.columns| ==> |p.columns[c]| == |p.time| then
      Ok(seq(|p.time|, i requires 0 <= i < |p.time| =>
        Row(p.time[i], 0.0, seq(|p.columns|, c requires 0 <= c < |p.columns| => p.columns[c][i]))))
    else
      Err(MisalignedColumn)
  }

  /** A forecast whose times increase and fall on the hour gives a keyed table. */
  lemma InitialTableKeyed(p: Payload)
    requires forall i, j :: 0 <= i < j < |p.time| ==> p.time[i] < p.time[j]
    requires forall i :: 0 <= i < |p.time| ==> OnTheHour(p.time[i])
    ensures InitialTable(p).Ok? ==> Keyed(InitialTable(p).value)
  {
  }

  /** `get_loc`: the position of `key` among the row keys, if it is one. */
  function IndexOf(rows: seq<Row>, key: Instant): (r: Option<nat>)
    ensures r.Some? ==> r.value < |rows| && rows[r.value].time == key
    ensures r.Some? ==> forall j :: 0 <= j < r.value ==> rows[j].time != key
    ensures r.None? ==> forall j :: 0 <= j < |rows| ==> rows[j].time != key
  {
    if |rows| == 0 then None
    else if rows[0].time == key then Some(0)
    else match IndexOf(rows[1..], key)
      case None => None
      case Some(k) => Some(k + 1)
  }

  /** In a keyed table the position of a key follows the order of the keys. */
  lemma IndexOrder(rows: seq<Row>, a: Instant, b: Instant, i: nat, j: nat)
    requires Keyed(rows) && IndexOf(rows, a) == Some(i) && IndexOf(rows, b) == Some(j)
    ensures a < b <==> i < j
    ensures a == b <==> i == j
  {
    if i < j { assert rows[i].time < rows[j].time; }
    if j < i { assert rows[j].time < rows[i].time; }
  }

  function SetPain(row: Row, level: real): Row {
    row.(pain := level)
  }

  /** The table after the first-ever report: row `endPos` holds the level. */
  function FirstLog(rows: seq<Row>, endPos: nat, level: real): (r: seq<Row>)
    requires endPos < |rows|
    ensures SameKeysAndWeather(rows, r)
  {
    rows[endPos := SetPain(rows[endPos], level)]
  }

  /** The table after a backfill: rows `startPos` through `eodPos` hold the
      previous level (the slice `startPos:eodPos + 1`, empty when it is
      reversed), and then row `endPos` gets the new level. */
  function Backfill(rows: seq<Row>, startPos: nat, eodPos: nat, endPos: nat, prev: real, level: real): (r: seq<Row>)
    requires endPos < |rows| && eodPos < |rows|
    ensures SameKeysAndWeather(rows, r)
  {
    seq(|rows|, i requires 0 <= i < |rows| =>
      if i == endPos then SetPain(rows[i], level)
      else if startPos <= i <= eodPos then SetPain(rows[i], prev)
      else rows[i])
  }

  /** The table after a linear interpolation: each row `i` in
      `startPos..endPos` gets `round(prev - step * (i - startPos), 1)`;
      nothing, when `endPos < startPos`. */
  function Interpolate(rows: seq<Row>, startPos: nat, endPos: nat, prev: real, step: real): (r: seq<Row>)
    ensures SameKeysAndWeather(rows, r)
  {
    seq(|rows|, i requires 0 <= i < |rows| =>
      if startPos <= i <= endPos then SetPain(rows[i], RampLevel(prev, step, i - startPos))
      else rows[i])
  }

  /** The exception `append_config` raises on this config, when it raises. */
  function ConfigError(config: Config): Error {
    if config.Absent? then NoConfigFile else ConfigUnreadable
  }

  /** `append_config('previous_time', stored)` followed by `to_csv`: the config
      is rewritten first, so when it cannot be read, neither file changes. */
  function Saved(config: Config, rows: seq<Row>, stored: Text): (r: Result<Snapshot, Error>)
    ensures r.Ok? <==> config.Parsed?
    ensures r.Ok? ==> r.value.rows == rows && r.value.config == Parsed(Some(stored))
    ensures config.Absent? ==> r == Err(NoConfigFile)
    ensures config.Malformed? ==> r == Err(ConfigUnreadable)
  {
    if config.Parsed? then Ok(Snapshot(rows, Parsed(Some(stored))))
    else Err(ConfigError(config))
  }

  /** `update_pain(at, level, prev)`, which then stores `stored` as the cursor:
      the reference definition of what a report does to the two files. */
  function Recorded(s: Snapshot, at: Instant, level: real, prev: Option<Text>, stored: Text): (r: Result<Snapshot, Error>)
    ensures IndexOf(s.rows, at).None? ==> r == Err(NotAKey(at))
    ensures r.Ok? ==> s.config.Parsed? && r.value.config == Parsed(Some(stored))
    ensures r.Ok? ==> SameKeysAndWeather(s.rows, r.value.rows)
  {
    match IndexOf(s.rows, at)
    case None => Err(NotAKey(at))
    case Some(endPos) =>
      match prev
      case None => Saved(s.config, FirstLog(s.rows, endPos, level), stored)
      case Some(p) =>
        match IndexOf(s.rows, p.at)
        case None => Err(NotAKey(p.at))
        case Some(startPos) =>
          var prevPain := s.rows[startPos].pain;
          if DaysBetween(p.at, at) > 0 then
            match IndexOf(s.rows, EndOfDayKey(p))
            case None => Err(NotAKey(EndOfDayKey(p)))
            case Some(eodPos) =>
              Saved(s.config, Backfill(s.rows, startPos, eodPos, endPos, prevPain, level), stored)
          else
            Saved(s.config, Interpolate(s.rows, startPos, endPos, prevPain, Step(prevPain, level, startPos, endPos)), stored)
  }

  /** The state the files are in after the report: the new one, or the old
      one when the report raised. */
  function After(s: Snapshot, at: Instant, level: real, prev: Option<Text>, stored: Text): Snapshot {
    var o := Recorded(s, at, level, prev, stored);
    if o.Ok? then o.value else s
  }

  function StatusOf(o: Result<Snapshot, Error>): Status {
    if o.Ok? then Done else Failed(o.error)
  }

  /** The CSV table and the config file, held in memory. */
  class PainLedger {
    const rows: array<Row>
    var config: Config

    ghost predicate Valid()
      reads this, rows
    {
      Keyed(rows[..])
    }

    function Snap(): Snapshot
      reads this, rows
    {
      Snapshot(rows[..], config)
    }

    /** A ledger over a table that `init_data` built or that was read back. */
    constructor (table: seq<Row>, config: Config)
      requires Keyed(table)
      ensures Valid() && fresh(rows)
      ensures Snap() == Snapshot(table, config)
    {
      rows := new Row[|table|](i requires 0 <= i < |table| => table[i]);
      this.config := config;
    }

    /** `df.index.get_loc(key)`: a binary search over the sorted keys. */
    method Locate(key: Instant) returns (r: Option<nat>)
      requires Valid()
      ensures r == IndexOf(rows[..], key)
    {
      var lo, hi := 0, rows.Length;
      while lo < hi
        invariant 0 <= lo <= hi <= rows.Length
        invariant forall j :: 0 <= j < lo ==> rows[j].time < key
        invariant forall j :: hi <= j < rows.Length ==> key < rows[j].time
        decreases hi - lo
      {
        var mid := (lo + hi) / 2;
        if rows[mid].time < key {
          lo := mid + 1;
        } else if key < rows[mid].time {
          hi := mid;
        } else {
          var found := IndexOf(rows[..], key);
          assert found.Some? && found.value == mid by {
            assert rows[..][mid].time == key;
          }
          return Some(mid);
        }
      }
      r := None;
    }

    /** The slice assignment `iloc[startPos:eodPos + 1] = prev`, then the
        single assignment `iloc[endPos] = level`. */
    method FillRange(startPos: nat, eodPos: nat, endPos: nat, prev: real, level: real)
      requires endPos < rows.Length && eodPos < rows.Length
      modifies rows
      ensures rows[..] == Backfill(old(rows[..]), startPos, eodPos, endPos, prev, level)
    {
      forall i | startPos <= i <= eodPos {
        rows[i] := SetPain(rows[i], prev);
      }
      rows[endPos] := SetPain(rows[endPos], level);
    }

    /** The loop `for i in range(startPos, endPos + 1)` writing the rounded
        ramp into each row. */
    method FillRamp(startPos: nat, endPos: nat, prev: real, step: real)
      requires endPos < rows.Length
      modifies rows
      ensures rows[..] == Interpolate(old(rows[..]), startPos, endPos, prev, step)
    {
      var i := startPos;
      while i <= endPos
        invariant startPos <= i && (i <= endPos + 1 || i == startPos)
        invariant forall j :: 0 <= j < rows.Length ==>
          rows[j] == if startPos <= j < i then SetPain(old(rows[j]), RampLevel(prev, step, j - startPos))
                     else old(rows[j])
      {
        rows[i] := SetPain(rows[i], RampLevel(prev, step, i - startPos));
        i := i + 1;
      }
    }

    /** Report `level` at the key `at`, given the cursor `prev` read before,
        and store `stored` as the new cursor. */
    method Record(at: Instant, level: real, prev: Option<Text>, stored: Text) returns (status: Status)
      requires Valid()
      modifies rows, this`config
      ensures Valid()
      ensures Snap() == After(old(Snap()), at, level, prev, stored)
      ensures status == StatusOf(Recorded(old(Snap()), at, level, prev, stored))
    {
      var endPos := Locate(at);
      if endPos.None? {
        return Failed(NotAKey(at));
      }
      var end := endPos.value;
      if prev.None? {
        if !config.Parsed? {
          return Failed(ConfigError(config));
        }
        rows[end] := SetPain(rows[end], level);
        assert rows[..] == FirstLog(old(rows[..]), end, level);
        SameKeysKeepKeyed(old(rows[..]), rows[..]);
      } else {
        var p := prev.value;
        var startPos := Locate(p.at);
        if startPos.None? {
          return Failed(NotAKey(p.at));
        }
        var start := startPos.value;
        var prevPain := rows[start].pain;
        if DaysBetween(p.at, at) > 0 {
          var eodKey := EndOfDayKey(p);
          var eodPos := Locate(eodKey);
          if eodPos.None? {
            return Failed(NotAKey(eodKey));
          }
          if !config.Parsed? {
            return Failed(ConfigError(config));
          }
          FillRange(start, eodPos.value, end, prevPain, level);
          SameKeysKeepKeyed(old(rows[..]), rows[..]);
        } else {
          if !config.Parsed? {
            return Failed(ConfigError(config));
          }
          FillRamp(start, end, prevPain, Step(prevPain, level, start, end));
          SameKeysKeepKeyed(old(rows[..]), rows[..]);
        }
      }
      config := Parsed(Some(stored));
      return Done;
    }
  }
}
