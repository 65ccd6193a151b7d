/** The meteorological side of a station: its hourly weather table, built from the TEMP, HUM,
    PRES and PREC sheets of the weather workbook, the day and night selections of that table,
    and the MAX / MIN / ∆ summaries. */
module Meteorology {
  import opened Values
  import opened Constants
  import opened DateUtils

  /** A row of a weather table: its timestamp and one value per column. */
  datatype MetRow = MetRow(t: Timestamp, vals: seq<Float>)

  /** A weather table indexed by timestamp. */
  datatype MetFrame = MetFrame(names: seq<string>, rows: seq<MetRow>)

  predicate WellFormed(f: MetFrame) {
    forall i :: 0 <= i < |f.rows| ==> |f.rows[i].vals| == |f.names|
  }

  /** `df.empty`: no rows or no columns. */
  predicate IsEmpty(f: MetFrame) { |f.rows| == 0 || |f.names| == 0 }

  // ---------------------------------------------------------------------------
  // filter_by_time_range

  /** The mask of line 38 (night, wrapping midnight) or line 41 (day) on a time of day. */
  predicate InRange(s: int, start: int, end: int, night: bool) {
    if night then s >= start || s <= end else s >= start && s <= end
  }

  /** `filter_by_time_range`: a missing or empty table gives an empty table with no
      columns; otherwise the rows whose time of day is in the range, with the columns kept. */
  function FilterByTimeRange(df: Option<MetFrame>, start: int, end: int, night: bool): (r: MetFrame)
    ensures df.None? || IsEmpty(df.value) ==> r == MetFrame([], [])
    ensures df.Some? && !IsEmpty(df.value) ==>
              && r.names == df.value.names
              && (forall x :: x in r.rows <==> x in df.value.rows && InRange(TimeOfDay(x.t), start, end, night))
  {
    if df.None? || IsEmpty(df.value) then MetFrame([], [])
    else MetFrame(df.value.names, Filter(df.value.rows, (x: MetRow) => InRange(TimeOfDay(x.t), start, end, night)))
  }

  /** Filtering only removes rows and keeps their order: splitting the table and filtering
      each part gives the filtered table in two parts. */
  lemma FilterKeepsOrder(names: seq<string>, a: seq<MetRow>, b: seq<MetRow>, start: int, end: int, night: bool)
    requires |names| > 0 && |a| > 0 && |b| > 0
    ensures FilterByTimeRange(Some(MetFrame(names, a + b)), start, end, night).rows
            == FilterByTimeRange(Some(MetFrame(names, a)), start, end, night).rows
               + FilterByTimeRange(Some(MetFrame(names, b)), start, end, night).rows
  {
    FilterAppend(a, b, (x: MetRow) => InRange(TimeOfDay(x.t), start, end, night));
  }

  /** With the reference hours, the day and night ranges of a time never both hold, and a
      time strictly between 20:00 and 21:00 or between 06:00 and 07:00 is in neither. */
  lemma RangesOfReferenceHours(s: int)
    requires 0 <= s < SecondsPerDay
    ensures !(InRange(s, DiurnaInicio, DiurnaFin, false) && InRange(s, NocturnaInicio, NocturnaFin, true))
    ensures DiurnaFin < s < NocturnaInicio || NocturnaFin < s < DiurnaInicio ==>
              !InRange(s, DiurnaInicio, DiurnaFin, false) && !InRange(s, NocturnaInicio, NocturnaFin, true)
  {
  }

  // ---------------------------------------------------------------------------
  // process_and_export_weather_data

  const MetSheets: seq<string> := ["TEMP", "HUM", "PRES", "PREC"]

  /** `str(Estacion).replace("-", "_")`. */
  function StationKey(estacion: string): (k: string)
    ensures '-' !in k
    ensures |k| == |estacion|
  {
    ReplaceCharByChar(estacion, '-', '_');
    Replace(estacion, "-", "_")
  }

  /** A station written with a hyphen finds the same entry as with an underscore. */
  lemma StationKeyHyphen(n: nat)
    ensures StationKey("EMRI-" + NatToString(n)) == "EMRI_" + NatToString(n)
  {
    var s := "EMRI-" + NatToString(n);
    ReplaceCharByChar(s, '-', '_');
    var r := StationKey(s);
    assert forall i :: 5 <= i < |s| ==> IsDigit(s[i]) by {
      assert forall i :: 5 <= i < |s| ==> s[i] == NatToString(n)[i - 5];
    }
    assert r == "EMRI_" + NatToString(n);
  }

  /** A sheet of the weather workbook: stripped column names, the column values, and the
      `Fecha` column. */
  datatype MetSheet = MetSheet(columns: seq<string>, values: seq<seq<Float>>, fecha: seq<Timestamp>)

  /** A column named `col` (already stripped) belongs to the station `station`. */
  predicate ColumnMatches(col: string, station: string) {
    Contains(Strip(col), station)
  }

  /** The first column, from index `from` on, whose (stripped) name contains the station
      column string; `|columns|` when there is none. */
  function FirstMatchFrom(columns: seq<string>, station: string, from: nat): (i: nat)
    requires from <= |columns|
    ensures from <= i <= |columns|
    ensures i < |columns| ==> ColumnMatches(columns[i], station)
    ensures forall j :: from <= j < i ==> !ColumnMatches(columns[j], station)
    decreases |columns| - from
  {
    if from == |columns| || ColumnMatches(columns[from], station) then from
    else FirstMatchFrom(columns, station, from + 1)
  }

  function FirstMatch(columns: seq<string>, station: string): (i: nat)
    ensures i <= |columns|
    ensures i < |columns| ==> ColumnMatches(columns[i], station)
    ensures forall j :: 0 <= j < i ==> !ColumnMatches(columns[j], station)
  {
    FirstMatchFrom(columns, station, 0)
  }

  /** The state of `final_df` in the sheet loop. */
  datatype Build = Pending | Table(frame: MetFrame) | Failed

  function AddColumn(f: MetFrame, name: string, col: seq<Float>): (r: MetFrame)
    requires |col| == |f.rows|
    ensures r.names == f.names + [name] && |r.rows| == |f.rows|
    ensures forall i :: 0 <= i < |r.rows| ==> r.rows[i] == MetRow(f.rows[i].t, f.rows[i].vals + [col[i]])
  {
    MetFrame(f.names + [name], seq(|col|, i requires 0 <= i < |col| => MetRow(f.rows[i].t, f.rows[i].vals + [col[i]])))
  }

  /** `final_df` as first created: the corrected `Fecha` column and no value column yet. */
  function Timeline(fecha: seq<Timestamp>): (f: MetFrame)
    ensures f.names == [] && |f.rows| == |fecha|
    ensures forall i :: 0 <= i < |fecha| ==> f.rows[i] == MetRow(CorregirFechaHora(fecha[i]), [])
  {
    MetFrame([], seq(|fecha|, i requires 0 <= i < |fecha| => MetRow(CorregirFechaHora(fecha[i]), [])))
  }

  /** One pass of lines 108-119: a present sheet with a matching column adds that column
      under the sheet's name; the first such sheet also fixes the timestamps, corrected; a
      column of another length raises, which the `except` turns into no result. */
  function Step(b: Build, book: map<string, MetSheet>, name: string, station: string): Build {
    if b.Failed? || name !in book then b
    else
      var sh := book[name];
      var m := FirstMatch(sh.columns, station);
      if m >= |sh.columns| || m >= |sh.values| then b
      else
        var col := sh.values[m];
        var base := if b.Pending? then Timeline(sh.fecha) else b.frame;
        if |col| != |base.rows| then Failed else Table(AddColumn(base, name, col))
  }

  function Steps(book: map<string, MetSheet>, names: seq<string>, station: string): Build
    decreases |names|
  {
    if |names| == 0 then Pending
    else Step(Steps(book, names[..|names| - 1], station), book, names[|names| - 1], station)
  }

  /** Lines 107-119: the loop over the four sheets that builds `final_df` column by column. */
  method BuildFinal(book: map<string, MetSheet>, station: string) returns (b: Build)
    ensures b == Steps(book, MetSheets, station)
  {
    b := Pending;
    for k := 0 to |MetSheets|
      invariant b == Steps(book, MetSheets[..k], station)
    {
      assert MetSheets[..k + 1][..k] == MetSheets[..k];
      var name := MetSheets[k];
      assert Steps(book, MetSheets[..k + 1], station) == Step(b, book, name, station);
      if b.Failed? || name !in book {
        continue;
      }
      var sh := book[name];
      var m := FirstMatch(sh.columns, station);
      if m < |sh.columns| && m < |sh.values| {
        var col := sh.values[m];
        var base: MetFrame;
        if b.Pending? {
          base := Timeline(sh.fecha);
        } else {
          base := b.frame;
        }
        if |col| != |base.rows| {
          b := Failed;
        } else {
          b := Table(AddColumn(base, name, col));
        }
      }
    }
    assert MetSheets[..|MetSheets|] == MetSheets;
  }

  /** The columns of `f` are distinct sheet names from `names`, each present in the book. */
  predicate NamedAfterSheets(f: MetFrame, book: map<string, MetSheet>, names: seq<string>) {
    && (forall i, j :: 0 <= i < j < |f.names| ==> f.names[i] != f.names[j])
    && (forall c :: 0 <= c < |f.names| ==> f.names[c] in names && f.names[c] in book)
  }

  /** Column `c` of `f` holds the values of the first matching column of its sheet. */
  predicate ColumnFromSheet(f: MetFrame, book: map<string, MetSheet>, station: string, c: nat)
    requires WellFormed(f) && c < |f.names| && f.names[c] in book
  {
    var sh := book[f.names[c]];
    var m := FirstMatch(sh.columns, station);
    m < |sh.columns| && m < |sh.values| && |sh.values[m]| == |f.rows|
    && forall i :: 0 <= i < |f.rows| ==> f.rows[i].vals[c] == sh.values[m][i]
  }

  /** The timestamps of `f` are the corrected `Fecha` values of the sheet `n`. */
  predicate TimesFromSheet(f: MetFrame, book: map<string, MetSheet>, n: string) {
    n in book && |book[n].fecha| == |f.rows|
    && forall i :: 0 <= i < |f.rows| ==> f.rows[i].t == CorregirFechaHora(book[n].fecha[i])
  }

  /** The sheets are distinct. */
  lemma MetSheetsDistinct()
    ensures forall i, j :: 0 <= i < j < |MetSheets| ==> MetSheets[i] != MetSheets[j]
  {
    assert MetSheets[0][0] == 'T' && MetSheets[1][0] == 'H' && MetSheets[2][1] == 'R' && MetSheets[3][1] == 'R';
    assert MetSheets[2][2] == 'E' && MetSheets[3][2] == 'E' && MetSheets[2][3] == 'S' && MetSheets[3][3] == 'C';
  }

  /** `final_df` after the loop over TEMP, HUM, PRES and PREC. */
  function Built(book: map<string, MetSheet>, station: string): (b: Build)
    ensures b.Table? ==> WellFormed(b.frame) && |b.frame.names| > 0 && NamedAfterSheets(b.frame, book, MetSheets)
  {
    MetSheetsDistinct();
    StepsNames(book, MetSheets, station);
    Steps(book, MetSheets, station)
  }

  /** A table built by the sheet loop is well formed and has at least one column; its
      columns are named after distinct sheets, in the order of `names`. */
  lemma {:induction false} StepsNames(book: map<string, MetSheet>, names: seq<string>, station: string)
    requires forall i, j :: 0 <= i < j < |names| ==> names[i] != names[j]
    ensures var b := Steps(book, names, station);
      b.Table? ==> WellFormed(b.frame) && |b.frame.names| > 0 && NamedAfterSheets(b.frame, book, names)
    decreases |names|
  {
    if |names| > 0 {
      var init := names[..|names| - 1];
      var name := names[|names| - 1];
      StepsNames(book, init, station);
      assert names == init + [name];
      assert name !in init by {
        forall i | 0 <= i < |init| ensures init[i] != name {
          assert init[i] == names[i];
        }
      }
      StepNames(Steps(book, init, station), book, init, name, station);
    }
  }

  /** One pass adds, at most, the column of a sheet not already named. */
  lemma StepNames(prev: Build, book: map<string, MetSheet>, init: seq<string>, name: string, station: string)
    requires prev.Table? ==> WellFormed(prev.frame) && |prev.frame.names| > 0 && NamedAfterSheets(prev.frame, book, init)
    requires name !in init
    ensures var b := Step(prev, book, name, station);
      b.Table? ==> WellFormed(b.frame) && |b.frame.names| > 0 && NamedAfterSheets(b.frame, book, init + [name])
  {
    var b := Step(prev, book, name, station);
    if b.Table? && b != prev {
      if prev.Table? {
        forall c | 0 <= c < |prev.frame.names| ensures prev.frame.names[c] != name {
          assert prev.frame.names[c] in init;
        }
      }
    }
  }

  /** Every column of `f` comes from its sheet of the book. */
  predicate ColumnsFromBook(f: MetFrame, book: map<string, MetSheet>, station: string) {
    && WellFormed(f)
    && (forall c :: 0 <= c < |f.names| ==> f.names[c] in book)
    && (forall c :: 0 <= c < |f.names| ==> ColumnFromSheet(f, book, station, c))
  }

  /** Adding the matching column of the sheet `name` keeps every column tied to its sheet. */
  lemma AddColumnFromBook(f: MetFrame, book: map<string, MetSheet>, station: string, name: string, m: nat)
    requires ColumnsFromBook(f, book, station)
    requires name in book && m == FirstMatch(book[name].columns, station)
    requires m < |book[name].columns| && m < |book[name].values| && |book[name].values[m]| == |f.rows|
    ensures ColumnsFromBook(AddColumn(f, name, book[name].values[m]), book, station)
  {
    var g := AddColumn(f, name, book[name].values[m]);
    forall c | 0 <= c < |g.names| ensures g.names[c] in book && ColumnFromSheet(g, book, station, c) {
      if c < |f.names| {
        assert ColumnFromSheet(f, book, station, c);
        assert forall i :: 0 <= i < |g.rows| ==> g.rows[i].vals[c] == f.rows[i].vals[c];
      }
    }
  }

  /** Each column of a table built by the sheet loop holds the values of the first column
      of its sheet that matches the station. */
  lemma {:induction false} StepsColumns(book: map<string, MetSheet>, names: seq<string>, station: string)
    ensures var b := Steps(book, names, station);
      b.Table? ==> ColumnsFromBook(b.frame, book, station)
    decreases |names|
  {
    if |names| > 0 {
      var init := names[..|names| - 1];
      StepsColumns(book, init, station);
      var prev := Steps(book, init, station);
      var name := names[|names| - 1];
      var b := Steps(book, names, station);
      if b.Table? && b != prev {
        var m := FirstMatch(book[name].columns, station);
        var base := if prev.Pending? then Timeline(book[name].fecha) else prev.frame;
        AddColumnFromBook(base, book, station, name, m);
      }
    }
  }

  /** The timestamps of a table built by the sheet loop are the corrected `Fecha` values
      of one sheet: the first one that matched. */
  lemma {:induction false} StepsTimes(book: map<string, MetSheet>, names: seq<string>, station: string)
    ensures var b := Steps(book, names, station);
      b.Table? ==> exists n :: TimesFromSheet(b.frame, book, n)
    decreases |names|
  {
    if |names| > 0 {
      var init := names[..|names| - 1];
      StepsTimes(book, init, station);
      var prev := Steps(book, init, station);
      var name := names[|names| - 1];
      var b := Steps(book, names, station);
      if b.Table? && prev.Table? {
        var n :| TimesFromSheet(prev.frame, book, n);
        assert TimesFromSheet(b.frame, book, n);
      } else if b.Table? && prev.Pending? {
        assert TimesFromSheet(b.frame, book, name);
      }
    }
  }

  /** The loop leaves the table pending, failed or built; while pending, no sheet had a
      matching column. */
  lemma {:induction false} StepsPending(book: map<string, MetSheet>, names: seq<string>, station: string)
    requires Steps(book, names, station).Pending?
    ensures forall n :: n in names && n in book ==>
              FirstMatch(book[n].columns, station) >= |book[n].columns| || FirstMatch(book[n].columns, station) >= |book[n].values|
    decreases |names|
  {
    if |names| > 0 {
      StepsPending(book, names[..|names| - 1], station);
      assert forall n :: n in names ==> n in names[..|names| - 1] || n == names[|names| - 1];
    }
  }

  /** `Series.max()` / `Series.min()`: NaN values are skipped; NaN when none is left. */
  function MaxSkipNa(xs: seq<Float>): (r: Float)
    ensures r.NaN? <==> forall i :: 0 <= i < |xs| ==> xs[i].NaN?
    ensures r.F? ==> (exists i :: 0 <= i < |xs| && xs[i] == r) && forall i :: 0 <= i < |xs| && xs[i].F? ==> xs[i].x <= r.x
    decreases |xs|
  {
    if |xs| == 0 then NaN
    else
      var rest := MaxSkipNa(xs[1..]);
      assert forall i :: 1 <= i < |xs| ==> xs[i] == xs[1..][i - 1];
      if xs[0].NaN? then rest
      else if rest.NaN? || xs[0].x >= rest.x then xs[0]
      else rest
  }

  function MinSkipNa(xs: seq<Float>): (r: Float)
    ensures r.NaN? <==> forall i :: 0 <= i < |xs| ==> xs[i].NaN?
    ensures r.F? ==> (exists i :: 0 <= i < |xs| && xs[i] == r) && forall i :: 0 <= i < |xs| && xs[i].F? ==> r.x <= xs[i].x
    decreases |xs|
  {
    if |xs| == 0 then NaN
    else
      var rest := MinSkipNa(xs[1..]);
      assert forall i :: 1 <= i < |xs| ==> xs[i] == xs[1..][i - 1];
      if xs[0].NaN? then rest
      else if rest.NaN? || xs[0].x <= rest.x then xs[0]
      else rest
  }

  datatype SummaryRow = SummaryRow(variable: string, max: Float, min: Float, delta: Float)

  function Column(f: MetFrame, c: nat): seq<Float>
    requires WellFormed(f) && c < |f.names|
  {
    seq(|f.rows|, i requires 0 <= i < |f.rows| => f.rows[i].vals[c])
  }

  /** Lines 139-158: one row per column. The day and night summaries are NaN throughout for
      a table with no rows. */
  function Summarize(f: MetFrame, nanWhenEmpty: bool): (s: seq<SummaryRow>)
    requires WellFormed(f)
    ensures |s| == |f.names|
    ensures forall c :: 0 <= c < |s| ==> s[c].variable == f.names[c]
    ensures forall c :: 0 <= c < |s| ==> s[c].delta == Sub(s[c].max, s[c].min)
    ensures forall c :: 0 <= c < |s| && s[c].delta.F? ==> s[c].delta.x >= 0.0
    ensures nanWhenEmpty && IsEmpty(f) ==> forall c :: 0 <= c < |s| ==> s[c].max.NaN? && s[c].min.NaN?
    ensures forall c :: 0 <= c < |s| && !(nanWhenEmpty && IsEmpty(f)) ==>
              s[c].max == MaxSkipNa(Column(f, c)) && s[c].min == MinSkipNa(Column(f, c))
  {
    seq(|f.names|, c requires 0 <= c < |f.names| =>
      if nanWhenEmpty && IsEmpty(f) then SummaryRow(f.names[c], NaN, NaN, NaN)
      else
        var col := Column(f, c);
        var mx, mn := MaxSkipNa(col), MinSkipNa(col);
        assert mx.F? <==> mn.F?;
        assert mx.F? ==> mn.x <= mx.x by {
          if mx.F? {
            var i :| 0 <= i < |col| && col[i] == mn;
          }
        }
        SummaryRow(f.names[c], mx, mn, Sub(mx, mn)))
  }

  /** The six results; `NoData` is the six Nones. */
  datatype Weather =
    | NoData
    | Weather(table: MetFrame, day: MetFrame, night: MetFrame,
              summary: seq<SummaryRow>, daySummary: seq<SummaryRow>, nightSummary: seq<SummaryRow>)

  /** 2024-04-01 00:00, the first placeholder timestamp. */
  const PlaceholderStart: Timestamp := 19814 * SecondsPerDay

  /** Lines 71-100: the placeholder for a station without weather data: 24 hourly rows from
      2024-04-01 with four NaN columns, and a summary of NaNs. */
  function Placeholder(): (w: Weather) {
    var table := MetFrame(MetSheets, seq(24, i requires 0 <= i < 24 => MetRow(PlaceholderStart + i * SecondsPerHour, [NaN, NaN, NaN, NaN])));
    var summary := seq(4, i requires 0 <= i < 4 => SummaryRow(MetSheets[i], NaN, NaN, NaN));
    Weather(table, table, table, summary, summary, summary)
  }

  /** Lines 62-66: the station's key, and the stripped name of its meteorological column
      when the key is in the station map. */
  function StationColumn(estacion: string): (c: Option<string>)
    ensures c.Some? <==> StationKey(estacion) in EstacionesMet
    ensures c.Some? ==> c.value == Strip(EstacionesMet[StationKey(estacion)])
  {
    var key := StationKey(estacion);
    if key in EstacionesMet then Some(Strip(EstacionesMet[key])) else None
  }

  /** `process_and_export_weather_data` without the file output. */
  function ProcessWeather(book: map<string, MetSheet>, estacion: string): (w: Weather) {
    match StationColumn(estacion)
    case None => NoData
    case Some(station) =>
      if station == SdaPlaceholder then Placeholder()
      else
        match Built(book, station)
        case Pending => NoData
        case Failed => NoData
        case Table(f) =>
          if |f.rows| == 0 then NoData
          else Summaries(f)
  }

  /** Lines 121-158 on a built, non-empty table: the day and night selections and the three
      summaries. */
  function Summaries(f: MetFrame): (w: Weather)
    requires WellFormed(f)
    ensures w.Weather? && w.table == f
  {
    var day := FilterByTimeRange(Some(f), DiurnaInicio, DiurnaFin, false);
    var night := FilterByTimeRange(Some(f), NocturnaInicio, NocturnaFin, true);
    FilterWellFormed(f, DiurnaInicio, DiurnaFin, false);
    FilterWellFormed(f, NocturnaInicio, NocturnaFin, true);
    Weather(f, day, night, Summarize(f, false), Summarize(day, true), Summarize(night, true))
  }

  lemma FilterWellFormed(f: MetFrame, start: int, end: int, night: bool)
    requires WellFormed(f)
    ensures WellFormed(FilterByTimeRange(Some(f), start, end, night))
  {
    var r := FilterByTimeRange(Some(f), start, end, night);
    forall i | 0 <= i < |r.rows| ensures |r.rows[i].vals| == |r.names| {
      assert r.rows[i] in r.rows;
    }
  }

  lemma StripSda()
    ensures Strip(SdaPlaceholder) == SdaPlaceholder
  {
    assert !IsSpace('S') && !IsSpace('A');
  }

  /** A station outside the station map gives no data. */
  lemma UnknownStation(book: map<string, MetSheet>, estacion: string)
    requires StationKey(estacion) !in EstacionesMet
    ensures ProcessWeather(book, estacion) == NoData
  {
  }

  /** EMRI_34 and EMRI_35 give the placeholder whatever the workbook holds. */
  lemma PlaceholderStation(book: map<string, MetSheet>, estacion: string)
    requires StationKey(estacion) == "EMRI_34" || StationKey(estacion) == "EMRI_35"
    ensures ProcessWeather(book, estacion) == Placeholder()
  {
    SdaColumn(estacion);
    PlaceholderColumn(book, estacion);
  }

  lemma SdaColumn(estacion: string)
    requires StationKey(estacion) == "EMRI_34" || StationKey(estacion) == "EMRI_35"
    ensures StationColumn(estacion) == Some(SdaPlaceholder)
  {
    SdaStations();
    StripSda();
  }

  lemma PlaceholderColumn(book: map<string, MetSheet>, estacion: string)
    requires StationColumn(estacion) == Some(SdaPlaceholder)
    ensures ProcessWeather(book, estacion) == Placeholder()
  {
  }

  /** The placeholder: 24 hourly rows of NaN from 2024-04-01 00:00, and summaries of NaN. */
  lemma PlaceholderShape()
    ensures var p := Placeholder();
      && |p.table.rows| == 24
      && p.table.names == MetSheets
      && (forall i :: 0 <= i < 24 ==> p.table.rows[i].t == PlaceholderStart + i * SecondsPerHour)
      && (forall i :: 0 <= i < 24 ==> forall v :: v in p.table.rows[i].vals ==> v.NaN?)
      && (forall s :: s in p.summary ==> s.max.NaN? && s.min.NaN? && s.delta.NaN?)
  {
  }

  /** A station with weather data that gives a result has a non-empty table whose day rows
      lie in 07:00-20:00 and whose night rows lie in 21:00-06:00, both taken from the table;
      its summaries have one row per column, with ∆ = MAX - MIN and never negative. */
  lemma WeatherWithData(book: map<string, MetSheet>, estacion: string)
    requires ProcessWeather(book, estacion).Weather?
    requires StationColumn(estacion).Some? && StationColumn(estacion).value != SdaPlaceholder
    ensures var w := ProcessWeather(book, estacion);
      && |w.table.rows| > 0
      && w.day.names == w.table.names && w.night.names == w.table.names
      && (forall r :: r in w.day.rows ==> r in w.table.rows && DiurnaInicio <= TimeOfDay(r.t) <= DiurnaFin)
      && (forall r :: r in w.night.rows ==> r in w.table.rows && (TimeOfDay(r.t) >= NocturnaInicio || TimeOfDay(r.t) <= NocturnaFin))
      && |w.summary| == |w.table.names|
      && (forall c :: 0 <= c < |w.summary| ==> w.summary[c].delta == Sub(w.summary[c].max, w.summary[c].min))
      && (forall c :: 0 <= c < |w.summary| && w.summary[c].delta.F? ==> w.summary[c].delta.x >= 0.0)
  {
    var b := Built(book, StationColumn(estacion).value);
    assert b.Table? && |b.frame.rows| > 0;
    assert ProcessWeather(book, estacion) == Summaries(b.frame);
    SummariesShape(b.frame);
  }

  lemma SummariesShape(f: MetFrame)
    requires WellFormed(f) && |f.rows| > 0 && |f.names| > 0
    ensures var w := Summaries(f);
      && w.day.names == f.names && w.night.names == f.names
      && (forall r :: r in w.day.rows ==> r in f.rows && DiurnaInicio <= TimeOfDay(r.t) <= DiurnaFin)
      && (forall r :: r in w.night.rows ==> r in f.rows && (TimeOfDay(r.t) >= NocturnaInicio || TimeOfDay(r.t) <= NocturnaFin))
      && |w.summary| == |f.names|
      && (forall c :: 0 <= c < |w.summary| ==> w.summary[c].delta == Sub(w.summary[c].max, w.summary[c].min))
      && (forall c :: 0 <= c < |w.summary| && w.summary[c].delta.F? ==> w.summary[c].delta.x >= 0.0)
  {
  }
}
