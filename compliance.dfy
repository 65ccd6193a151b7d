/** The compliance stage: regulatory limits, the per-row fields K, U, E, w, Au, Rp*=Pc, Rc and
    the declaration of the summary and daily tables, and the final shape of the daily tables.
    The limit tables are parameters (maps from station to limit); the normal CDF behind
    Rp*=Pc is an opaque parameter. A missing value in a float column is NaN. */
module Compliance {
  import opened Values
  import opened DateUtils
  import opened Acoustic
  import opened DataHandler

  // ---------------------------------------------------------------------------
  // K and U by day type

  /** One row of an expanded-uncertainty table: the plain, Sunday and weekday values. */
  datatype IncExp = IncExp(k: Float, kDom: Float, kOrd: Float, u: Float, uDom: Float, uOrd: Float)

  datatype KU = KU(k: Float, u: Float)

  /** Lines 20-32 / 89-101: a summary row takes the Sunday values for "Dominical", the
      weekday values for "Ordinario", the plain values for "Total", and nothing (NaN in the
      float column) for any other day type. */
  function SummaryKU(tipo: string, inc: IncExp): (r: KU)
    ensures tipo == "Dominical" ==> r == KU(inc.kDom, inc.uDom)
    ensures tipo == "Ordinario" ==> r == KU(inc.kOrd, inc.uOrd)
    ensures tipo == "Total" ==> r == KU(inc.k, inc.u)
    ensures tipo !in {"Dominical", "Ordinario", "Total"} ==> r == KU(NaN, NaN)
  {
    if tipo == "Dominical" then KU(inc.kDom, inc.uDom)
    else if tipo == "Ordinario" then KU(inc.kOrd, inc.uOrd)
    else if tipo == "Total" then KU(inc.k, inc.u)
    else KU(NaN, NaN)
  }

  /** Lines 53-54 / 122-123: a daily row takes the Sunday values for "Dominical" and the
      weekday values for every other day type. */
  function DailyKU(tipo: string, inc: IncExp): (r: KU)
    ensures tipo == "Dominical" ==> r == KU(inc.kDom, inc.uDom)
    ensures tipo != "Dominical" ==> r == KU(inc.kOrd, inc.uOrd)
  {
    if tipo == "Dominical" then KU(inc.kDom, inc.uDom) else KU(inc.kOrd, inc.uOrd)
  }

  /** On the two day types a daily table can hold, both selections agree. */
  lemma DailyAgreesWithSummary(d: int, inc: IncExp)
    ensures DailyKU(TipoDia(d * SecondsPerDay), inc) == SummaryKU(TipoDia(d * SecondsPerDay), inc)
  {
  }

  // ---------------------------------------------------------------------------
  // E, w, Au, Rp*=Pc and Rc

  /** `max(level - Tu, 0)`, the exceedance. */
  function Excess(level: Float, tu: real): (e: Float)
    ensures level.NaN? <==> e.NaN?
    ensures e.F? ==> e.x >= 0.0
    ensures level.F? ==> (e == F(0.0) <==> level.x <= tu)
    ensures level.F? && level.x > tu ==> e == F(level.x - tu)
  {
    PyMax(Sub(level, F(tu)), F(0.0))
  }

  /** A probability column: a number, or the sentinel "—". */
  datatype Prob = P(p: Float) | NoProb

  /** Python truthiness of a float: NaN is true, zero is false. */
  predicate Truthy(x: Float) { x.NaN? || x.x != 0.0 }

  /** Lines 40-44: the CDF only when both U and K are truthy, else "—". */
  function Rp(level: Float, tu: real, ku: KU, cdf: (Float, real, KU) -> Float): (r: Prob)
    ensures r.NoProb? <==> ku.u == F(0.0) || ku.k == F(0.0)
    ensures r.P? ==> r.p == cdf(level, tu, ku)
  {
    if Truthy(ku.u) && Truthy(ku.k) then P(cdf(level, tu, ku)) else NoProb
  }

  /** Lines 45-48: `1 - Rp` when Rp is a number, else "—". */
  function Rc(rp: Prob): (r: Prob)
    ensures r.NoProb? <==> rp.NoProb?
    ensures rp.P? && rp.p.F? ==> r == P(F(1.0 - rp.p.x))
  {
    if rp.P? then P(Sub(F(1.0), rp.p)) else NoProb
  }

  /** The columns the compliance stage adds to a row. */
  datatype Assessment = Assessment(k: Float, u: Float, e: Float, w: Float, au: Float, rp: Prob, rc: Prob, decl: Declaracion)

  /** A row as the compliance stage reads it: its day type, its level (`LRASeq_k` or
      `LRASeq_1d`) and its limit `Tu`, missing when the station has none. */
  datatype LimitRow = LimitRow(tipo: string, level: Float, tu: Option<real>)

  /** A summary row with a limit: E, then `w = -U`, then `Au = Tu - w`, then the probability
      columns and the declaration. */
  function AssessSummary(r: LimitRow, inc: IncExp, cdf: (Float, real, KU) -> Float): (a: Assessment)
    requires r.tu.Some?
    ensures a.k == SummaryKU(r.tipo, inc).k && a.u == SummaryKU(r.tipo, inc).u
    ensures a.e == Excess(r.level, r.tu.value)
    ensures a.w == Neg(a.u)
    ensures a.au == Sub(F(r.tu.value), a.w)
    ensures a.rc == Rc(a.rp)
    ensures a.decl == Declarar(r.level, F(r.tu.value), a.au, a.w)
  {
    var ku := SummaryKU(r.tipo, inc);
    var w := Neg(ku.u);
    var au := Sub(F(r.tu.value), w);
    var rp := Rp(r.level, r.tu.value, ku, cdf);
    Assessment(ku.k, ku.u, Excess(r.level, r.tu.value), w, au, rp, Rc(rp), Declarar(r.level, F(r.tu.value), au, w))
  }

  /** Line 59 / 128: the `Au` of the first summary row whose day type is "Dominical" for a
      Sunday row, and "Ordinario" for any other; none when the summary has no such row. */
  function CopiedAu(summary: seq<LimitRow>, assessed: seq<Assessment>, tipo: string): (au: Option<Float>)
    requires |summary| == |assessed|
    ensures var want := DayKind(tipo);
      && (au.None? <==> forall i :: 0 <= i < |summary| ==> summary[i].tipo != want)
      && (au.Some? ==> exists i :: 0 <= i < |summary| && summary[i].tipo == want && au.value == assessed[i].au
                                   && forall j :: 0 <= j < i ==> summary[j].tipo != want)
    decreases |summary|
  {
    var want := DayKind(tipo);
    if |summary| == 0 then None
    else if summary[0].tipo == want then Some(assessed[0].au)
    else
      var rest := CopiedAu(summary[1..], assessed[1..], tipo);
      assert forall i :: 1 <= i < |summary| ==> summary[i] == summary[1..][i - 1] && assessed[i] == assessed[1..][i - 1];
      rest
  }

  /** A daily row: K and U by the daily rule, E and w computed, and `Au` copied from the
      summary, not recomputed; the declaration compares with the copied `Au`. */
  function AssessDaily(r: LimitRow, inc: IncExp, au: Float, cdf: (Float, real, KU) -> Float): (a: Assessment)
    requires r.tu.Some?
    ensures a.k == DailyKU(r.tipo, inc).k && a.u == DailyKU(r.tipo, inc).u
    ensures a.e == Excess(r.level, r.tu.value)
    ensures a.w == Neg(a.u)
    ensures a.au == au
    ensures a.rc == Rc(a.rp)
    ensures a.decl == Declarar(r.level, F(r.tu.value), au, a.w)
  {
    var ku := DailyKU(r.tipo, inc);
    var w := Neg(ku.u);
    var rp := Rp(r.level, r.tu.value, ku, cdf);
    Assessment(ku.k, ku.u, Excess(r.level, r.tu.value), w, au, rp, Rc(rp), Declarar(r.level, F(r.tu.value), au, w))
  }

  predicate AllLimited(rows: seq<LimitRow>) {
    forall i :: 0 <= i < |rows| ==> rows[i].tu.Some?
  }

  /** `procesar_compliance_diurno` / `_nocturno` on values: the new columns of the summary
      and of the daily table, or `None` when the source raises: a missing limit makes
      `level - Tu` a TypeError, and a daily day type without its summary row makes
      `.values[0]` an IndexError. */
  function ProcesarCompliance(summary: seq<LimitRow>, daily: seq<LimitRow>, inc: IncExp, cdf: (Float, real, KU) -> Float)
    : (r: Option<(seq<Assessment>, seq<Assessment>)>)
    ensures r.Some? ==> |r.value.0| == |summary| && |r.value.1| == |daily|
  {
    if !AllLimited(summary) then None
    else
      var s := seq(|summary|, i requires 0 <= i < |summary| => AssessSummary(summary[i], inc, cdf));
      if !AllLimited(daily) then None
      else if exists i :: 0 <= i < |daily| && CopiedAu(summary, s, daily[i].tipo).None? then None
      else Some((s, seq(|daily|, i requires 0 <= i < |daily| => AssessDaily(daily[i], inc, CopiedAu(summary, s, daily[i].tipo).value, cdf))))
  }

  /** The day type whose summary row a daily row takes its `Au` from. */
  function DayKind(tipo: string): (want: string)
    ensures want == "Dominical" || want == "Ordinario"
    ensures want == "Dominical" <==> tipo == "Dominical"
  {
    if tipo == "Dominical" then "Dominical" else "Ordinario"
  }

  predicate HasKind(summary: seq<LimitRow>, want: string) {
    exists j :: 0 <= j < |summary| && summary[j].tipo == want
  }

  /** The stage succeeds exactly when every row has a limit and every daily day type finds
      its summary row. */
  lemma ComplianceSucceeds(summary: seq<LimitRow>, daily: seq<LimitRow>, inc: IncExp, cdf: (Float, real, KU) -> Float)
    ensures ProcesarCompliance(summary, daily, inc, cdf).Some? <==>
      AllLimited(summary) && AllLimited(daily) && forall i :: 0 <= i < |daily| ==> HasKind(summary, DayKind(daily[i].tipo))
  {
    if AllLimited(summary) && AllLimited(daily) {
      var s := seq(|summary|, i requires 0 <= i < |summary| => AssessSummary(summary[i], inc, cdf));
      forall i | 0 <= i < |daily|
        ensures CopiedAu(summary, s, daily[i].tipo).None? <==> !HasKind(summary, DayKind(daily[i].tipo))
      {
      }
    }
  }

  /** Daily row `d` was assessed as `a` with the `Au` of the first summary row of its day
      type. */
  predicate FromFirstOfKind(summary: seq<LimitRow>, assessed: seq<Assessment>, d: LimitRow, a: Assessment,
                            inc: IncExp, cdf: (Float, real, KU) -> Float)
    requires |assessed| == |summary| && d.tu.Some?
  {
    exists j :: 0 <= j < |summary| && summary[j].tipo == DayKind(d.tipo)
                && (forall k :: 0 <= k < j ==> summary[k].tipo != DayKind(d.tipo))
                && a == AssessDaily(d, inc, assessed[j].au, cdf)
  }

  /** On success each summary row is assessed by the summary rule, and each daily row by the
      daily rule with the `Au` of the first summary row of its day type. */
  lemma ComplianceRows(summary: seq<LimitRow>, daily: seq<LimitRow>, inc: IncExp, cdf: (Float, real, KU) -> Float)
    requires ProcesarCompliance(summary, daily, inc, cdf).Some?
    ensures AllLimited(summary) && AllLimited(daily)
    ensures var r := ProcesarCompliance(summary, daily, inc, cdf).value;
      && (forall i :: 0 <= i < |summary| ==> r.0[i] == AssessSummary(summary[i], inc, cdf))
      && (forall i :: 0 <= i < |daily| ==> FromFirstOfKind(summary, r.0, daily[i], r.1[i], inc, cdf))
  {
    var r := ProcesarCompliance(summary, daily, inc, cdf).value;
    var s := seq(|summary|, i requires 0 <= i < |summary| => AssessSummary(summary[i], inc, cdf));
    assert r.0 == s;
    forall i | 0 <= i < |daily|
      ensures FromFirstOfKind(summary, r.0, daily[i], r.1[i], inc, cdf)
    {
      var au := CopiedAu(summary, s, daily[i].tipo);
      assert r.1[i] == AssessDaily(daily[i], inc, au.value, cdf);
      var j :| 0 <= j < |summary| && summary[j].tipo == DayKind(daily[i].tipo) && au.value == s[j].au
               && forall k :: 0 <= k < j ==> summary[k].tipo != DayKind(daily[i].tipo);
    }
  }

  /** The exceedance is never negative and is zero exactly when the level is within the
      limit; a summary row of a station with a positive U is declared by the level alone:
      "Pasa" within the limit, "Pasa condicional" within U above it, "No pasa" beyond, and
      never "No pasa condicional" or "—". */
  lemma SummaryDeclaration(r: LimitRow, inc: IncExp, cdf: (Float, real, KU) -> Float)
    requires r.tu.Some? && r.level.F?
    requires SummaryKU(r.tipo, inc).u.F? && SummaryKU(r.tipo, inc).u.x > 0.0
    ensures var a := AssessSummary(r, inc, cdf);
      var tu, u := r.tu.value, SummaryKU(r.tipo, inc).u.x;
      && a.w == F(-u) && a.au == F(tu + u)
      && a.decl != NoPasaCondicional && a.decl != Indefinida
      && (a.decl == Pasa <==> r.level.x <= tu)
      && (a.decl == Pasa <==> a.e == F(0.0))
      && (a.decl == PasaCondicional <==> tu < r.level.x <= tu + u)
      && (a.decl == NoPasa <==> r.level.x > tu + u)
  {
    var u := SummaryKU(r.tipo, inc).u.x;
    DeclaracionWithUncertainty(r.level.x, r.tu.value, u);
  }

  /** A zero U makes the margin zero, so the declaration is "—", and the probability columns
      are "—" too. */
  lemma ZeroUncertainty(r: LimitRow, inc: IncExp, cdf: (Float, real, KU) -> Float)
    requires r.tu.Some? && SummaryKU(r.tipo, inc).u == F(0.0)
    ensures var a := AssessSummary(r, inc, cdf);
      a.decl == Indefinida && a.rp.NoProb? && a.rc.NoProb?
  {
  }

  /** A daily row's `Au` is the copy from the summary; it agrees with `Tu + U` recomputed on
      the daily row when the summary row carries the same limit, since both rows then take
      U from the same column. */
  lemma DailyAuConsistent(s: LimitRow, d: LimitRow, inc: IncExp, cdf: (Float, real, KU) -> Float)
    requires s.tu.Some? && d.tu == s.tu
    requires (d.tipo == "Dominical" && s.tipo == "Dominical") || (d.tipo != "Dominical" && s.tipo == "Ordinario")
    requires SummaryKU(s.tipo, inc).u.F?
    ensures var a := AssessDaily(d, inc, AssessSummary(s, inc, cdf).au, cdf);
      a.au == Sub(F(d.tu.value), a.w) && a.au == F(d.tu.value + a.u.x)
  {
  }

  // ---------------------------------------------------------------------------
  // Limits and the tables they are written into

  /** A table of the compliance stage; the columns it adds are empty until the stage runs. */
  class Table {
    var rows: seq<LimitRow>
    var added: seq<Assessment>

    constructor (rows0: seq<LimitRow>)
      ensures rows == rows0 && added == []
    {
      rows := rows0;
      added := [];
    }
  }

  /** `dict.get(Estacion, None)`. */
  function Limit(limits: map<string, real>, station: string): (tu: Option<real>)
    ensures tu.Some? <==> station in limits
    ensures tu.Some? ==> tu.value == limits[station]
  {
    if station in limits then Some(limits[station]) else None
  }

  function WithLimit(rows: seq<LimitRow>, tu: Option<real>): (r: seq<LimitRow>)
    ensures |r| == |rows|
    ensures forall i :: 0 <= i < |r| ==> r[i] == rows[i].(tu := tu)
  {
    seq(|rows|, i requires 0 <= i < |rows| => rows[i].(tu := tu))
  }

  /** `asignar_limites` / `asignar_limites_diarios`: the station's day limit into every row
      of the day table and its night limit into every row of the night table. */
  method AsignarLimites(diurno: Table, nocturno: Table, limiteDia: map<string, real>, limiteNoche: map<string, real>, station: string)
    modifies diurno, nocturno
    ensures nocturno.rows == WithLimit(old(nocturno.rows), Limit(limiteNoche, station))
    ensures diurno != nocturno ==> diurno.rows == WithLimit(old(diurno.rows), Limit(limiteDia, station))
    ensures diurno.added == old(diurno.added) && nocturno.added == old(nocturno.added)
  {
    diurno.rows := WithLimit(diurno.rows, Limit(limiteDia, station));
    nocturno.rows := WithLimit(nocturno.rows, Limit(limiteNoche, station));
  }

  /** After the limits are assigned, every row has the same `Tu`: the station's limit, or
      none for a station outside the table; the rest of each row is untouched. */
  lemma LimitsUniform(rows: seq<LimitRow>, limits: map<string, real>, station: string)
    ensures var r := WithLimit(rows, Limit(limits, station));
      && (forall i, j :: 0 <= i < |r| && 0 <= j < |r| ==> r[i].tu == r[j].tu)
      && (forall i :: 0 <= i < |r| ==> r[i].tipo == rows[i].tipo && r[i].level == rows[i].level)
      && (station !in limits ==> forall i :: 0 <= i < |r| ==> r[i].tu.None?)
      && (station in limits ==> forall i :: 0 <= i < |r| ==> r[i].tu == Some(limits[station]))
  {
  }

  /** A station without a limit makes the compliance stage fail as soon as it has a
      summary row. */
  lemma MissingLimitRaises(summary: seq<LimitRow>, daily: seq<LimitRow>, limits: map<string, real>, station: string,
                           inc: IncExp, cdf: (Float, real, KU) -> Float)
    requires station !in limits && |summary| > 0
    ensures ProcesarCompliance(WithLimit(summary, Limit(limits, station)), daily, inc, cdf).None?
  {
    assert WithLimit(summary, Limit(limits, station))[0].tu.None?;
  }

  /** `procesar_compliance_diurno` / `_nocturno`: the summary columns are written first,
      then the daily ones; when a step raises, the columns written so far are not
      described. */
  method ProcesarComplianceTables(summary: Table, daily: Table, inc: IncExp, cdf: (Float, real, KU) -> Float)
    returns (ok: bool)
    requires summary != daily
    modifies summary, daily
    ensures summary.rows == old(summary.rows) && daily.rows == old(daily.rows)
    ensures ok <==> ProcesarCompliance(old(summary.rows), old(daily.rows), inc, cdf).Some?
    ensures ok ==> (summary.added, daily.added) == ProcesarCompliance(old(summary.rows), old(daily.rows), inc, cdf).value
  {
    if !AllLimited(summary.rows) {
      return false;
    }
    var rows := summary.rows;
    summary.added := seq(|rows|, i requires 0 <= i < |rows| => AssessSummary(rows[i], inc, cdf));
    if !AllLimited(daily.rows) {
      return false;
    }
    var s := summary.added;
    var drows := daily.rows;
    if exists i :: 0 <= i < |drows| && CopiedAu(rows, s, drows[i].tipo).None? {
      return false;
    }
    daily.added := seq(|drows|, i requires 0 <= i < |drows| => AssessDaily(drows[i], inc, CopiedAu(rows, s, drows[i].tipo).value, cdf));
    return true;
  }

  // ---------------------------------------------------------------------------
  // finalizar_agrupados

  /** A row of a final daily table, its nine columns in the order Fechas, TipoDia, Nm_1d,
      LASeq_1d, LAIeq_1d, KI,1d, KT,1d, Bandas, LRASeq_1d. `KT,1d` is `KtMissing` and
      `Bandas` is `None` where the positional copy has no value. */
  datatype FinalRow = FinalRow(fecha: int, tipo: string, nm: nat, laseq: Float, laieq: Float, ki: Float,
                               kt: Kt, bandas: Option<string>, lraseq: Float)

  function FinalOf(d: DailyRow, kt: Kt, bandas: Option<string>): FinalRow {
    FinalRow(d.fecha, TipoDia(d.fecha * SecondsPerDay), d.nm, d.laseq, d.laieq, d.ki, kt, bandas, d.lraseq)
  }

  /** The tonal columns of one period, copied by position: row `i` gets the `i`-th daily
      tonal result whatever its date, and nothing past the end of the tonal table. */
  function Positional(daily: seq<DailyRow>, tonal: seq<TonalAdj>): (r: seq<FinalRow>)
    ensures |r| == |daily|
    ensures forall i :: 0 <= i < |r| ==> r[i].fecha == daily[i].fecha && r[i].lraseq == daily[i].lraseq
    ensures forall i :: 0 <= i < |r| ==> (r[i].tipo == "Dominical" <==> DayOfWeek(daily[i].fecha * SecondsPerDay) == 6)
    ensures forall i :: 0 <= i < |r| && i < |tonal| ==> r[i].kt == tonal[i].kt && r[i].bandas == Some(tonal[i].bandas)
    ensures forall i :: |tonal| <= i < |r| ==> r[i].kt == KtMissing && r[i].bandas.None?
  {
    seq(|daily|, i requires 0 <= i < |daily| =>
      if i < |tonal| then FinalOf(daily[i], tonal[i].kt, Some(tonal[i].bandas)) else FinalOf(daily[i], KtMissing, None))
  }

  /** `finalizar_agrupados` as written: when a period's daily table or its tonal table is
      empty, the `KT,1d` column is never created and selecting the nine columns raises. */
  function FinalizarAgrupados(dDaily: seq<DailyRow>, nDaily: seq<DailyRow>, dTonal: seq<TonalAdj>, nTonal: seq<TonalAdj>)
    : (r: Option<(seq<FinalRow>, seq<FinalRow>)>)
    ensures r.None? <==> |dDaily| == 0 || |dTonal| == 0 || |nDaily| == 0 || |nTonal| == 0
    ensures r.Some? ==> r.value == (Positional(dDaily, dTonal), Positional(nDaily, nTonal))
  {
    if |dDaily| == 0 || |dTonal| == 0 || |nDaily| == 0 || |nTonal| == 0 then None
    else Some((Positional(dDaily, dTonal), Positional(nDaily, nTonal)))
  }

  /** The positional copy gives a day the tonal adjustment of another day as soon as a date
      of the spectrum selection is missing from the level selection: here the only level
      date is day 2, the spectrum dates are days 1 and 2, and day 2 receives day 1's
      adjustment of 6 dB instead of its own 0 dB. */
  lemma PositionalMisaligns()
    ensures var daily := [DailyRow(2, 1, F(60.0), F(61.0), F(60.0), F(0.0))];
      var refDates := [1, 2];
      var tonal := [TonalAdj(KtNum(6), BandRanges[0]), TonalAdj(KtNum(0), NoTonal)];
      && refDates[1] == daily[0].fecha
      && FinalizarAgrupados(daily, daily, tonal, tonal).Some?
      && FinalizarAgrupados(daily, daily, tonal, tonal).value.0[0].kt == KtNum(6)
      && FinalizarAgrupados(daily, daily, tonal, tonal).value.0[0].kt != tonal[1].kt
  {
    var daily := [DailyRow(2, 1, F(60.0), F(61.0), F(60.0), F(0.0))];
    var tonal := [TonalAdj(KtNum(6), BandRanges[0]), TonalAdj(KtNum(0), NoTonal)];
    assert Positional(daily, tonal)[0].kt == KtNum(6);
  }

  /** The index of date `d` in the spectrum dates, if present. */
  function DateIndex(dates: seq<int>, d: int): (k: Option<nat>)
    ensures k.Some? ==> k.value < |dates| && dates[k.value] == d
    ensures k.None? <==> d !in dates
    decreases |dates|
  {
    if |dates| == 0 then None
    else if dates[0] == d then Some(0)
    else match DateIndex(dates[1..], d)
      case None => None
      case Some(k) => Some(k + 1)
  }

  /** The tonal columns of one period joined by date: a day gets the adjustment of the same
      date of the spectrum selection, and nothing when that date has none. */
  function ByDate(daily: seq<DailyRow>, dates: seq<int>, tonal: seq<TonalAdj>): (r: seq<FinalRow>)
    requires |dates| == |tonal|
    ensures |r| == |daily|
    ensures forall i :: 0 <= i < |r| ==> r[i].fecha == daily[i].fecha
    ensures forall i, j :: 0 <= i < |r| && 0 <= j < |dates| && dates[j] == daily[i].fecha ==>
              exists j' :: 0 <= j' < |dates| && dates[j'] == daily[i].fecha && r[i].kt == tonal[j'].kt && r[i].bandas == Some(tonal[j'].bandas)
    ensures forall i :: 0 <= i < |r| && daily[i].fecha !in dates ==> r[i].kt == KtMissing && r[i].bandas.None?
  {
    seq(|daily|, i requires 0 <= i < |daily| =>
      match DateIndex(dates, daily[i].fecha)
      case Some(k) => FinalOf(daily[i], tonal[k].kt, Some(tonal[k].bandas))
      case None => FinalOf(daily[i], KtMissing, None))
  }

  lemma IncreasingInjective(dates: seq<int>, a: nat, b: nat)
    requires StrictlyIncreasing(dates) && a < |dates| && b < |dates| && dates[a] == dates[b]
    ensures a == b
  {
  }

  /** With strictly increasing spectrum dates, as the daily grouping produces them, the join
      by date gives every day exactly its own date's tonal adjustment, and agrees with the
      positional copy when the two date lists are the same. */
  lemma ByDateCorrect(daily: seq<DailyRow>, dates: seq<int>, tonal: seq<TonalAdj>)
    requires |dates| == |tonal| && StrictlyIncreasing(dates)
    ensures forall i, j :: 0 <= i < |daily| && 0 <= j < |dates| && dates[j] == daily[i].fecha ==>
              ByDate(daily, dates, tonal)[i].kt == tonal[j].kt
    ensures |daily| == |dates| && (forall i :: 0 <= i < |daily| ==> daily[i].fecha == dates[i]) ==>
              ByDate(daily, dates, tonal) == Positional(daily, tonal)
  {
    var r := ByDate(daily, dates, tonal);
    forall i, j | 0 <= i < |daily| && 0 <= j < |dates| && dates[j] == daily[i].fecha
      ensures r[i].kt == tonal[j].kt
    {
      var j' :| 0 <= j' < |dates| && dates[j'] == daily[i].fecha && r[i].kt == tonal[j'].kt;
      IncreasingInjective(dates, j', j);
    }
    if |daily| == |dates| && (forall i :: 0 <= i < |daily| ==> daily[i].fecha == dates[i]) {
      var p := Positional(daily, tonal);
      forall i | 0 <= i < |daily| ensures r[i] == p[i] {
        var k := DateIndex(dates, daily[i].fecha);
        assert k.Some?;
        IncreasingInjective(dates, k.value, i);
      }
    }
  }

  /** `finalizar_agrupados` with the tonal columns joined by date instead of by position. */
  function FinalizarAgrupadosByDate(dDaily: seq<DailyRow>, nDaily: seq<DailyRow>,
                                    dDates: seq<int>, dTonal: seq<TonalAdj>, nDates: seq<int>, nTonal: seq<TonalAdj>)
    : (r: Option<(seq<FinalRow>, seq<FinalRow>)>)
    requires |dDates| == |dTonal| && |nDates| == |nTonal|
    requires StrictlyIncreasing(dDates) && StrictlyIncreasing(nDates)
    ensures r.None? <==> |dDaily| == 0 || |dTonal| == 0 || |nDaily| == 0 || |nTonal| == 0
    ensures r.Some? ==>
              && |r.value.0| == |dDaily| && |r.value.1| == |nDaily|
              && (forall i, j :: 0 <= i < |dDaily| && 0 <= j < |dDates| && dDates[j] == dDaily[i].fecha ==> r.value.0[i].kt == dTonal[j].kt)
              && (forall i, j :: 0 <= i < |nDaily| && 0 <= j < |nDates| && nDates[j] == nDaily[i].fecha ==> r.value.1[i].kt == nTonal[j].kt)
  {
    if |dDaily| == 0 || |dTonal| == 0 || |nDaily| == 0 || |nTonal| == 0 then None
    else
      ByDateCorrect(dDaily, dDates, dTonal);
      ByDateCorrect(nDaily, nDates, nTonal);
      Some((ByDate(dDaily, dDates, dTonal), ByDate(nDaily, nDates, nTonal)))
  }
}
