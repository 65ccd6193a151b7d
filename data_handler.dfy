/** Loading and shaping of one station sheet: band names, the five-column blocks of the
    sheet, the weighted spectrum and its tonal rows, the per-sample table with KI, the day and
    night selections and the per-date aggregates. */
module DataHandler {
  import opened Values
  import opened Constants
  import opened DateUtils
  import opened Acoustic

  // ---------------------------------------------------------------------------
  // cargar_datos: names and column blocks

  /** A band name with "1/3 Oct" and "Hz" removed and surrounding whitespace stripped. */
  function CleanName(s: string): (r: string)
    ensures |r| == 0 || (!IsSpace(r[0]) && !IsSpace(r[|r| - 1]))
  {
    Strip(Replace(Replace(s, "1/3 Oct", ""), "Hz", ""))
  }

  /** A name holding neither marker is only stripped. */
  lemma CleanNameUnmarked(s: string)
    requires !Contains(s, "1/3 Oct") && !Contains(s, "Hz")
    ensures CleanName(s) == Strip(s)
  {
    ReplaceAbsent(s, "1/3 Oct", "");
    ReplaceAbsent(s, "Hz", "");
  }

  /** `dropna()` on the name row. */
  function Present(raw: seq<Option<string>>): (r: seq<string>)
    ensures |r| <= |raw|
    ensures forall s :: s in r <==> Some(s) in raw
  {
    if |raw| == 0 then []
    else (match raw[0] case None => [] case Some(s) => [s]) + Present(raw[1..])
  }

  /** The cleaned names: missing cells are dropped first, so every name that reaches the
      cleaning step is present and the "Desconocido_<idx>" fallback of the cleaning is never
      taken. */
  function CleanNames(raw: seq<Option<string>>): (names: seq<string>)
    ensures |names| == |Present(raw)|
    ensures forall i :: 0 <= i < |names| ==> names[i] == CleanName(Present(raw)[i])
  {
    var p := Present(raw);
    seq(|p|, i requires 0 <= i < |p| => CleanName(p[i]))
  }

  /** A block of data columns `first .. end - 1` of the sheet and its name. */
  datatype Group = Group(name: string, first: nat, end: nat)

  /** The name of block `j`: the name with that index, or "Desconocido_<j>" past the end. */
  function GroupName(names: seq<string>, j: nat): string {
    if j < |names| then names[j] else "Desconocido_" + NatToString(j)
  }

  function Min(a: int, b: int): int { if a <= b then a else b }

  /** `range(1, ncols, 5)` has this many elements. */
  function NumGroups(ncols: nat): nat {
    if ncols <= 1 then 0 else (ncols + 3) / 5
  }

  /** The blocks of a sheet with `ncols` columns (column 0 holds the timestamps): block `g`
      starts at column `1 + 5g`, `iloc` clips it at the last column, and it is named with
      index `g + 1`. */
  function Groups(ncols: nat, names: seq<string>): seq<Group> {
    seq(NumGroups(ncols), g requires 0 <= g < NumGroups(ncols) => Group(GroupName(names, g + 1), 1 + 5 * g, Min(6 + 5 * g, ncols)))
  }

  lemma GroupCount(ncols: nat)
    ensures NumGroups(ncols) >= 2 <==> ncols >= 7
  {
    if ncols >= 7 {
      assert (ncols + 3) / 5 >= 10 / 5;
    } else if ncols > 1 {
      assert (ncols + 3) / 5 <= 9 / 5;
    }
  }

  /** The blocks tile the data columns: the first starts at column 1, each is non-empty and
      at most five wide, each starts where the previous one ends, and the last ends at the
      last column. */
  lemma GroupsTile(ncols: nat, names: seq<string>)
    ensures var gs := Groups(ncols, names);
      && (ncols <= 1 <==> |gs| == 0)
      && (|gs| > 0 ==> gs[0].first == 1 && gs[|gs| - 1].end == ncols)
      && (forall g :: 0 <= g < |gs| ==> gs[g].first < gs[g].end <= gs[g].first + 5)
      && (forall g :: 0 <= g < |gs| - 1 ==> gs[g].end == gs[g + 1].first)
  {
  }

  /** Lines 33-48: the loop with its own name counter `j`. */
  method ChunkColumns(ncols: nat, names: seq<string>) returns (groups: seq<Group>)
    ensures groups == Groups(ncols, names)
  {
    groups := [];
    var j := 1;
    var i := 1;
    while i < ncols
      invariant i == 1 + 5 * |groups| && j == |groups| + 1
      invariant |groups| <= NumGroups(ncols)
      invariant i < ncols ==> |groups| < NumGroups(ncols)
      invariant i >= ncols ==> |groups| == NumGroups(ncols)
      invariant groups == Groups(ncols, names)[..|groups|]
      decreases ncols - i
    {
      var nombre;
      if j < |names| {
        nombre := names[j];
      } else {
        nombre := "Desconocido_" + NatToString(j);
      }
      groups := groups + [Group(nombre, i, Min(i + 5, ncols))];
      j := j + 1;
      i := i + 5;
    }
  }

  function Keys(d: seq<(string, nat)>): (ks: seq<string>)
    ensures |ks| == |d| && forall i :: 0 <= i < |d| ==> ks[i] == d[i].0
  {
    seq(|d|, i requires 0 <= i < |d| => d[i].0)
  }

  predicate DistinctKeys(d: seq<(string, nat)>) {
    forall i, j :: 0 <= i < j < |d| ==> d[i].0 != d[j].0
  }

  /** The position of key `k` in `d`, or `|d|` when it is absent. */
  function KeyIndex(d: seq<(string, nat)>, k: string): (i: nat)
    ensures i <= |d| && (i < |d| ==> d[i].0 == k)
    ensures forall j :: 0 <= j < i ==> d[j].0 != k
  {
    if |d| == 0 || d[0].0 == k then 0 else 1 + KeyIndex(d[1..], k)
  }

  /** `d[k] = v` on an insertion-ordered dict: an existing key keeps its place and takes the
      new value; a new key goes last. */
  function Upsert(d: seq<(string, nat)>, k: string, v: nat): (r: seq<(string, nat)>)
    requires DistinctKeys(d)
    ensures DistinctKeys(r)
    ensures forall key :: key in Keys(r) <==> key == k || key in Keys(d)
    ensures |d| <= |r| && Keys(r)[..|d|] == Keys(d)
    ensures forall i :: 0 <= i < |r| ==> if r[i].0 == k then r[i].1 == v else i < |d| && r[i] == d[i]
  {
    var i := KeyIndex(d, k);
    if i < |d| then
      UpsertReplaces(d, k, v, i);
      d[i := (k, v)]
    else
      UpsertAppends(d, k, v);
      d + [(k, v)]
  }

  lemma UpsertReplaces(d: seq<(string, nat)>, k: string, v: nat, i: nat)
    requires DistinctKeys(d) && i < |d| && d[i].0 == k
    ensures var r := d[i := (k, v)];
      && DistinctKeys(r)
      && (forall key :: key in Keys(r) <==> key == k || key in Keys(d))
      && Keys(r)[..|d|] == Keys(d)
      && forall j :: 0 <= j < |r| ==> if r[j].0 == k then r[j].1 == v else j < |d| && r[j] == d[j]
  {
    var r := d[i := (k, v)];
    assert Keys(r) == Keys(d);
    assert Keys(r)[..|d|] == Keys(r);
  }

  lemma UpsertAppends(d: seq<(string, nat)>, k: string, v: nat)
    requires DistinctKeys(d) && forall j :: 0 <= j < |d| ==> d[j].0 != k
    ensures var r := d + [(k, v)];
      && DistinctKeys(r)
      && (forall key :: key in Keys(r) <==> key == k || key in Keys(d))
      && Keys(r)[..|d|] == Keys(d)
      && forall j :: 0 <= j < |r| ==> if r[j].0 == k then r[j].1 == v else j < |d| && r[j] == d[j]
  {
    var r := d + [(k, v)];
    assert Keys(r) == Keys(d) + [k];
    assert k !in Keys(d);
  }

  /** The value of the last pair with key `k`. */
  function LastFor(pairs: seq<(string, nat)>, k: string): Option<nat>
    decreases |pairs|
  {
    if |pairs| == 0 then None
    else if pairs[|pairs| - 1].0 == k then Some(pairs[|pairs| - 1].1)
    else LastFor(pairs[..|pairs| - 1], k)
  }

  /** Lines 51-54: a dict built from (name, column) pairs. A repeated name keeps the place of
      its first occurrence and takes the column of its last. */
  function DictOf(pairs: seq<(string, nat)>): (d: seq<(string, nat)>)
    ensures DistinctKeys(d)
    ensures forall key :: key in Keys(d) <==> key in Keys(pairs)
    ensures forall i :: 0 <= i < |d| ==> LastFor(pairs, d[i].0) == Some(d[i].1)
    decreases |pairs|
  {
    if |pairs| == 0 then []
    else
      var init := pairs[..|pairs| - 1];
      var rest := DictOf(init);
      var x := pairs[|pairs| - 1];
      assert Keys(pairs) == Keys(init) + [x.0];
      Upsert(rest, x.0, x.1)
  }

  /** The pair `LastFor` finds. */
  lemma {:induction false} LastForIn(pairs: seq<(string, nat)>, k: string) returns (e: nat)
    requires LastFor(pairs, k).Some?
    ensures e < |pairs| && pairs[e] == (k, LastFor(pairs, k).value)
    decreases |pairs|
  {
    if pairs[|pairs| - 1].0 == k {
      e := |pairs| - 1;
    } else {
      e := LastForIn(pairs[..|pairs| - 1], k);
    }
  }

  /** The layout of a sheet: the Slow and Impulse blocks, and one spectrum column per
      distinct band name. */
  datatype Layout = Layout(slow: Group, impulse: Group, bands: seq<(string, nat)>)

  function BandPairs(gs: seq<Group>): (pairs: seq<(string, nat)>)
    ensures |pairs| == |gs| && forall i :: 0 <= i < |gs| ==> pairs[i] == (gs[i].name, gs[i].first)
  {
    seq(|gs|, i requires 0 <= i < |gs| => (gs[i].name, gs[i].first))
  }

  /** The layout read off the blocks: `None` when there are fewer than two. */
  function LayoutOf(gs: seq<Group>): (r: Option<Layout>)
    ensures r.None? <==> |gs| < 2
    ensures r.Some? ==> r.value.slow == gs[0] && r.value.impulse == gs[1] && DistinctKeys(r.value.bands)
  {
    if |gs| < 2 then None else Some(Layout(gs[0], gs[1], DictOf(BandPairs(gs[2..]))))
  }

  /** `cargar_datos` on the shape of a sheet: `None` is the IndexError raised when there are
      fewer than two blocks. Block 0 is the Slow level, block 1 the Impulse level; the
      spectrum has one column per distinct name of the later blocks. */
  function CargarDatos(ncols: nat, rawNames: seq<Option<string>>): (r: Option<Layout>)
    ensures r.None? <==> ncols < 7
    ensures r.Some? ==> r.value.slow.first == 1 && r.value.slow.end == 6 && r.value.impulse.first == 6
    ensures r.Some? ==> DistinctKeys(r.value.bands)
  {
    var gs := Groups(ncols, CleanNames(rawNames));
    GroupCount(ncols);
    if ncols >= 7 then
      FirstTwoGroups(ncols, CleanNames(rawNames));
      LayoutOf(gs)
    else
      LayoutOf(gs)
  }

  /** With at least seven columns, block 0 is columns 1-5 and block 1 starts at column 6. */
  lemma FirstTwoGroups(ncols: nat, names: seq<string>)
    requires ncols >= 7
    ensures var gs := Groups(ncols, names);
      |gs| >= 2 && gs[0].first == 1 && gs[0].end == 6 && gs[1].first == 6
  {
    GroupCount(ncols);
  }

  /** The spectrum columns: a band name is a column exactly when some block from the third
      on carries it, and each column is the first data column of a block with its name. */
  lemma CargarDatosBands(ncols: nat, rawNames: seq<Option<string>>)
    requires CargarDatos(ncols, rawNames).Some?
    ensures var bands := CargarDatos(ncols, rawNames).value.bands;
      var later := Groups(ncols, CleanNames(rawNames))[2..];
      && (forall key :: key in Keys(bands) <==> exists g :: g in later && g.name == key)
      && (forall i :: 0 <= i < |bands| ==> exists g :: g in later && bands[i] == (g.name, g.first))
  {
    LayoutBands(Groups(ncols, CleanNames(rawNames)));
  }

  lemma LayoutBands(gs: seq<Group>)
    requires |gs| >= 2
    ensures var bands := LayoutOf(gs).value.bands;
      && (forall key :: key in Keys(bands) <==> exists g :: g in gs[2..] && g.name == key)
      && (forall i :: 0 <= i < |bands| ==> exists g :: g in gs[2..] && bands[i] == (g.name, g.first))
  {
    var later := gs[2..];
    var pairs := BandPairs(later);
    var bands := DictOf(pairs);
    assert bands == LayoutOf(gs).value.bands;
    forall key ensures key in Keys(bands) <==> exists g :: g in later && g.name == key {
      if key in Keys(pairs) {
        var j :| 0 <= j < |pairs| && Keys(pairs)[j] == key;
        assert later[j] in later;
      }
      if exists g :: g in later && g.name == key {
        var g :| g in later && g.name == key;
        var j :| 0 <= j < |later| && later[j] == g;
        assert Keys(pairs)[j] == key;
      }
    }
    forall i | 0 <= i < |bands| ensures exists g :: g in later && bands[i] == (g.name, g.first) {
      var e := LastForIn(pairs, bands[i].0);
      assert later[e] in later;
    }
  }

  /** `cargar_datos` also moves every timestamp before 06:59 to the previous date. */
  function CorrectTimes(ts: seq<Timestamp>): (r: seq<Timestamp>)
    ensures |r| == |ts|
    ensures forall i :: 0 <= i < |r| ==> TimeOfDay(r[i]) == TimeOfDay(ts[i]) && ts[i] - SecondsPerDay <= r[i] <= ts[i]
  {
    seq(|ts|, i requires 0 <= i < |ts| => CorrectionBounds(ts[i]); CorregirFechaHora(ts[i]))
  }

  // ---------------------------------------------------------------------------
  // procesar_tercios_octava

  predicate AllReadable(labels: seq<string>) {
    forall c :: 0 <= c < |labels| ==> LabelHz(labels[c]).Some?
  }

  /** One row of the weighted spectrum: each cell through `Ponderacion_A` with its band
      label; `None` is the ValueError from a label that does not read as a number. */
  function WeightRow(labels: seq<string>, row: seq<Float>): (r: Option<seq<Float>>)
    requires |row| == |labels|
    ensures r.None? <==> !AllReadable(labels)
    ensures r.Some? ==> |r.value| == |row|
    ensures r.Some? ==> forall c :: 0 <= c < |row| ==> PonderacionA(labels[c], row[c]) == Some(r.value[c])
  {
    if !AllReadable(labels) then None
    else Some(seq(|row|, c requires 0 <= c < |row| => PonderacionA(labels[c], row[c]).value))
  }

  function Texts(labels: seq<string>): (r: seq<Label>)
    ensures |r| == |labels| && forall i :: 0 <= i < |r| ==> r[i] == Text(labels[i])
  {
    seq(|labels|, i requires 0 <= i < |labels| => Text(labels[i]))
  }

  /** The tonal adjustment of one weighted row, as a fresh call on the band labels gives it. */
  function TonalOf(labels: seq<string>, row: seq<Float>): TonalAdj
    requires |row| == |labels| && AllReadable(labels)
  {
    var o := AjusteTonalSpec(Texts(labels), row).0;
    if o.Returned? then o.adj else TonalAdj(KtError, "")
  }

  /** `procesar_tercios_octava`: every cell weighted, then, row by row, `KT,i` from one
      call of `ajuste_tonal` and `Bandas` from a second call, both on the one list of labels
      that the calls rewrite in place. The result is `None` in two cases.
      - There is at least one row and a label does not read as a number.
      - There are no rows and not exactly one band column. The weighted array is then
        `np.array([])`, which pandas shapes as one column, so the `DataFrame` of line 89
        does not match its column labels.
      Otherwise every row's `KT,i` is 0, 3 or 6 and both fields are what a fresh call on
      that row gives. */
  method ProcesarTerciosOctava(labels: seq<string>, rows: seq<seq<Float>>)
    returns (r: Option<(seq<seq<Float>>, seq<TonalAdj>)>)
    requires forall i :: 0 <= i < |rows| ==> |rows[i]| == |labels|
    ensures r.None? <==> (|rows| == 0 && |labels| != 1) || (|rows| > 0 && !AllReadable(labels))
    ensures r.Some? ==> |r.value.0| == |rows| && |r.value.1| == |rows|
    ensures r.Some? ==> forall i :: 0 <= i < |rows| ==> WeightRow(labels, rows[i]) == Some(r.value.0[i])
    ensures r.Some? ==> forall i :: 0 <= i < |rows| ==>
              && AllReadable(labels) && |r.value.0[i]| == |labels|
              && r.value.1[i] == TonalOf(labels, r.value.0[i]) && r.value.1[i].kt.KtNum?
  {
    if |rows| == 0 {
      if |labels| == 1 {
        return Some(([], []));
      }
      return None;
    }
    if !AllReadable(labels) {
      return None;
    }
    var weighted := WeightRows(labels, rows);
    var tonal := TonalRows(labels, weighted);
    r := Some((weighted, tonal));
  }

  /** Lines 83-86: every row weighted cell by cell. */
  method WeightRows(labels: seq<string>, rows: seq<seq<Float>>) returns (weighted: seq<seq<Float>>)
    requires AllReadable(labels)
    requires forall i :: 0 <= i < |rows| ==> |rows[i]| == |labels|
    ensures |weighted| == |rows|
    ensures forall i :: 0 <= i < |rows| ==> WeightRow(labels, rows[i]) == Some(weighted[i]) && |weighted[i]| == |labels|
  {
    weighted := [];
    for i := 0 to |rows|
      invariant |weighted| == i
      invariant forall k :: 0 <= k < i ==> WeightRow(labels, rows[k]) == Some(weighted[k]) && |weighted[k]| == |labels|
    {
      weighted := weighted + [WeightRow(labels, rows[i]).value];
    }
  }

  /** The tonal adjustment of every row. */
  function TonalList(labels: seq<string>, ws: seq<seq<Float>>): seq<TonalAdj>
    requires AllReadable(labels) && forall i :: 0 <= i < |ws| ==> |ws[i]| == |labels|
  {
    seq(|ws|, i requires 0 <= i < |ws| => TonalOf(labels, ws[i]))
  }

  lemma TonalListStep(labels: seq<string>, ws: seq<seq<Float>>, i: nat)
    requires AllReadable(labels) && forall i :: 0 <= i < |ws| ==> |ws[i]| == |labels|
    requires i < |ws|
    ensures TonalList(labels, ws[..i + 1]) == TonalList(labels, ws[..i]) + [TonalOf(labels, ws[i])]
  {
  }

  lemma TextsReadable(labels: seq<string>)
    requires AllReadable(labels)
    ensures forall j :: 1 <= j < |labels| - 1 ==> Readable(Texts(labels)[j])
  {
    forall j | 1 <= j < |labels| - 1
      ensures Readable(Texts(labels)[j])
    {
      TextReadable(labels[j]);
    }
  }

  /** Lines 94-100: two calls per row on one list of labels, which the calls rewrite. */
  method TonalRows(labels: seq<string>, weighted: seq<seq<Float>>) returns (tonal: seq<TonalAdj>)
    requires AllReadable(labels)
    requires forall i :: 0 <= i < |weighted| ==> |weighted[i]| == |labels|
    ensures |tonal| == |weighted|
    ensures forall i :: 0 <= i < |weighted| ==> tonal[i] == TonalOf(labels, weighted[i]) && tonal[i].kt.KtNum?
  {
    var base := Texts(labels);
    TextsReadable(labels);
    var spectrum := new Label[|labels|](i requires 0 <= i < |labels| => Text(labels[i]));
    assert spectrum[..] == base;
    tonal := [];
    for i := 0 to |weighted|
      invariant spectrum.Length == |labels|
      invariant SameRewrites(base, spectrum[..], 1)
      invariant tonal == TonalList(labels, weighted[..i])
      invariant forall k :: 0 <= k < |tonal| ==> tonal[k].kt.KtNum?
    {
      var t := TonalRow(labels, base, spectrum, weighted[i]);
      TonalListStep(labels, weighted, i);
      tonal := tonal + [t];
    }
    assert weighted[..|weighted|] == weighted;
  }

  /** Lines 95-100 for one row: `KT,i` from the first call, `Bandas` from the second, both
      on the shared list. */
  method TonalRow(labels: seq<string>, base: seq<Label>, spectrum: array<Label>, row: seq<Float>) returns (t: TonalAdj)
    requires AllReadable(labels) && |row| == |labels| && base == Texts(labels)
    requires forall j :: 1 <= j < |base| - 1 ==> Readable(base[j])
    requires SameRewrites(base, spectrum[..], 1)
    modifies spectrum
    ensures SameRewrites(base, spectrum[..], 1)
    ensures t == TonalOf(labels, row) && t.kt.KtNum?
  {
    var want := AjusteTonalSpec(base, row).0;
    TonalOnRewrittenList(base, spectrum[..], row);
    var first := AjusteTonal(spectrum, row);
    assert first == want;
    TonalOnRewrittenList(base, spectrum[..], row);
    var second := AjusteTonal(spectrum, row);
    assert second == want;
    t := TonalAdj(first.adj.kt, second.adj.bandas);
    assert t == want.adj;
  }

  // ---------------------------------------------------------------------------
  // crear_tabla_procesada

  /** A row of the per-sample table. */
  datatype ProcessedRow = ProcessedRow(t: Timestamp, laseq: Float, laieq: Float, ki: Float, kt: Kt, bandas: string)

  /** `crear_tabla_procesada`: the rows side by side, with `KI,i` from the Impulse minus
      Slow difference. `tonal` stands for the frame built at line 101 from a list of
      results: built from an empty list, it has no `KT,i` column, and line 131 raises
      `KeyError` (`None`). */
  function CrearTablaProcesada(times: seq<Timestamp>, slow: seq<Float>, impulse: seq<Float>, tonal: seq<TonalAdj>)
    : (r: Option<seq<ProcessedRow>>)
    requires |slow| == |times| && |impulse| == |times| && |tonal| == |times|
    ensures r.None? <==> |tonal| == 0
    ensures r.Some? ==> |r.value| == |times|
    ensures r.Some? ==> var rows := r.value; forall i :: 0 <= i < |rows| ==>
              && rows[i].t == times[i] && rows[i].laseq == slow[i] && rows[i].laieq == impulse[i]
              && rows[i].kt == tonal[i].kt && rows[i].bandas == tonal[i].bandas
              && (rows[i].ki.NaN? <==> slow[i].NaN? || impulse[i].NaN?)
              && (rows[i].ki.F? ==> (rows[i].ki.x == 0.0 <==> impulse[i].x - slow[i].x < 3.0))
              && (rows[i].ki.F? ==> (rows[i].ki.x == 3.0 <==> 3.0 <= impulse[i].x - slow[i].x < 6.0))
              && (rows[i].ki.F? ==> (rows[i].ki.x == 6.0 <==> 6.0 <= impulse[i].x - slow[i].x))
  {
    if |tonal| == 0 then None
    else Some(seq(|times|, i requires 0 <= i < |times| =>
      ProcessedRow(times[i], slow[i], impulse[i], CalcularKi(Sub(impulse[i], slow[i])), tonal[i].kt, tonal[i].bandas)))
  }

  /** `LRASeq,i`, the corrected level the main loop adds to each row. */
  function LRASeq(r: ProcessedRow): Corrected {
    AplicarCorreccion(r.laseq, r.ki, r.kt)
  }

  // ---------------------------------------------------------------------------
  // filtrar_por_periodos

  /** 07:00 <= time <= 20:00. */
  predicate DayTime(s: int) { DiurnaInicio <= s <= DiurnaFin }

  /** time >= 21:00 or time <= 06:00: the night window wraps midnight. */
  predicate NightTime(s: int) { s >= NocturnaInicio || s <= NocturnaFin }

  predicate InPeriod(t: Timestamp, day: bool) {
    if day then DayTime(TimeOfDay(t)) else NightTime(TimeOfDay(t))
  }

  /** `notna()` on the corrected level: the text '—' is present, a NaN level is not. */
  predicate Present1(c: Corrected) { c.Dash? || c.v.F? }

  /** A row that counts towards a period's totals. */
  predicate TotalRow(r: ProcessedRow, day: bool) {
    InPeriod(r.t, day) && r.laseq.F? && r.laieq.F? && Present1(LRASeq(r))
  }

  /** `TipoDia`. */
  function TipoDia(t: Timestamp): (s: string)
    ensures s == "Dominical" <==> DayOfWeek(t) == 6
    ensures s == "Dominical" || s == "Ordinario"
  {
    if DayOfWeek(t) == 6 then "Dominical" else "Ordinario"
  }

  datatype PeriodRow = PeriodRow(row: ProcessedRow, tipoDia: string)

  /** A row of the spectrum table. */
  datatype RefRow = RefRow(t: Timestamp, bands: seq<Float>)

  /** `diurno_ref` / `nocturno_ref`: the spectrum rows selected by time alone. */
  function RefRows(refs: seq<RefRow>, day: bool): (r: seq<RefRow>)
    ensures forall x :: x in r <==> x in refs && InPeriod(x.t, day)
  {
    Filter(refs, (x: RefRow) => InPeriod(x.t, day))
  }

  function TagRows(rows: seq<ProcessedRow>): (r: seq<PeriodRow>)
    ensures |r| == |rows|
    ensures forall i :: 0 <= i < |r| ==> r[i] == PeriodRow(rows[i], TipoDia(rows[i].t))
  {
    seq(|rows|, i requires 0 <= i < |rows| => PeriodRow(rows[i], TipoDia(rows[i].t)))
  }

  function SelectTotal(rows: seq<ProcessedRow>, day: bool): (r: seq<ProcessedRow>)
    ensures forall x :: x in r <==> x in rows && TotalRow(x, day)
  {
    Filter(rows, (x: ProcessedRow) => TotalRow(x, day))
  }

  /** `diurno_Total` / `nocturno_Total`: the rows in the period whose three levels are all
      present, each with its day type. */
  function TotalRows(rows: seq<ProcessedRow>, day: bool): (r: seq<PeriodRow>)
    ensures forall x :: x in r <==> x.row in rows && TotalRow(x.row, day) && x.tipoDia == TipoDia(x.row.t)
  {
    var sel := SelectTotal(rows, day);
    var r := TagRows(sel);
    assert forall x :: x in r ==> x.row in sel;
    assert forall x: PeriodRow :: x.row in sel && x.tipoDia == TipoDia(x.row.t) ==> x in r by {
      forall x: PeriodRow | x.row in sel && x.tipoDia == TipoDia(x.row.t) ensures x in r {
        var i :| 0 <= i < |sel| && sel[i] == x.row;
        assert r[i] == x;
      }
    }
    r
  }

  /** Every time of day is in at most one period; the two gaps 06:00-07:00 and 20:00-21:00,
      exclusive, belong to neither; the boundary times 06:00, 07:00, 20:00 and 21:00 are
      inside their windows. */
  lemma PeriodsDisjoint(s: int)
    requires 0 <= s < SecondsPerDay
    ensures !(DayTime(s) && NightTime(s))
    ensures (NocturnaFin < s < DiurnaInicio || DiurnaFin < s < NocturnaInicio) <==> !DayTime(s) && !NightTime(s)
    ensures DayTime(DiurnaInicio) && DayTime(DiurnaFin) && NightTime(NocturnaInicio) && NightTime(NocturnaFin)
  {
  }

  function DayHours(n: nat): nat {
    if n == 0 then 0 else DayHours(n - 1) + (if DayTime((n - 1) * SecondsPerHour) then 1 else 0)
  }

  function NightHours(n: nat): nat {
    if n == 0 then 0 else NightHours(n - 1) + (if NightTime((n - 1) * SecondsPerHour) then 1 else 0)
  }

  lemma {:induction false} HourCounts(n: nat)
    requires n <= 24
    ensures DayHours(n) == if n <= 7 then 0 else if n <= 21 then n - 7 else 14
    ensures NightHours(n) == if n <= 7 then n else if n <= 21 then 7 else n - 14
  {
    if n > 0 {
      HourCounts(n - 1);
    }
  }

  /** For on-the-hour start times every hour falls in exactly one period: 14 day hours
      (07 to 20) and 10 night hours (21 to 06). */
  lemma HourlyPartition()
    ensures forall h :: 0 <= h < 24 ==> (DayTime(h * SecondsPerHour) <==> !NightTime(h * SecondsPerHour))
    ensures DayHours(24) == 14 && NightHours(24) == 10
  {
    HourCounts(24);
  }

  // ---------------------------------------------------------------------------
  // procesar_diario

  predicate StrictlyIncreasing(s: seq<int>) {
    forall i, j :: 0 <= i < j < |s| ==> s[i] < s[j]
  }

  function InsertDate(x: int, s: seq<int>): (r: seq<int>)
    requires StrictlyIncreasing(s)
    ensures StrictlyIncreasing(r)
    ensures forall y :: y in r <==> y == x || y in s
  {
    if |s| == 0 then [x]
    else if x < s[0] then [x] + s
    else if x == s[0] then s
    else
      var tail := s[1..];
      assert s == [s[0]] + tail;
      assert forall k :: 0 <= k < |tail| ==> s[0] < tail[k];
      var rest := InsertDate(x, tail);
      ConsIncreasing(s[0], rest);
      [s[0]] + rest
  }

  lemma ConsIncreasing(a: int, s: seq<int>)
    requires StrictlyIncreasing(s) && forall y :: y in s ==> a < y
    ensures StrictlyIncreasing([a] + s)
  {
    forall i, j | 0 <= i < j < |[a] + s| ensures ([a] + s)[i] < ([a] + s)[j] {
      assert ([a] + s)[j] == s[j - 1];
      if i > 0 {
        assert ([a] + s)[i] == s[i - 1];
      } else {
        assert s[j - 1] in s;
      }
    }
  }

  /** The `groupby` keys: the distinct dates, ascending. */
  function Dates(ts: seq<Timestamp>): (r: seq<int>)
    ensures StrictlyIncreasing(r)
    ensures forall d :: d in r <==> exists i :: 0 <= i < |ts| && DateOf(ts[i]) == d
    decreases |ts|
  {
    if |ts| == 0 then []
    else
      var rest := Dates(ts[..|ts| - 1]);
      assert forall i :: 0 <= i < |ts| - 1 ==> ts[..|ts| - 1][i] == ts[i];
      InsertDate(DateOf(ts[|ts| - 1]), rest)
  }

  /** `size` of a date's group. */
  function CountDate(ts: seq<Timestamp>, d: int): nat
    decreases |ts|
  {
    if |ts| == 0 then 0
    else CountDate(ts[..|ts| - 1], d) + (if DateOf(ts[|ts| - 1]) == d then 1 else 0)
  }

  lemma {:induction false} CountDatePositive(ts: seq<Timestamp>, i: nat)
    requires i < |ts|
    ensures CountDate(ts, DateOf(ts[i])) >= 1
    decreases |ts|
  {
    if i < |ts| - 1 {
      CountDatePositive(ts[..|ts| - 1], i);
    }
  }

  function Times(rows: seq<ProcessedRow>): (r: seq<Timestamp>)
    ensures |r| == |rows| && forall i :: 0 <= i < |r| ==> r[i] == rows[i].t
  {
    seq(|rows|, i requires 0 <= i < |rows| => rows[i].t)
  }

  /** A row of `diurno_grouped` / `nocturno_grouped`. */
  datatype DailyRow = DailyRow(fecha: int, nm: nat, laseq: Float, laieq: Float, lraseq: Float, ki: Float)

  function OnDate(rows: seq<ProcessedRow>, d: int): seq<ProcessedRow> {
    Filter(rows, (r: ProcessedRow) => DateOf(r.t) == d)
  }

  function Levels(rows: seq<ProcessedRow>, col: nat): seq<Corrected>
    requires col < 3
  {
    seq(|rows|, i requires 0 <= i < |rows| =>
      if col == 0 then Level(rows[i].laseq) else if col == 1 then Level(rows[i].laieq) else LRASeq(rows[i]))
  }

  /** The aggregate row of date `d`. */
  function DailyOf(sel: seq<ProcessedRow>, d: int, mean: seq<Corrected> -> Float): DailyRow {
    var g := OnDate(sel, d);
    var laseq := mean(Levels(g, 0));
    var laieq := mean(Levels(g, 1));
    DailyRow(d, CountDate(Times(sel), d), laseq, laieq, mean(Levels(g, 2)), CalcularKi(Sub(laieq, laseq)))
  }

  /** `procesar_diario` on the per-sample table: the same selection as the totals, grouped by
      date in ascending order; `Nm_1d` is the size of the group, the three daily levels are the
      log mean `mean` of its columns, and `KI,1d` steps the daily Impulse minus Slow
      difference. The log mean itself is a parameter. */
  function ProcesarDiario(rows: seq<ProcessedRow>, day: bool, mean: seq<Corrected> -> Float): (daily: seq<DailyRow>)
    ensures var sel := SelectTotal(rows, day);
      && |daily| == |Dates(Times(sel))|
      && (forall i :: 0 <= i < |daily| ==>
            && daily[i].fecha == Dates(Times(sel))[i]
            && daily[i].nm == CountDate(Times(sel), daily[i].fecha)
            && daily[i].ki == CalcularKi(Sub(daily[i].laieq, daily[i].laseq)))
      && (forall i, j :: 0 <= i < j < |daily| ==> daily[i].fecha < daily[j].fecha)
  {
    var sel := SelectTotal(rows, day);
    var ds := Dates(Times(sel));
    seq(|ds|, i requires 0 <= i < |ds| => DailyOf(sel, ds[i], mean))
  }

  /** Every date with a daily row has at least one selected sample, and every date of a
      selected sample has a daily row. */
  lemma DailyDates(rows: seq<ProcessedRow>, day: bool, mean: seq<Corrected> -> Float)
    ensures var daily := ProcesarDiario(rows, day, mean);
      && (forall i :: 0 <= i < |daily| ==> daily[i].nm >= 1)
      && (forall r :: r in rows && TotalRow(r, day) ==> exists i :: 0 <= i < |daily| && daily[i].fecha == DateOf(r.t))
  {
    var sel := SelectTotal(rows, day);
    var ts := Times(sel);
    var ds := Dates(ts);
    var daily := ProcesarDiario(rows, day, mean);
    forall i | 0 <= i < |daily| ensures daily[i].nm >= 1 {
      assert ds[i] in ds;
      var k :| 0 <= k < |ts| && DateOf(ts[k]) == ds[i];
      CountDatePositive(ts, k);
    }
    forall r | r in rows && TotalRow(r, day)
      ensures exists i :: 0 <= i < |daily| && daily[i].fecha == DateOf(r.t)
    {
      var k :| 0 <= k < |sel| && sel[k] == r;
      assert DateOf(ts[k]) in ds;
      var i :| 0 <= i < |ds| && ds[i] == DateOf(r.t);
      assert daily[i].fecha == ds[i];
    }
  }

  function SumCounts(ts: seq<Timestamp>, ds: seq<int>): nat
    decreases |ds|
  {
    if |ds| == 0 then 0 else CountDate(ts, ds[0]) + SumCounts(ts, ds[1..])
  }

  function Occurrences(ds: seq<int>, x: int): nat
    decreases |ds|
  {
    if |ds| == 0 then 0 else (if ds[0] == x then 1 else 0) + Occurrences(ds[1..], x)
  }

  lemma {:induction false} OccursOnce(ds: seq<int>, x: int)
    requires StrictlyIncreasing(ds) && x in ds
    ensures Occurrences(ds, x) == 1
    decreases |ds|
  {
    if ds[0] == x {
      OccursNot(ds[1..], x);
    } else {
      OccursOnce(ds[1..], x);
    }
  }

  lemma {:induction false} OccursNot(ds: seq<int>, x: int)
    requires x !in ds
    ensures Occurrences(ds, x) == 0
    decreases |ds|
  {
    if |ds| > 0 {
      OccursNot(ds[1..], x);
    }
  }

  lemma {:induction false} SumCountsStep(ts: seq<Timestamp>, t: Timestamp, ds: seq<int>)
    ensures SumCounts(ts + [t], ds) == SumCounts(ts, ds) + Occurrences(ds, DateOf(t))
    decreases |ds|
  {
    if |ds| > 0 {
      assert (ts + [t])[..|ts + [t]| - 1] == ts;
      SumCountsStep(ts, t, ds[1..]);
    }
  }

  lemma {:induction false} SumCountsAll(ts: seq<Timestamp>, ds: seq<int>)
    requires StrictlyIncreasing(ds)
    requires forall i :: 0 <= i < |ts| ==> DateOf(ts[i]) in ds
    ensures SumCounts(ts, ds) == |ts|
    decreases |ts|
  {
    if |ts| == 0 {
      SumZero(ds);
    } else {
      var ts' := ts[..|ts| - 1];
      assert ts == ts' + [ts[|ts| - 1]];
      SumCountsAll(ts', ds);
      SumCountsStep(ts', ts[|ts| - 1], ds);
      OccursOnce(ds, DateOf(ts[|ts| - 1]));
    }
  }

  lemma {:induction false} SumZero(ds: seq<int>)
    ensures SumCounts([], ds) == 0
    decreases |ds|
  {
    if |ds| > 0 {
      SumZero(ds[1..]);
    }
  }

  function SumNm(daily: seq<DailyRow>): nat
    decreases |daily|
  {
    if |daily| == 0 then 0 else daily[0].nm + SumNm(daily[1..])
  }

  lemma {:induction false} SumNmIsSumCounts(daily: seq<DailyRow>, ts: seq<Timestamp>, ds: seq<int>)
    requires |daily| == |ds|
    requires forall i :: 0 <= i < |daily| ==> daily[i].nm == CountDate(ts, ds[i])
    ensures SumNm(daily) == SumCounts(ts, ds)
    decreases |ds|
  {
    if |ds| > 0 {
      SumNmIsSumCounts(daily[1..], ts, ds[1..]);
    }
  }

  /** The daily counts share out the selected rows: every selected row is counted on exactly
      one date, so the `Nm_1d` column sums to the number of selected rows. */
  lemma DailyCountsCover(rows: seq<ProcessedRow>, day: bool, mean: seq<Corrected> -> Float)
    ensures SumNm(ProcesarDiario(rows, day, mean)) == |SelectTotal(rows, day)|
  {
    var sel := SelectTotal(rows, day);
    var ts := Times(sel);
    var ds := Dates(ts);
    var daily := ProcesarDiario(rows, day, mean);
    SumNmIsSumCounts(daily, ts, ds);
    forall i | 0 <= i < |ts| ensures DateOf(ts[i]) in ds { }
    SumCountsAll(ts, ds);
  }

  /** The mean spectrum of a date's reference rows: per band, the log mean `mean` of the
      values present. */
  function MeanSpectrum(g: seq<RefRow>, n: nat, mean: seq<Float> -> Float): (m: seq<Float>)
    ensures |m| == n
  {
    seq(n, c requires 0 <= c < n =>
      mean(Filter(seq(|g|, k requires 0 <= k < |g| => if c < |g[k].bands| then g[k].bands[c] else NaN), (v: Float) => v.F?)))
  }

  /** The daily tonal rows of `procesar_diario`: one call of `ajuste_tonal` per date on
      the mean spectrum of that date's reference rows, each on a fresh copy of the labels. */
  function DailyTonal(refs: seq<RefRow>, day: bool, labels: seq<string>, mean: seq<Float> -> Float)
    : (r: seq<TonalOutcome>)
    ensures |r| == |Dates(RefTimes(RefRows(refs, day)))|
  {
    var sel := RefRows(refs, day);
    var ds := Dates(RefTimes(sel));
    seq(|ds|, i requires 0 <= i < |ds| =>
      AjusteTonalSpec(Texts(labels), MeanSpectrum(Filter(sel, (x: RefRow) => DateOf(x.t) == ds[i]), |labels|, mean)).0)
  }

  /** With readable band labels no daily call raises or reports a length mismatch. */
  lemma DailyTonalReturns(refs: seq<RefRow>, day: bool, labels: seq<string>, mean: seq<Float> -> Float)
    requires AllReadable(labels)
    ensures forall o :: o in DailyTonal(refs, day, labels, mean) ==> o.Returned? && o.adj.kt.KtNum?
  {
    var base := Texts(labels);
    forall j | 1 <= j < |base| - 1 ensures Readable(base[j]) {
      TextReadable(labels[j]);
    }
    forall means: seq<Float> | |means| == |labels|
      ensures AjusteTonalSpec(base, means).0.Returned? && AjusteTonalSpec(base, means).0.adj.kt.KtNum?
    {
      TonalOnRewrittenList(base, base, means);
    }
  }

  function RefTimes(refs: seq<RefRow>): (r: seq<Timestamp>)
    ensures |r| == |refs|
  {
    seq(|refs|, i requires 0 <= i < |refs| => refs[i].t)
  }
}
