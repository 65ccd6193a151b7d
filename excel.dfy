// Model of export/excel.py: `export_to_template` writes the station name and six tables into
// the template sheet "Hoja1", skipping merged cells, colouring declarations and widening columns.

module ExcelExport {
  import opened Values
  import opened FileUtils
  import RuidoTotal

  /** A value written from a table row: a string, a non-string value given by its `str()`
      text, or Python's `None`. */
  datatype Datum = Text(s: string) | Other(repr: string) | NoneValue

  /** `str(value)`. */
  function Str(d: Datum): string {
    match d
    case Text(s) => s
    case Other(r) => r
    case NoneValue => "None"
  }

  datatype Fill = Green | Red | Yellow

  /** Lines 38-42 and 56-57: a fill only for a string whose lower-case form is a key of the
      colour table. */
  function FillOf(d: Datum): (f: Option<Fill>)
    ensures f.Some? <==> d.Text? && Lower(d.s) in {"pasa", "no pasa", "pasa condicional"}
  {
    if d.Text? && Lower(d.s) == "pasa" then Some(Green)
    else if d.Text? && Lower(d.s) == "no pasa" then Some(Red)
    else if d.Text? && Lower(d.s) == "pasa condicional" then Some(Yellow)
    else None
  }

  /** Only the exact declarations are coloured: a conditional failure and the dash sentinel
      get no fill, although the report's Declaración styling colours the former amber. */
  lemma FillOfDeclarations()
    ensures FillOf(Text("Pasa")) == Some(Green) && FillOf(Text("No pasa")) == Some(Red)
    ensures FillOf(Text("Pasa condicional")) == Some(Yellow)
    ensures FillOf(Text("No pasa condicional")) == None && FillOf(Text("—")) == None
    ensures RuidoTotal.DeclStyle("No pasa condicional") == RuidoTotal.Amber
  {
    assert Lower("Pasa") == "pasa";
    assert Lower("No pasa") == "no pasa";
    assert Lower("Pasa condicional") == "pasa condicional";
    assert |Lower("No pasa condicional")| == 19;
    assert |Lower("—")| == 1;
    RuidoTotal.DeclStyleOfDeclarations();
  }

  const StartColumns: seq<nat> := [1, 9, 29, 49, 67, 85]
  const FirstRow: nat := 10
  const StationRow: nat := 1
  const StationColumn: nat := 2   // B1

  type Pos = (int, int)

  /** One cell write of the loops of lines 46-50. */
  datatype Write = Write(row: nat, col: nat, d: Datum)

  // The writes in loop order: table k, row r (from row 10), value c (from column
  // StartColumns[k]); `zip` stops after six tables.

  function RowWrites(k: nat, r: nat, row: seq<Datum>): (ws: seq<Write>)
    requires k < |StartColumns|
    ensures |ws| == |row|
    ensures forall c :: 0 <= c < |row| ==> ws[c] == Write(FirstRow + r, StartColumns[k] + c, row[c])
  {
    if |row| == 0 then []
    else RowWrites(k, r, row[..|row| - 1]) + [Write(FirstRow + r, StartColumns[k] + |row| - 1, row[|row| - 1])]
  }

  function TableWrites(k: nat, rows: seq<seq<Datum>>): seq<Write>
    requires k < |StartColumns|
  {
    if |rows| == 0 then []
    else TableWrites(k, rows[..|rows| - 1]) + RowWrites(k, |rows| - 1, rows[|rows| - 1])
  }

  function AllWrites(tables: seq<seq<seq<Datum>>>): seq<Write>
    requires |tables| <= |StartColumns|
  {
    if |tables| == 0 then []
    else AllWrites(tables[..|tables| - 1]) + TableWrites(|tables| - 1, tables[|tables| - 1])
  }

  /** The writes of the first six tables. */
  function Writes(tables: seq<seq<seq<Datum>>>): seq<Write> {
    if |tables| <= |StartColumns| then AllWrites(tables) else AllWrites(tables[..|StartColumns|])
  }

  /** `w` is the write of value c of row r of table k. */
  ghost predicate Placed(tables: seq<seq<seq<Datum>>>, w: Write) {
    exists k, r, c :: 0 <= k < |tables| && k < |StartColumns| && 0 <= r < |tables[k]| && 0 <= c < |tables[k][r]|
                      && w == Write(FirstRow + r, StartColumns[k] + c, tables[k][r][c])
  }

  lemma {:induction false} TableWritesPlaced(k: nat, rows: seq<seq<Datum>>, w: Write)
    requires k < |StartColumns|
    ensures w in TableWrites(k, rows) <==>
      exists r, c :: 0 <= r < |rows| && 0 <= c < |rows[r]| && w == Write(FirstRow + r, StartColumns[k] + c, rows[r][c])
    decreases |rows|
  {
    if |rows| > 0 {
      var init := rows[..|rows| - 1];
      TableWritesPlaced(k, init, w);
      var last := RowWrites(k, |rows| - 1, rows[|rows| - 1]);
      assert w in TableWrites(k, rows) <==> w in TableWrites(k, init) || w in last;
      assert forall r :: 0 <= r < |init| ==> init[r] == rows[r];
    }
  }

  lemma {:induction false} AllWritesPlaced(tables: seq<seq<seq<Datum>>>, w: Write)
    requires |tables| <= |StartColumns|
    ensures w in AllWrites(tables) <==> Placed(tables, w)
    decreases |tables|
  {
    if |tables| > 0 {
      var n := |tables| - 1;
      var init := tables[..n];
      AllWritesPlaced(init, w);
      TableWritesPlaced(n, tables[n], w);
      assert forall k :: 0 <= k < n ==> init[k] == tables[k];
      assert w in AllWrites(tables) <==> w in AllWrites(init) || w in TableWrites(n, tables[n]);
    }
  }

  /** Lines 46-48: exactly the values of the first six tables are written, value c of row r
      of table k at row 10 + r and column StartColumns[k] + c, with no header row. */
  lemma WritesPlaced(tables: seq<seq<seq<Datum>>>, w: Write)
    ensures w in Writes(tables) <==> Placed(tables, w)
  {
    if |tables| <= |StartColumns| {
      AllWritesPlaced(tables, w);
    } else {
      var six := tables[..|StartColumns|];
      AllWritesPlaced(six, w);
      assert forall k :: 0 <= k < |six| ==> six[k] == tables[k];
    }
  }

  // ---------------------------------------------------------------------------
  // The effect of the writes

  /** The cells, fills and the `column_widths` dictionary while the loops run. */
  datatype Canvas = Canvas(cells: map<Pos, Datum>, fills: map<Pos, Fill>, widths: map<int, int>)

  predicate Merged(merged: seq<MergedRange>, row: int, col: int) {
    exists i :: 0 <= i < |merged| && InRange(merged[i], row, col)
  }

  function Get(m: map<int, int>, c: int): int {
    if c in m then m[c] else 0
  }

  /** Lines 49-61 for one value: a merged target is skipped; otherwise a non-None value is
      stored, a declaration gets its fill, and the column's width grows to the value's
      length plus 7. */
  function Apply(merged: seq<MergedRange>, cv: Canvas, w: Write): Canvas {
    if Merged(merged, w.row, w.col) then cv
    else
      var p := (w.row as int, w.col as int);
      Canvas(if w.d.NoneValue? then cv.cells else cv.cells[p := w.d],
             if FillOf(w.d).Some? then cv.fills[p := FillOf(w.d).value] else cv.fills,
             cv.widths[w.col as int := Max(Get(cv.widths, w.col), |Str(w.d)| + 7)])
  }

  function Max(a: int, b: int): int { if a >= b then a else b }

  function Run(merged: seq<MergedRange>, cv: Canvas, ws: seq<Write>): Canvas {
    if |ws| == 0 then cv else Apply(merged, Run(merged, cv, ws[..|ws| - 1]), ws[|ws| - 1])
  }

  /** A cell that no write targets, or that is merged, keeps its value and its fill. */
  lemma {:induction false} RunKeeps(merged: seq<MergedRange>, cv: Canvas, ws: seq<Write>, p: Pos)
    requires Merged(merged, p.0, p.1) || forall i :: 0 <= i < |ws| ==> (ws[i].row as int, ws[i].col as int) != p
    ensures (p in Run(merged, cv, ws).cells <==> p in cv.cells)
    ensures p in cv.cells ==> Run(merged, cv, ws).cells[p] == cv.cells[p]
    ensures (p in Run(merged, cv, ws).fills <==> p in cv.fills)
    ensures p in cv.fills ==> Run(merged, cv, ws).fills[p] == cv.fills[p]
    decreases |ws|
  {
    if |ws| > 0 {
      RunKeeps(merged, cv, ws[..|ws| - 1], p);
    }
  }

  /** A written value is non-None and comes from some write to that cell; a new or changed
      fill comes from a write of one of the three declarations to that cell. */
  lemma {:induction false} RunSources(merged: seq<MergedRange>, cv: Canvas, ws: seq<Write>, p: Pos)
    ensures var out := Run(merged, cv, ws);
      p in out.cells && (p !in cv.cells || out.cells[p] != cv.cells[p]) ==>
        exists i :: 0 <= i < |ws| && (ws[i].row as int, ws[i].col as int) == p && !Merged(merged, p.0, p.1)
                    && ws[i].d == out.cells[p] && !ws[i].d.NoneValue?
    ensures var out := Run(merged, cv, ws);
      p in out.fills && (p !in cv.fills || out.fills[p] != cv.fills[p]) ==>
        exists i :: 0 <= i < |ws| && (ws[i].row as int, ws[i].col as int) == p && !Merged(merged, p.0, p.1)
                    && FillOf(ws[i].d) == Some(out.fills[p])
    decreases |ws|
  {
    if |ws| > 0 {
      RunSources(merged, cv, ws[..|ws| - 1], p);
    }
  }

  /** The write of `w` lands: it is not in a merged range. */
  predicate Lands(merged: seq<MergedRange>, w: Write) {
    !Merged(merged, w.row, w.col)
  }

  function At(w: Write): Pos {
    (w.row as int, w.col as int)
  }

  /** Lines 49-57 the other way round: a write that lands and that no later, different write
      to the same cell follows leaves its value (unless it is `None`) and its declaration's
      fill in that cell. */
  lemma {:induction false} RunLast(merged: seq<MergedRange>, cv: Canvas, ws: seq<Write>, i: nat)
    requires i < |ws| && Lands(merged, ws[i])
    requires forall j :: i < j < |ws| && At(ws[j]) == At(ws[i]) ==> ws[j] == ws[i]
    ensures var out := Run(merged, cv, ws);
      (!ws[i].d.NoneValue? ==> At(ws[i]) in out.cells && out.cells[At(ws[i])] == ws[i].d)
      && (FillOf(ws[i].d).Some? ==> At(ws[i]) in out.fills && out.fills[At(ws[i])] == FillOf(ws[i].d).value)
    decreases |ws|
  {
    var n := |ws| - 1;
    if i < n && ws[n] != ws[i] {
      RunLast(merged, cv, ws[..n], i);
    } else if i < n {
      assert ws[n] == ws[i];
    }
  }

  /** The tables do not run into each other: each row of table k ends before the start
      column of table k + 1. */
  predicate BlocksFit(tables: seq<seq<seq<Datum>>>) {
    forall k, r :: 0 <= k < |tables| && k + 1 < |StartColumns| && 0 <= r < |tables[k]| ==>
      StartColumns[k] + |tables[k][r]| <= StartColumns[k + 1]
  }

  /** A value of table k lies before the start column of every later table. */
  lemma BeforeLaterBlocks(tables: seq<seq<seq<Datum>>>, k: nat, r: nat, c: nat)
    requires BlocksFit(tables)
    requires k < |tables| && k < |StartColumns| && r < |tables[k]| && c < |tables[k][r]|
    ensures forall b :: k < b < |StartColumns| ==> StartColumns[k] + c < StartColumns[b]
  {
  }

  /** With tables that fit their blocks, two values aimed at the same cell are the same value. */
  lemma SameCell(tables: seq<seq<seq<Datum>>>, k: nat, r: nat, c: nat, k2: nat, r2: nat, c2: nat)
    requires BlocksFit(tables)
    requires k < |tables| && k < |StartColumns| && r < |tables[k]| && c < |tables[k][r]|
    requires k2 < |tables| && k2 < |StartColumns| && r2 < |tables[k2]| && c2 < |tables[k2][r2]|
    requires r == r2 && StartColumns[k] + c == StartColumns[k2] + c2
    ensures k == k2 && c == c2
  {
    BeforeLaterBlocks(tables, k, r, c);
    BeforeLaterBlocks(tables, k2, r2, c2);
  }

  /** Lines 46-57 end to end: when the tables fit their blocks, value c of row r of table k
      ends up at row 10 + r and column StartColumns[k] + c, with its fill, unless that cell
      is merged or the value is `None`. */
  lemma ValueLands(merged: seq<MergedRange>, start: Canvas, tables: seq<seq<seq<Datum>>>, k: nat, r: nat, c: nat)
    requires BlocksFit(tables)
    requires k < |tables| && k < |StartColumns| && r < |tables[k]| && c < |tables[k][r]|
    requires !Merged(merged, FirstRow + r, StartColumns[k] + c)
    ensures var out := Run(merged, start, Writes(tables)); var p := (FirstRow + r, StartColumns[k] + c);
      var v := tables[k][r][c];
      (!v.NoneValue? ==> p in out.cells && out.cells[p] == v)
      && (FillOf(v).Some? ==> p in out.fills && out.fills[p] == FillOf(v).value)
  {
    var ws := Writes(tables);
    var w := Write(FirstRow + r, StartColumns[k] + c, tables[k][r][c]);
    WritesPlaced(tables, w);
    var i :| 0 <= i < |ws| && ws[i] == w;
    forall j | i < j < |ws| && At(ws[j]) == At(w)
      ensures ws[j] == w
    {
      WritesPlaced(tables, ws[j]);
      var k2, r2, c2 :| 0 <= k2 < |tables| && k2 < |StartColumns| && 0 <= r2 < |tables[k2]| && 0 <= c2 < |tables[k2][r2]|
                        && ws[j] == Write(FirstRow + r2, StartColumns[k2] + c2, tables[k2][r2][c2]);
      SameCell(tables, k, r, c, k2, r2, c2);
    }
    RunLast(merged, start, ws, i);
  }

  /** Lines 59-61: starting from an empty dictionary, column c has a width exactly when some
      value lands in it, and that width is the largest `len(str(value)) + 7` over them. */
  lemma {:induction false} RunWidths(merged: seq<MergedRange>, cells: map<Pos, Datum>, fills: map<Pos, Fill>,
                                     ws: seq<Write>, c: int)
    ensures var out := Run(merged, Canvas(cells, fills, map[]), ws).widths;
      (c in out <==> exists i :: 0 <= i < |ws| && ws[i].col == c && Lands(merged, ws[i]))
      && (forall i :: 0 <= i < |ws| && ws[i].col == c && Lands(merged, ws[i]) ==> |Str(ws[i].d)| + 7 <= out[c])
      && (c in out ==> exists i :: 0 <= i < |ws| && ws[i].col == c && Lands(merged, ws[i]) && out[c] == |Str(ws[i].d)| + 7)
    decreases |ws|
  {
    if |ws| > 0 {
      var init := ws[..|ws| - 1];
      RunWidths(merged, cells, fills, init, c);
      assert forall i :: 0 <= i < |init| ==> init[i] == ws[i];
    }
  }

  // ---------------------------------------------------------------------------
  // The worksheet

  class Worksheet {
    var cells: map<Pos, Datum>
    var fills: map<Pos, Fill>
    var widths: map<int, int>
    const merged: seq<MergedRange>

    constructor (cells: map<Pos, Datum>, fills: map<Pos, Fill>, widths: map<int, int>, merged: seq<MergedRange>)
      ensures this.cells == cells && this.fills == fills && this.widths == widths && this.merged == merged
    {
      this.cells := cells;
      this.fills := fills;
      this.widths := widths;
      this.merged := merged;
    }
  }

  /** openpyxl's last column, ZZZ, bounds every column written. */
  predicate FitsSheet(tables: seq<seq<seq<Datum>>>) {
    forall k, r :: 0 <= k < |tables| && k < |StartColumns| && 0 <= r < |tables[k]| ==>
      StartColumns[k] + |tables[k][r]| <= MaxColumn + 1
  }

  /** Running a concatenation runs its parts in turn. */
  lemma {:induction false} RunAppend(merged: seq<MergedRange>, cv: Canvas, a: seq<Write>, b: seq<Write>)
    ensures Run(merged, cv, a + b) == Run(merged, Run(merged, cv, a), b)
    decreases |b|
  {
    if |b| == 0 {
      assert a + b == a;
    } else {
      assert (a + b)[..|a + b| - 1] == a + b[..|b| - 1];
      RunAppend(merged, cv, a, b[..|b| - 1]);
    }
  }

  /** Lines 49-61 for one value. */
  method WriteCell(ws: Worksheet, w: Write, widths: map<int, int>) returns (widths': map<int, int>)
    requires 1 <= w.col <= MaxColumn && w.row >= 1
    modifies ws
    ensures ws.widths == old(ws.widths)
    ensures Canvas(ws.cells, ws.fills, widths') == Apply(ws.merged, Canvas(old(ws.cells), old(ws.fills), widths), w)
  {
    widths' := widths;
    var isMerged := IsMergedCell(ws.merged, w.row, w.col);
    if !isMerged {
      if !w.d.NoneValue? {
        ws.cells := ws.cells[(w.row as int, w.col as int) := w.d];
      }
      var fill := FillOf(w.d);
      if fill.Some? {
        ws.fills := ws.fills[(w.row as int, w.col as int) := fill.value];
      }
      widths' := widths[w.col as int := Max(Get(widths, w.col), |Str(w.d)| + 7)];
    }
  }

  /** One more value of a row is one more write at the end of the run. */
  lemma RowRunStep(merged: seq<MergedRange>, start: Canvas, k: nat, r: nat, row: seq<Datum>, c: nat)
    requires k < |StartColumns| && c < |row|
    ensures Run(merged, start, RowWrites(k, r, row[..c + 1]))
         == Apply(merged, Run(merged, start, RowWrites(k, r, row[..c])), Write(FirstRow + r, StartColumns[k] + c, row[c]))
  {
    var w := Write(FirstRow + r, StartColumns[k] + c, row[c]);
    assert row[..c + 1][..c] == row[..c];
    assert RowWrites(k, r, row[..c + 1]) == RowWrites(k, r, row[..c]) + [w];
    assert (RowWrites(k, r, row[..c]) + [w])[..c] == RowWrites(k, r, row[..c]);
  }

  /** Line 48: the values of one row, left to right from the table's start column. */
  method WriteRow(ws: Worksheet, k: nat, r: nat, row: seq<Datum>, widths: map<int, int>) returns (widths': map<int, int>)
    requires k < |StartColumns| && StartColumns[k] + |row| <= MaxColumn + 1
    modifies ws
    ensures ws.widths == old(ws.widths)
    ensures Canvas(ws.cells, ws.fills, widths') == Run(ws.merged, Canvas(old(ws.cells), old(ws.fills), widths), RowWrites(k, r, row))
  {
    ghost var start := Canvas(ws.cells, ws.fills, widths);
    widths' := widths;
    assert row[..0] == [];
    for c := 0 to |row|
      invariant Canvas(ws.cells, ws.fills, widths') == Run(ws.merged, start, RowWrites(k, r, row[..c]))
      invariant ws.widths == old(ws.widths)
    {
      var w := Write(FirstRow + r, StartColumns[k] + c, row[c]);
      RowRunStep(ws.merged, start, k, r, row, c);
      widths' := WriteCell(ws, w, widths');
    }
    assert row[..|row|] == row;
  }

  /** Line 47: the rows of one table, from row 10 down. */
  method WriteTable(ws: Worksheet, k: nat, rows: seq<seq<Datum>>, widths: map<int, int>) returns (widths': map<int, int>)
    requires k < |StartColumns| && forall r :: 0 <= r < |rows| ==> StartColumns[k] + |rows[r]| <= MaxColumn + 1
    modifies ws
    ensures ws.widths == old(ws.widths)
    ensures Canvas(ws.cells, ws.fills, widths') == Run(ws.merged, Canvas(old(ws.cells), old(ws.fills), widths), TableWrites(k, rows))
  {
    ghost var start := Canvas(ws.cells, ws.fills, widths);
    widths' := widths;
    assert rows[..0] == [];
    for r := 0 to |rows|
      invariant Canvas(ws.cells, ws.fills, widths') == Run(ws.merged, start, TableWrites(k, rows[..r]))
      invariant ws.widths == old(ws.widths)
    {
      widths' := WriteRow(ws, k, r, rows[r], widths');
      assert rows[..r + 1][..r] == rows[..r];
      RunAppend(ws.merged, start, TableWrites(k, rows[..r]), RowWrites(k, r, rows[r]));
    }
    assert rows[..|rows|] == rows;
  }

  /** `export_to_template`: B1 first, then every row of the first six tables, then the widths
      collected on the way replace the template's for their columns (lines 64-65). */
  method ExportToTemplate(ws: Worksheet, tables: seq<seq<seq<Datum>>>, estacion: string)
    requires FitsSheet(tables)
    modifies ws
    ensures var start := Canvas(old(ws.cells)[(StationRow as int, StationColumn as int) := Text(estacion)], old(ws.fills), map[]);
            var out := Run(ws.merged, start, Writes(tables));
            ws.cells == out.cells && ws.fills == out.fills && ws.widths == old(ws.widths) + out.widths
  {
    ws.cells := ws.cells[(StationRow as int, StationColumn as int) := Text(estacion)];
    ghost var start := Canvas(ws.cells, ws.fills, map[]);
    var colWidths: map<int, int> := map[];
    var n := if |tables| <= |StartColumns| then |tables| else |StartColumns|;
    assert tables[..0] == [];
    for k := 0 to n
      invariant Canvas(ws.cells, ws.fills, colWidths) == Run(ws.merged, start, AllWrites(tables[..k]))
      invariant ws.widths == old(ws.widths)
    {
      colWidths := WriteTable(ws, k, tables[k], colWidths);
      assert tables[..k + 1][..k] == tables[..k];
      RunAppend(ws.merged, start, AllWrites(tables[..k]), TableWrites(k, tables[k]));
    }
    if |tables| <= |StartColumns| {
      assert tables[..n] == tables;
    }
    assert AllWrites(tables[..n]) == Writes(tables);
    ws.widths := ws.widths + colWidths;
  }

  /** Line 26: the station name stays in B1, since every table value goes to row 10 or below. */
  lemma StationInB1(merged: seq<MergedRange>, start: Canvas, tables: seq<seq<seq<Datum>>>, estacion: string)
    requires (StationRow as int, StationColumn as int) in start.cells
    requires start.cells[(StationRow as int, StationColumn as int)] == Text(estacion)
    ensures var b1 := (StationRow as int, StationColumn as int);
      b1 in Run(merged, start, Writes(tables)).cells && Run(merged, start, Writes(tables)).cells[b1] == Text(estacion)
  {
    var ws := Writes(tables);
    forall i | 0 <= i < |ws| ensures ws[i].row >= FirstRow {
      WritesPlaced(tables, ws[i]);
    }
    RunKeeps(merged, start, ws, (StationRow as int, StationColumn as int));
  }
}
