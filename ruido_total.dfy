// Model of export/ruido_total.py: the multi-station "RUIDO TOTAL" report.
// A workbook is a sequence of sheets; a sheet is its column headers and its rows of cells,
// each cell either blank (NaN) or holding the text `str(value)` of its value.

module RuidoTotal {
  import opened Values
  import opened Sorting
  import opened FileUtils

  datatype Cell = Blank | Value(text: string)

  datatype Sheet = Sheet(name: string, columns: seq<string>, rows: seq<seq<Cell>>)

  /** A DataFrame is rectangular: every row has one cell per column. */
  predicate WellFormed(sh: Sheet) {
    forall i :: 0 <= i < |sh.rows| ==> |sh.rows[i]| == |sh.columns|
  }

  // ---------------------------------------------------------------------------
  // Sheet selection (line 41): the sheets whose name starts with "PTO", in sorted name order

  /** Python's `<=` on strings: lexicographic by code point, a prefix coming first. */
  predicate LexLe(a: string, b: string)
    decreases |a|
  {
    |a| == 0 || (|b| > 0 && (a[0] < b[0] || (a[0] == b[0] && LexLe(a[1..], b[1..]))))
  }

  lemma {:induction false} LexTotal(a: string, b: string)
    ensures LexLe(a, b) || LexLe(b, a)
    decreases |a|
  {
    if |a| > 0 && |b| > 0 && a[0] == b[0] {
      LexTotal(a[1..], b[1..]);
    }
  }

  lemma {:induction false} LexTransitive(a: string, b: string, c: string)
    requires LexLe(a, b) && LexLe(b, c)
    ensures LexLe(a, c)
    decreases |a|
  {
    if |a| > 0 && a[0] == b[0] && b[0] == c[0] {
      LexTransitive(a[1..], b[1..], c[1..]);
    }
  }

  predicate ByName(x: Sheet, y: Sheet) { LexLe(x.name, y.name) }

  lemma ByNamePreorder()
    ensures TotalPreorder(ByName)
  {
    forall x: Sheet, y: Sheet ensures ByName(x, y) || ByName(y, x) {
      LexTotal(x.name, y.name);
    }
    forall x: Sheet, y: Sheet, z: Sheet | ByName(x, y) && ByName(y, z) ensures ByName(x, z) {
      LexTransitive(x.name, y.name, z.name);
    }
  }

  predicate IsPto(sh: Sheet) { StartsWith(sh.name, "PTO") }

  function PtoSheets(book: seq<Sheet>): (r: seq<Sheet>)
    ensures forall i :: 0 <= i < |r| ==> r[i] in book && IsPto(r[i])
  {
    var kept := Filter(book, IsPto);
    var r := Sort(kept, ByName);
    assert forall i :: 0 <= i < |r| ==> r[i] in multiset(kept);
    r
  }

  /** Line 41: exactly the PTO sheets are kept, each once, in ascending name order. */
  lemma PtoSheetsFacts(book: seq<Sheet>)
    ensures Sorted(PtoSheets(book), ByName)
    ensures forall sh :: sh in PtoSheets(book) <==> sh in book && IsPto(sh)
    ensures multiset(PtoSheets(book)) == multiset(Filter(book, IsPto))
  {
    ByNamePreorder();
    SortSorted(Filter(book, IsPto), ByName);
    forall sh ensures sh in PtoSheets(book) <==> sh in Filter(book, IsPto) {
      assert sh in PtoSheets(book) <==> sh in multiset(PtoSheets(book));
    }
  }

  // ---------------------------------------------------------------------------
  // Station detection (lines 62-100)

  const ScanLimit: nat := 10

  /** The cell at (r, c) exists and its text holds "EMRI". */
  predicate Hit(sh: Sheet, r: nat, c: nat) {
    r < |sh.rows| && c < |sh.columns| && c < |sh.rows[r]|
    && sh.rows[r][c].Value? && Contains(sh.rows[r][c].text, "EMRI")
  }

  /** The inner loop of lines 67-77: the first hit in row `r` at column `c` or later,
      among the first ten columns. */
  function ScanRow(sh: Sheet, r: nat, c: nat): (found: Option<nat>)
    ensures found.Some? ==> c <= found.value < ScanLimit && Hit(sh, r, found.value)
    ensures found.Some? ==> forall c': nat :: c <= c' < found.value ==> !Hit(sh, r, c')
    ensures found.None? ==> forall c': nat :: c <= c' < ScanLimit ==> !Hit(sh, r, c')
    decreases ScanLimit - c
  {
    if c >= ScanLimit || c >= |sh.columns| then None
    else if Hit(sh, r, c) then Some(c)
    else ScanRow(sh, r, c + 1)
  }

  /** The outer loop of lines 66-79: the first hit in row-major order in the top-left
      10 x 10 block, at row `r` or below. */
  function ScanRows(sh: Sheet, r: nat): (found: Option<(nat, nat)>)
    ensures found.Some? ==> r <= found.value.0 < ScanLimit && found.value.1 < ScanLimit
    ensures found.Some? ==> Hit(sh, found.value.0, found.value.1)
    ensures found.Some? ==> forall r': nat, c': nat :: r <= r' < found.value.0 && c' < ScanLimit ==> !Hit(sh, r', c')
    ensures found.Some? ==> forall c': nat :: c' < found.value.1 ==> !Hit(sh, found.value.0, c')
    ensures found.None? ==> forall r': nat, c': nat :: r <= r' < ScanLimit && c' < ScanLimit ==> !Hit(sh, r', c')
    decreases ScanLimit - r
  {
    if r >= ScanLimit || r >= |sh.rows| then None
    else
      var inRow := ScanRow(sh, r, 0);
      if inRow.Some? then Some((r, inRow.value)) else ScanRows(sh, r + 1)
  }

  /** Lines 83-90: the first column header holding "EMRI", over all columns. */
  function FirstHeader(columns: seq<string>, i: nat): (found: Option<nat>)
    ensures found.Some? ==> i <= found.value < |columns| && Contains(columns[found.value], "EMRI")
    ensures found.Some? ==> forall j :: i <= j < found.value ==> !Contains(columns[j], "EMRI")
    ensures found.None? ==> forall j :: i <= j < |columns| ==> !Contains(columns[j], "EMRI")
    decreases |columns| - i
  {
    if i >= |columns| then None
    else if Contains(columns[i], "EMRI") then Some(i)
    else FirstHeader(columns, i + 1)
  }

  /** "EMRI_" followed by a digit starts at position `i`. */
  predicate NumberedAt(s: string, i: int) {
    OccursAt(s, "EMRI_", i) && i + 5 < |s| && IsDigit(s[i + 5])
  }

  /** `re.search(r'EMRI_(\d+)', s)` from position `i` on, read with `int`: the leftmost
      "EMRI_" followed by digits, and the value of the whole run of digits. */
  function NumberFrom(s: string, i: nat): (n: Option<nat>)
    ensures n.Some? <==> exists j :: i <= j && NumberedAt(s, j)
    decreases |s| - i
  {
    if i + 5 >= |s| then
      assert forall j :: i <= j ==> !NumberedAt(s, j);
      None
    else if NumberedAt(s, i) then
      var e := RunEnd(s, i + 5);
      Some(DigitsValue(s[i + 5..e]))
    else
      NumberFrom(s, i + 1)
  }

  function EmriNumber(s: string): Option<nat> {
    NumberFrom(s, 0)
  }

  /** A name of the form "EMRI_<n>" carries the number n. */
  lemma EmriNumberOfName(n: nat)
    ensures EmriNumber("EMRI_" + NatToString(n)) == Some(n)
  {
    var s := "EMRI_" + NatToString(n);
    var d := NatToString(n);
    assert s[0..5] == "EMRI_";
    assert s[5] == d[0];
    assert NumberedAt(s, 0);
    assert forall k :: 5 <= k < |s| ==> s[k] == d[k - 5];
    assert RunEnd(s, 5) == |s|;
    assert s[5..|s|] == d;
    NatToStringRoundTrip(n);
  }

  /** The number taken from the sheet name (lines 95 and 99): its last character when that
      is a digit, else 0. */
  function SheetNumber(name: string): (n: nat)
    requires |name| > 0
    ensures n < 10
    ensures IsDigit(name[|name| - 1]) ==> n == DigitValue(name[|name| - 1])
  {
    if IsDigit(name[|name| - 1]) then DigitValue(name[|name| - 1]) else 0
  }

  /** A non-blank string keeps a character when stripped. */
  lemma StripNonEmpty(s: string, i: nat)
    requires i < |s| && !IsSpace(s[i])
    ensures |Strip(s)| > 0
  {
    var l := TrimLeft(s);
    assert |l| > 0;
    assert !IsSpace(l[0]);
  }

  lemma EmriNotBlank(s: string)
    requires Contains(s, "EMRI")
    ensures |Strip(s)| > 0
  {
    var i :| 0 <= i <= |s| - 4 && OccursAt(s, "EMRI", i);
    assert s[i..i + 4][0] == 'E';
    StripNonEmpty(s, i);
  }

  /** What the scan finds: the station name and the number read from the same text. */
  datatype Detected = Detected(name: string, number: Option<nat>) | NotFound

  function Detect(sh: Sheet): Detected {
    match ScanRows(sh, 0)
    case Some(rc) => Detected(Strip(sh.rows[rc.0][rc.1].text), EmriNumber(sh.rows[rc.0][rc.1].text))
    case None =>
      match FirstHeader(sh.columns, 0)
      case Some(i) => Detected(sh.columns[i], EmriNumber(sh.columns[i]))
      case None => NotFound
  }

  // ---------------------------------------------------------------------------
  // Row extraction (lines 102-135)

  const ColumnNames: seq<string> := ["LASeqk", "LAIeqk", "LRASeqk", "sk2", "sk", "TU", "k", "U", "E",
                                      "w", "AU", "z", "Rp*=Pc", "Rc", "Declaración"]
  const Width: nat := |ColumnNames|
  const DayFirst: nat := 50     // AY
  const DayLast: nat := 64      // BM
  const NightFirst: nat := 68   // BQ
  const NightLast: nat := 82    // CE

  /** Blanks appended to, or the tail cut from, `vals` to make it `n` long. */
  function PadTo(vals: seq<Cell>, n: nat): (r: seq<Cell>)
    ensures |r| == n
    ensures forall j :: 0 <= j < n ==> r[j] == if j < |vals| then vals[j] else Blank
  {
    if |vals| < n then vals + seq(n - |vals|, _ => Blank) else vals[..n]
  }

  /** One block of row `idx`: columns `lo..hi` when both exist, padded or cut to 15 cells;
      15 blanks when the row or either column is missing. */
  function Extract(sh: Sheet, idx: nat, lo: nat, hi: nat): (r: seq<Cell>)
    requires WellFormed(sh) && lo <= hi + 1
    ensures |r| == Width
    ensures forall j :: 0 <= j < Width ==>
      r[j] == if idx < |sh.rows| && hi < |sh.columns| && lo < |sh.columns| && lo + j <= hi
              then sh.rows[idx][lo + j] else Blank
  {
    if idx < |sh.rows| && lo < |sh.columns| && hi < |sh.columns| then
      PadTo(sh.rows[idx][lo..hi + 1], Width)
    else
      seq(Width, _ => Blank)
  }

  /** Both column ranges span exactly fifteen columns, so padding never applies to a
      present row: the block is the row's own cells. */
  lemma ExtractWholeBlock(sh: Sheet, idx: nat)
    requires WellFormed(sh) && idx < |sh.rows| && DayLast < |sh.columns|
    ensures Extract(sh, idx, DayFirst, DayLast) == sh.rows[idx][DayFirst..DayLast + 1]
  {
  }

  function DayRows(sh: Sheet): seq<seq<Cell>>
    requires WellFormed(sh)
  {
    [Extract(sh, 8, DayFirst, DayLast), Extract(sh, 9, DayFirst, DayLast), Extract(sh, 10, DayFirst, DayLast)]
  }

  function NightRows(sh: Sheet): seq<seq<Cell>>
    requires WellFormed(sh)
  {
    [Extract(sh, 8, NightFirst, NightLast), Extract(sh, 9, NightFirst, NightLast), Extract(sh, 10, NightFirst, NightLast)]
  }

  // ---------------------------------------------------------------------------
  // One station per PTO sheet

  datatype Station = Station(name: string, number: nat, day: seq<seq<Cell>>, night: seq<seq<Cell>>)

  predicate Processable(sh: Sheet) { WellFormed(sh) && IsPto(sh) }

  /** Lines 92-94: the name found, else "EMRI_" and the sheet's last character. */
  function NameOf(sh: Sheet): string
    requires |sh.name| > 0
  {
    match Detect(sh)
    case Detected(name, _) => name
    case NotFound => "EMRI_" + [sh.name[|sh.name| - 1]]
  }

  /** Lines 95-100: the number found with the name, else the sheet's number. */
  function NumberOf(sh: Sheet): nat
    requires |sh.name| > 0
  {
    match Detect(sh)
    case Detected(_, Some(n)) => n
    case _ => SheetNumber(sh.name)
  }

  function StationOf(sh: Sheet): Station
    requires Processable(sh)
  {
    Station(NameOf(sh), NumberOf(sh), DayRows(sh), NightRows(sh))
  }

  /** Lines 68-77: the inner loop over the columns of row `fila`, stopping at the first cell
      holding "EMRI". */
  method ScanCells(sh: Sheet, fila: nat) returns (hit: Option<nat>)
    requires WellFormed(sh) && fila < |sh.rows|
    ensures hit == ScanRow(sh, fila, 0)
  {
    var col := 0;
    while col < ScanLimit && col < |sh.columns|
      invariant col <= ScanLimit
      invariant ScanRow(sh, fila, 0) == ScanRow(sh, fila, col)
    {
      var cell := sh.rows[fila][col];
      if cell.Value? && Contains(cell.text, "EMRI") {
        return Some(col);
      }
      col := col + 1;
    }
    return None;
  }

  /** Lines 62-79: the row-major scan of the top-left block, leaving both loops at the first
      cell holding "EMRI". */
  method ScanBlock(sh: Sheet) returns (nombre: Option<string>, num: Option<nat>)
    requires WellFormed(sh)
    ensures match ScanRows(sh, 0)
      case Some(rc) => nombre == Some(Strip(sh.rows[rc.0][rc.1].text)) && num == EmriNumber(sh.rows[rc.0][rc.1].text)
      case None => nombre.None? && num.None?
  {
    nombre, num := None, None;
    var fila := 0;
    while fila < ScanLimit && fila < |sh.rows|
      invariant fila <= ScanLimit
      invariant ScanRows(sh, 0) == ScanRows(sh, fila)
    {
      var hit := ScanCells(sh, fila);
      if hit.Some? {
        var text := sh.rows[fila][hit.value].text;
        EmriNotBlank(text);
        nombre := Some(Strip(text));
        num := EmriNumber(text);
        assert ScanRows(sh, fila) == Some((fila, hit.value));
        return;
      }
      fila := fila + 1;
    }
  }

  /** Lines 82-90: the first column header holding "EMRI". */
  method ScanHeaders(columns: seq<string>) returns (nombre: Option<string>, num: Option<nat>)
    ensures match FirstHeader(columns, 0)
      case Some(i) => nombre == Some(columns[i]) && num == EmriNumber(columns[i])
      case None => nombre.None? && num.None?
  {
    nombre, num := None, None;
    for i := 0 to |columns|
      invariant FirstHeader(columns, 0) == FirstHeader(columns, i)
    {
      if Contains(columns[i], "EMRI") {
        nombre := Some(columns[i]);
        num := EmriNumber(columns[i]);
        return;
      }
    }
  }

  /** Every selected sheet can be processed. */
  lemma PtoProcessable(book: seq<Sheet>)
    requires forall i :: 0 <= i < |book| ==> WellFormed(book[i])
    ensures forall i :: 0 <= i < |PtoSheets(book)| ==> Processable(PtoSheets(book)[i])
  {
  }

  /** `procesar_excel_simple` for one sheet: the two scans, the fallbacks of lines 92-100 and
      the extraction loop of lines 106-135. */
  method ProcessSheet(sh: Sheet) returns (st: Station)
    requires Processable(sh)
    ensures st == StationOf(sh)
  {
    var nombre, num := ScanBlock(sh);
    if nombre.None? {
      nombre, num := ScanHeaders(sh.columns);
    }
    var last := sh.name[|sh.name| - 1];
    var number: nat;
    if nombre.None? {
      nombre := Some("EMRI_" + [last]);
      number := SheetNumber(sh.name);
    } else if num.None? {
      number := SheetNumber(sh.name);
    } else {
      number := num.value;
    }
    assert nombre.value == NameOf(sh) && number == NumberOf(sh);
    var day, night := ExtractRows(sh);
    st := Station(nombre.value, number, day, night);
  }

  /** The loop of lines 106-135 over rows 9, 10 and 11 (positions 8, 9 and 10). */
  method ExtractRows(sh: Sheet) returns (day: seq<seq<Cell>>, night: seq<seq<Cell>>)
    requires WellFormed(sh)
    ensures day == DayRows(sh) && night == NightRows(sh)
  {
    day, night := [], [];
    for k := 0 to 3
      invariant |day| == k && |night| == k
      invariant forall j :: 0 <= j < k ==> day[j] == Extract(sh, 8 + j, DayFirst, DayLast)
      invariant forall j :: 0 <= j < k ==> night[j] == Extract(sh, 8 + j, NightFirst, NightLast)
    {
      day := day + [Extract(sh, 8 + k, DayFirst, DayLast)];
      night := night + [Extract(sh, 8 + k, NightFirst, NightLast)];
    }
  }

  /** The station is named by the first cell holding "EMRI" in row-major order over the
      top-left 10 x 10 block, stripped, and numbered by the "EMRI_<digits>" in that cell,
      else by the sheet name. */
  lemma NameFromFirstHit(sh: Sheet, r: nat, c: nat)
    requires Processable(sh)
    requires r < ScanLimit && c < ScanLimit && Hit(sh, r, c)
    requires forall r': nat, c': nat :: (r' < r && c' < ScanLimit) || (r' == r && c' < c) ==> !Hit(sh, r', c')
    ensures StationOf(sh).name == Strip(sh.rows[r][c].text)
    ensures StationOf(sh).number == match EmriNumber(sh.rows[r][c].text)
                                    case Some(n) => n
                                    case None => SheetNumber(sh.name)
  {
    assert ScanRows(sh, 0) == Some((r, c));
  }

  /** With no such cell in the block, the first column header holding "EMRI" names it. */
  lemma NameFromHeader(sh: Sheet, i: nat)
    requires Processable(sh)
    requires forall r: nat, c: nat :: r < ScanLimit && c < ScanLimit ==> !Hit(sh, r, c)
    requires i < |sh.columns| && Contains(sh.columns[i], "EMRI")
    requires forall j :: 0 <= j < i ==> !Contains(sh.columns[j], "EMRI")
    ensures StationOf(sh).name == sh.columns[i]
  {
    assert ScanRows(sh, 0).None?;
    assert FirstHeader(sh.columns, 0) == Some(i);
  }

  /** With neither, the name is "EMRI_" and the sheet's last character, and so is the number. */
  lemma NameFallback(sh: Sheet)
    requires Processable(sh)
    requires forall r: nat, c: nat :: r < ScanLimit && c < ScanLimit ==> !Hit(sh, r, c)
    requires forall j :: 0 <= j < |sh.columns| ==> !Contains(sh.columns[j], "EMRI")
    ensures StationOf(sh).name == "EMRI_" + [sh.name[|sh.name| - 1]]
    ensures StationOf(sh).number == SheetNumber(sh.name)
  {
    NothingDetected(sh);
    assert StationOf(sh).name == NameOf(sh);
    assert StationOf(sh).number == NumberOf(sh);
  }

  /** No hit in the block and no "EMRI" header: detection finds nothing. */
  lemma NothingDetected(sh: Sheet)
    requires forall r: nat, c: nat :: r < ScanLimit && c < ScanLimit ==> !Hit(sh, r, c)
    requires forall j :: 0 <= j < |sh.columns| ==> !Contains(sh.columns[j], "EMRI")
    ensures Detect(sh) == NotFound
  {
    assert ScanRows(sh, 0).None?;
    assert FirstHeader(sh.columns, 0).None?;
  }

  /** A station whose first "EMRI" cell reads "EMRI_<n>" gets the number n. */
  lemma NumberFromCell(sh: Sheet, n: nat)
    requires Processable(sh)
    requires |sh.rows| > 0 && |sh.columns| > 0 && sh.rows[0][0] == Value("EMRI_" + NatToString(n))
    ensures StationOf(sh).number == n
  {
    assert OccursAt(sh.rows[0][0].text, "EMRI", 0);
    assert Hit(sh, 0, 0);
    EmriNumberOfName(n);
  }

  /** Lines 106-135: every station carries three day rows and three night rows of exactly
      fifteen cells; a missing row gives fifteen blanks. */
  lemma StationRows(sh: Sheet, k: nat)
    requires Processable(sh) && k < 3
    ensures |StationOf(sh).day| == 3 && |StationOf(sh).night| == 3
    ensures |StationOf(sh).day[k]| == Width && |StationOf(sh).night[k]| == Width
    ensures 8 + k >= |sh.rows| ==> forall j :: 0 <= j < Width ==>
              StationOf(sh).day[k][j] == Blank && StationOf(sh).night[k][j] == Blank
  {
    StationRowsAre(sh);
    ExtractedRows(sh, k);
  }

  lemma ExtractedRows(sh: Sheet, k: nat)
    requires WellFormed(sh) && k < 3
    ensures |DayRows(sh)| == 3 && |NightRows(sh)| == 3
    ensures |DayRows(sh)[k]| == Width && |NightRows(sh)[k]| == Width
    ensures 8 + k >= |sh.rows| ==> forall j :: 0 <= j < Width ==>
              DayRows(sh)[k][j] == Blank && NightRows(sh)[k][j] == Blank
  {
    assert DayRows(sh)[k] == Extract(sh, 8 + k, DayFirst, DayLast);
    assert NightRows(sh)[k] == Extract(sh, 8 + k, NightFirst, NightLast);
  }

  lemma StationRowsAre(sh: Sheet)
    requires Processable(sh)
    ensures StationOf(sh).day == DayRows(sh) && StationOf(sh).night == NightRows(sh)
  {
  }

  // ---------------------------------------------------------------------------
  // The report: stations in sheet order, then stably sorted by number (line 143)

  /** One station per sheet, in sheet order. */
  function Stations(sheets: seq<Sheet>): seq<Station>
    requires forall i :: 0 <= i < |sheets| ==> Processable(sheets[i])
  {
    seq(|sheets|, i requires 0 <= i < |sheets| => StationOf(sheets[i]))
  }

  predicate ByNumber(x: Station, y: Station) { x.number <= y.number }

  lemma ByNumberPreorder()
    ensures TotalPreorder(ByNumber)
  {
  }

  function Report(book: seq<Sheet>): seq<Station>
    requires forall i :: 0 <= i < |book| ==> WellFormed(book[i])
  {
    Sort(Stations(PtoSheets(book)), ByNumber)
  }

  /** Lines 141-142: one station per selected sheet, in sheet order. */
  method BuildStations(hojas: seq<Sheet>) returns (stations: seq<Station>)
    requires forall i :: 0 <= i < |hojas| ==> Processable(hojas[i])
    ensures stations == Stations(hojas)
  {
    stations := [];
    for i := 0 to |hojas|
      invariant stations == Stations(hojas)[..i]
    {
      var st := ProcessSheet(hojas[i]);
      StationsStep(hojas, i);
      stations := stations + [st];
    }
  }

  lemma StationsStep(hojas: seq<Sheet>, i: nat)
    requires forall i :: 0 <= i < |hojas| ==> Processable(hojas[i])
    requires i < |hojas|
    ensures Stations(hojas)[..i + 1] == Stations(hojas)[..i] + [StationOf(hojas[i])]
  {
  }

  /** `procesar_excel_simple`: one station per PTO sheet, in sheet order, then sorted. */
  method ProcesarExcelSimple(book: seq<Sheet>) returns (stations: seq<Station>)
    requires forall i :: 0 <= i < |book| ==> WellFormed(book[i])
    ensures stations == Report(book)
  {
    var hojas := PtoSheets(book);
    PtoProcessable(book);
    stations := BuildStations(hojas);
    stations := Sort(stations, ByNumber);
  }

  /** Line 143: the report holds one station per PTO sheet, ordered by number, and stations
      with equal numbers keep the sorted-sheet order. */
  lemma ReportOrder(book: seq<Sheet>, y: Station)
    requires forall i :: 0 <= i < |book| ==> WellFormed(book[i])
    ensures Sorted(Report(book), ByNumber)
    ensures multiset(Report(book)) == multiset(Stations(PtoSheets(book)))
    ensures Ties(Report(book), y, ByNumber) == Ties(Stations(PtoSheets(book)), y, ByNumber)
  {
    ByNumberPreorder();
    SortSorted(Stations(PtoSheets(book)), ByNumber);
    SortStable(Stations(PtoSheets(book)), y, ByNumber);
  }

  /** Lines 152-169: the frame for row 9, 10 or 11 (k = 0, 1, 2), day or night: one row per
      station, its name first and then its fifteen cells. */
  function Frame(stations: seq<Station>, k: nat, night: bool): (f: seq<seq<Cell>>)
    requires k < 3
    requires forall i :: 0 <= i < |stations| ==> |stations[i].day| == 3 && |stations[i].night| == 3
    ensures |f| == |stations|
    ensures forall i :: 0 <= i < |f| ==>
      |f[i]| > 0 && f[i][0] == Value(stations[i].name)
      && f[i][1..] == if night then stations[i].night[k] else stations[i].day[k]
  {
    seq(|stations|, i requires 0 <= i < |stations| =>
      [Value(stations[i].name)] + if night then stations[i].night[k] else stations[i].day[k])
  }

  // ---------------------------------------------------------------------------
  // Declaración styling (lines 307-317 and 388-395)

  datatype Style = Green | Red | Amber | Plain

  /** The format chosen for a non-blank Declaración cell, on its lower-cased text. */
  function DeclStyle(text: string): Style {
    var v := Lower(text);
    if v == "pasa" then Green
    else if v == "no pasa" then Red
    else if Contains(v, "condicional") then Amber
    else Plain
  }

  /** A blank Declaración cell is not written at all. */
  function DeclarationCell(c: Cell): (s: Option<Style>)
    ensures s.None? <==> c.Blank?
  {
    match c
    case Blank => None
    case Value(t) => Some(DeclStyle(t))
  }

  lemma NotContainedInShorter(s: string, p: string)
    requires |s| < |p|
    ensures !Contains(s, p)
  {
  }

  /** The four styles partition the texts: green exactly for "pasa", red exactly for
      "no pasa", amber for any other text holding "condicional", plain for the rest. */
  lemma DeclStyleCases(text: string)
    ensures DeclStyle(text) == Green <==> Lower(text) == "pasa"
    ensures DeclStyle(text) == Red <==> Lower(text) == "no pasa"
    ensures DeclStyle(text) == Amber <==> Contains(Lower(text), "condicional")
    ensures DeclStyle(text) == Plain <==>
      Lower(text) != "pasa" && Lower(text) != "no pasa" && !Contains(Lower(text), "condicional")
  {
    if Lower(text) == "pasa" || Lower(text) == "no pasa" {
      NotContainedInShorter(Lower(text), "condicional");
    }
  }

  /** Every declaration the model produces gets its intended colour, whatever its case. */
  lemma DeclStyleOfDeclarations()
    ensures DeclStyle("Pasa") == Green && DeclStyle("No pasa") == Red
    ensures DeclStyle("Pasa condicional") == Amber && DeclStyle("No pasa condicional") == Amber
    ensures DeclStyle("—") == Plain
  {
    DeclStylePlain();
    PasaConditional();
    NoPasaConditional();
  }

  lemma DeclStylePlain()
    ensures DeclStyle("Pasa") == Green && DeclStyle("No pasa") == Red && DeclStyle("—") == Plain
  {
    assert Lower("Pasa") == "pasa";
    assert Lower("No pasa") == "no pasa";
    NotContainedInShorter(Lower("—"), "condicional");
  }

  lemma PasaConditional()
    ensures DeclStyle("Pasa condicional") == Amber
  {
    var text := "Pasa condicional";
    assert text[5..] == "condicional";
    assert text == text[..5] + "condicional";
    ConditionalAmber(text[..5]);
  }

  lemma NoPasaConditional()
    ensures DeclStyle("No pasa condicional") == Amber
  {
    var text := "No pasa condicional";
    assert text[8..] == "condicional";
    assert text == text[..8] + "condicional";
    ConditionalAmber(text[..8]);
  }

  /** Any text ending in "condicional" is amber. */
  lemma ConditionalAmber(prefix: string)
    ensures DeclStyle(prefix + "condicional") == Amber
  {
    var p := "condicional";
    var text := prefix + p;
    var i := |prefix|;
    forall k | 0 <= k < |p| ensures Lower(text)[i + k] == p[k] {
      assert text[i + k] == p[k];
    }
    assert Lower(text)[i..i + |p|] == p;
    assert OccursAt(Lower(text), p, i);
  }

  // ---------------------------------------------------------------------------
  // Block layout (lines 252-253, 266-286, 335)

  /** Lines 271-283: the first block carries the Nombre column and is `ncols` wide; the
      others are one narrower, and their data starts at their own first column. */
  function BlockWidth(i: nat, ncols: nat): nat
    requires ncols >= 2
  {
    if i == 0 then ncols else ncols - 1
  }

  function DataOffset(i: nat): nat { if i == 0 then 1 else 0 }

  /** The three day (or night) blocks: each title spans `[start, start + width - 1]`, the
      next block starts one column after that (line 335). */
  method BlockStarts(ncols: nat) returns (starts: seq<nat>)
    requires ncols >= 2
    ensures |starts| == 3 && starts[0] == 0
    ensures forall i :: 0 <= i < 2 ==> starts[i + 1] == starts[i] + BlockWidth(i, ncols) + 1
  {
    starts := [];
    var offset: nat := 0;
    for i := 0 to 3
      invariant |starts| == i
      invariant i > 0 ==> starts[0] == 0
      invariant forall j :: 0 <= j < i - 1 ==> starts[j + 1] == starts[j] + BlockWidth(j, ncols) + 1
      invariant offset == if i == 0 then 0 else starts[i - 1] + BlockWidth(i - 1, ncols) + 1
    {
      starts := starts + [offset];
      var ancho := BlockWidth(i, ncols);
      offset := offset + ancho + 1;
    }
  }

  /** Each block's data column j lies under that block's merged title, and the gap column
      after a block belongs to no block. */
  lemma BlocksLayout(ncols: nat, starts: seq<nat>, i: nat, j: nat)
    requires ncols >= 2 && |starts| == 3 && starts[0] == 0
    requires forall i :: 0 <= i < 2 ==> starts[i + 1] == starts[i] + BlockWidth(i, ncols) + 1
    requires i < 3 && j < ncols - 1
    ensures starts[i] <= starts[i] + DataOffset(i) + j <= starts[i] + BlockWidth(i, ncols) - 1
    ensures i < 2 ==> starts[i] + BlockWidth(i, ncols) < starts[i + 1]
  {
  }

  /** Line 253: the night section starts seven rows below the top of the sheet plus the
      largest day frame, leaving five empty rows under the last day row (row n + 1). */
  function NightStart(dayCounts: seq<nat>): (start: nat)
    requires |dayCounts| == 3
    ensures forall k :: 0 <= k < 3 ==> dayCounts[k] + 1 + 5 < start
    ensures exists k :: 0 <= k < 3 && start == dayCounts[k] + 7
  {
    var m := if dayCounts[0] >= dayCounts[1] && dayCounts[0] >= dayCounts[2] then dayCounts[0]
             else if dayCounts[1] >= dayCounts[2] then dayCounts[1] else dayCounts[2];
    m + 2 + 5
  }

  // Column widths (lines 338-340): after `col_offset` has moved past block i, the width
  // recorded for data column j is set on column `col_offset - ancho_titulo + j`.

  /** As written: the column whose width is set for data column j of block i. */
  function WidthColumnAsWritten(start: nat, i: nat, ncols: nat, j: nat): nat
    requires ncols >= 2
  {
    var after := start + BlockWidth(i, ncols) + 1;
    after - BlockWidth(i, ncols) + j
  }

  /** The column where data column j of block i is written (line 304). */
  function DataColumn(start: nat, i: nat, j: nat): nat {
    start + DataOffset(i) + j
  }

  /** For the second and third blocks the width lands one column to the right of the data
      it was measured on; the last one falls on the gap column between blocks. */
  lemma WidthColumnShifted(start: nat, i: nat, ncols: nat, j: nat)
    requires ncols >= 2 && 0 < i < 3
    ensures WidthColumnAsWritten(start, i, ncols, j) == DataColumn(start, i, j) + 1
    ensures WidthColumnAsWritten(start, i, ncols, ncols - 2) == start + BlockWidth(i, ncols)
  {
  }

  /** The first block is unaffected, because its data starts one column in. */
  lemma WidthColumnFirstBlock(start: nat, ncols: nat, j: nat)
    requires ncols >= 2
    ensures WidthColumnAsWritten(start, 0, ncols, j) == DataColumn(start, 0, j)
  {
  }

  /** Corrected: the width of data column j is set on the column that holds it. */
  function WidthColumn(start: nat, i: nat, ncols: nat, j: nat): (c: nat)
    requires ncols >= 2
    ensures c == DataColumn(start, i, j)
  {
    var after := start + BlockWidth(i, ncols) + 1;
    after - BlockWidth(i, ncols) - 1 + DataOffset(i) + j
  }

  /** With the correction every data column's width stays inside its block's title span. */
  lemma WidthColumnInBlock(start: nat, i: nat, ncols: nat, j: nat)
    requires ncols >= 2 && i < 3 && j < ncols - 1
    ensures start <= WidthColumn(start, i, ncols, j) <= start + BlockWidth(i, ncols) - 1
  {
  }

  // ---------------------------------------------------------------------------
  // Sheet-name de-duplication in `combinar_excels` (lines 445-459)

  /** The k-th name tried for `name`: the name itself, then "name (1)", "name (2)", ... */
  function Candidate(name: string, k: nat): string {
    if k == 0 then name else name + " (" + NatToString(k) + ")"
  }

  lemma CandidateDistinct(name: string, j: nat, k: nat)
    requires j != k
    ensures Candidate(name, j) != Candidate(name, k)
  {
    if j > 0 && k > 0 {
      var a := NatToString(j);
      var b := NatToString(k);
      NatToStringRoundTrip(j);
      NatToStringRoundTrip(k);
      if |a| == |b| {
        var n := |name| + 2;
        assert Candidate(name, j)[n..n + |a|] == a;
        assert Candidate(name, k)[n..n + |b|] == b;
      } else {
        assert |Candidate(name, j)| != |Candidate(name, k)|;
      }
    } else {
      assert |Candidate(name, j)| != |Candidate(name, k)|;
    }
  }

  /** The while loop of lines 451-453: the first candidate not already a sheet name. */
  method UniqueName(existing: seq<string>, name: string) returns (final: string)
    ensures final !in existing
    ensures exists k: nat :: final == Candidate(name, k) && forall j :: 0 <= j < k ==> Candidate(name, j) in existing
  {
    var contador: nat := 0;
    final := name;
    ghost var pool := set s | s in existing;
    ghost var tried: set<string> := {};
    while final in existing
      invariant final == Candidate(name, contador)
      invariant forall j :: 0 <= j < contador ==> Candidate(name, j) in existing
      invariant tried <= pool
      invariant forall j :: j >= contador ==> Candidate(name, j) !in tried
      decreases pool - tried
    {
      forall j | j >= contador + 1
        ensures Candidate(name, j) != Candidate(name, contador)
      {
        CandidateDistinct(name, j, contador);
      }
      tried := tried + {final};
      contador := contador + 1;
      final := Candidate(name, contador);
    }
  }

  /** `s` is the first name tried for `name` that is not in `existing`: every earlier
      candidate is taken. */
  ghost predicate FirstFree(s: string, name: string, existing: seq<string>) {
    exists k: nat :: s == Candidate(name, k) && forall j :: 0 <= j < k ==> Candidate(name, j) in existing
  }

  /** A name no earlier sheet has is kept as it is: the first candidate is the name itself. */
  lemma FreeNameKept(s: string, name: string, existing: seq<string>)
    requires FirstFree(s, name, existing) && name !in existing
    ensures s == name
  {
    var k: nat :| s == Candidate(name, k) && forall j :: 0 <= j < k ==> Candidate(name, j) in existing;
    assert Candidate(name, 0) !in existing;
  }

  /** The sheet names of the combined workbook: the first workbook's names, then each name of
      the second, kept when no earlier sheet has it and otherwise renamed to the first free
      "name (k)". */
  method CombineSheetNames(names1: seq<string>, names2: seq<string>) returns (result: seq<string>)
    ensures |result| == |names1| + |names2| && result[..|names1|] == names1
    ensures forall p :: |names1| <= p < |result| ==> FirstFree(result[p], names2[p - |names1|], result[..p])
    ensures forall p :: |names1| <= p < |result| ==> result[p] !in result[..p]
    ensures forall p :: |names1| <= p < |result| && names2[p - |names1|] !in result[..p] ==> result[p] == names2[p - |names1|]
  {
    result := names1;
    for i := 0 to |names2|
      invariant |result| == |names1| + i && result[..|names1|] == names1
      invariant forall p :: |names1| <= p < |result| ==> FirstFree(result[p], names2[p - |names1|], result[..p])
      invariant forall p :: |names1| <= p < |result| ==> result[p] !in result[..p]
    {
      var final := UniqueName(result, names2[i]);
      var next := result + [final];
      assert next[..|result|] == result;
      assert forall p :: 0 <= p < |result| ==> next[..p] == result[..p];
      result := next;
    }
    forall p | |names1| <= p < |result| && names2[p - |names1|] !in result[..p]
      ensures result[p] == names2[p - |names1|]
    {
      FreeNameKept(result[p], names2[p - |names1|], result[..p]);
    }
  }

  predicate Distinct(s: seq<string>) {
    forall i, j :: 0 <= i < j < |s| ==> s[i] != s[j]
  }

  /** If the first workbook's sheet names are distinct, so are the combined workbook's. */
  lemma CombinedDistinct(names1: seq<string>, names2: seq<string>, result: seq<string>)
    requires Distinct(names1)
    requires |result| == |names1| + |names2| && result[..|names1|] == names1
    requires forall p :: |names1| <= p < |result| ==> result[p] !in result[..p]
    ensures Distinct(result)
  {
    forall i, j | 0 <= i < j < |result| ensures result[i] != result[j] {
      if j < |names1| {
        assert result[i] == names1[i] && result[j] == names1[j];
      } else {
        assert result[i] in result[..j];
      }
    }
  }
}
