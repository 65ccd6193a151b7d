/** The acoustic rules: A-weighting of a one-third-octave band, the tonal adjustment KT of a
    spectrum (Colombian Resolución 0627 de 2006), the impulsivity correction KI, the corrected
    level and the compliance declaration. */
module Acoustic {
  import opened Values
  import opened Constants

  // ---------------------------------------------------------------------------
  // Reading band labels: Python's `float(s)` and the kilohertz suffix

  function Pow10(n: nat): (r: nat)
    ensures r >= 1
  {
    if n == 0 then 1 else 10 * Pow10(n - 1)
  }

  function IndexOf(s: string, c: char): (i: nat)
    ensures i <= |s| && (i < |s| ==> s[i] == c)
    ensures forall j :: 0 <= j < i ==> s[j] != c
  {
    if |s| == 0 || s[0] == c then 0 else 1 + IndexOf(s[1..], c)
  }

  /** `float(s)` for an unsigned decimal numeral: digits, optionally a point and more digits,
      at least one digit in all. */
  function ParseUnsigned(s: string): Option<real> {
    var p := IndexOf(s, '.');
    var whole := s[..p];
    var frac := if p < |s| then s[p + 1..] else "";
    if |whole| + |frac| > 0 && AllDigits(whole) && AllDigits(frac) then
      Some(DigitsValue(whole) as real + DigitsValue(frac) as real / Pow10(|frac|) as real)
    else None
  }

  /** `float(s)` for a plain decimal numeral with an optional sign; `None` is the ValueError
      that Python raises on anything else. */
  function ParseFloat(s: string): Option<real> {
    if |s| > 0 && (s[0] == '-' || s[0] == '+') then
      match ParseUnsigned(s[1..])
      case None => None
      case Some(v) => Some(if s[0] == '-' then -v else v)
    else ParseUnsigned(s)
  }

  /** `float(str(n)) == n`. */
  lemma ParseFloatOfNumeral(n: nat)
    ensures ParseFloat(NatToString(n)) == Some(n as real)
  {
    var s := NatToString(n);
    NatToStringRoundTrip(n);
    assert !IsDigit('.');
    assert IndexOf(s, '.') == |s|;
    assert s[..|s|] == s;
  }

  /** `s.replace('k', '').replace('K', '')`. */
  function RemoveKilo(s: string): string {
    Replace(Replace(s, "k", ""), "K", "")
  }

  /** The frequency that `Ponderacion_A` reads from a band label: the label as a number,
      times 1000 when it holds a 'k' or a 'K'. */
  function LabelHz(s: string): Option<real> {
    if 'k' in s || 'K' in s then KiloHz(s) else ParseFloat(s)
  }

  /** A kilohertz label without its 'k'/'K', read as a number and scaled to Hz. */
  function KiloHz(s: string): Option<real> {
    match ParseFloat(RemoveKilo(s))
    case None => None
    case Some(v) => Some(v * 1000.0)
  }

  lemma {:induction false} RemoveTrailingChar(s: string, c: char)
    requires c !in s
    ensures Replace(s + [c], [c], "") == s
    decreases |s|
  {
    if |s| == 0 {
      assert Replace([c], [c], "") == "" + Replace([], [c], "");
    } else {
      assert (s + [c])[1..] == s[1..] + [c];
      RemoveTrailingChar(s[1..], c);
      assert s == [s[0]] + s[1..];
    }
  }

  lemma {:induction false} ReplaceMissingChar(s: string, c: char, t: string)
    requires c !in s
    ensures Replace(s, [c], t) == s
    decreases |s|
  {
    if |s| > 0 {
      ReplaceMissingChar(s[1..], c, t);
      assert s == [s[0]] + s[1..];
    }
  }

  /** A plain numeral reads as itself, and the same numeral with a 'k' suffix reads as a
      thousand times as much: "8" is 8 Hz and "1k" is 1000 Hz. */
  lemma LabelHzOfNumeral(n: nat)
    ensures LabelHz(NatToString(n)) == Some(n as real)
    ensures LabelHz(NatToString(n) + "k") == Some(n as real * 1000.0)
  {
    var s := NatToString(n);
    assert 'k' !in s && 'K' !in s by {
      assert forall i :: 0 <= i < |s| ==> IsDigit(s[i]);
    }
    ParseFloatOfNumeral(n);
    assert 'k' in s + "k" by { assert (s + "k")[|s|] == 'k'; }
    RemoveTrailingChar(s, 'k');
    ReplaceMissingChar(s, 'K', "");
  }

  // ---------------------------------------------------------------------------
  // A-weighting: nearest table band

  function Dist(a: real, b: real): real { if a >= b then a - b else b - a }

  /** `np.searchsorted(a, f)` (side 'left'): the number of entries below `f`. */
  function SearchSorted(a: seq<real>, f: real): (idx: nat)
    requires StrictlyAscending(a)
    ensures idx <= |a|
    ensures forall i :: 0 <= i < idx ==> a[i] < f
    ensures forall i :: idx <= i < |a| ==> f <= a[i]
  {
    if |a| == 0 || f <= a[0] then 0 else 1 + SearchSorted(a[1..], f)
  }

  /** `k` is a band of `a` nearest to `f`, and every lower band is strictly farther: ties go
      to the lower band. */
  predicate IsNearest(a: seq<real>, f: real, k: int) {
    && 0 <= k < |a|
    && (forall j :: 0 <= j < |a| ==> Dist(a[k], f) <= Dist(a[j], f))
    && (forall j :: 0 <= j < k ==> Dist(a[k], f) < Dist(a[j], f))
  }

  lemma NearestUnique(a: seq<real>, f: real, k1: int, k2: int)
    requires IsNearest(a, f, k1) && IsNearest(a, f, k2)
    ensures k1 == k2
  {
    var d1, d2 := Dist(a[k1], f), Dist(a[k2], f);
    assert d1 == d2;
  }

  /** Lines 23-35 of the weighting: search, clamp at either end, then compare the two
      neighbours and keep the lower one unless the upper one is strictly closer. */
  function Nearest(a: seq<real>, f: real): (k: nat)
    requires |a| > 0 && StrictlyAscending(a)
    ensures IsNearest(a, f, k)
  {
    var idx := SearchSorted(a, f);
    if idx == 0 then 0
    else if idx == |a| then |a| - 1
    else if Dist(a[idx], f) < Dist(a[idx - 1], f) then idx
    else idx - 1
  }

  function NearestBand(f: real): (k: nat)
    ensures k < |Frequencies| && IsNearest(Frequencies, f, k)
  {
    FrequencyTable();
    Nearest(Frequencies, f)
  }

  /** `Ponderacion_A(label, level)`: the level plus the gain of the table band nearest to the
      label's frequency; `None` when `float()` rejects the label. */
  function PonderacionA(tag: string, level: Float): (r: Option<Float>)
    ensures r.Some? <==> LabelHz(tag).Some?
    ensures r.Some? ==> exists k :: IsNearest(Frequencies, LabelHz(tag).value, k)
                                    && r.value == Add(level, F(Ponderation[k]))
  {
    match LabelHz(tag)
    case None => None
    case Some(f) => Some(Add(level, F(Ponderation[NearestBand(f)])))
  }

  /** The gain applied is the one of any band nearest to the label's frequency. */
  lemma PonderacionAt(tag: string, level: Float, f: real, i: nat)
    requires LabelHz(tag) == Some(f) && IsNearest(Frequencies, f, i)
    ensures PonderacionA(tag, level) == Some(Add(level, F(Ponderation[i])))
  {
    NearestUnique(Frequencies, f, NearestBand(f), i);
  }

  /** Frequencies beyond either end of the table take the gain of the end band. */
  lemma PonderacionAClamped(tag: string, level: Float, f: real)
    requires LabelHz(tag) == Some(f)
    ensures f <= 6.3 ==> PonderacionA(tag, level) == Some(Add(level, F(-85.4)))
    ensures f > 20000.0 ==> PonderacionA(tag, level) == Some(Add(level, F(-9.3)))
  {
    FrequencyTable();
    if f <= 6.3 {
      assert IsNearest(Frequencies, f, 0);
      PonderacionAt(tag, level, f, 0);
    }
    if f > 20000.0 {
      assert IsNearest(Frequencies, f, 35);
      PonderacionAt(tag, level, f, 35);
    }
  }

  /** A table frequency takes its own band's gain. */
  lemma PonderacionAExact(tag: string, level: Float, f: real)
    requires LabelHz(tag) == Some(f)
    ensures forall i :: 0 <= i < |Frequencies| && f == Frequencies[i] ==>
              PonderacionA(tag, level) == Some(Add(level, F(Ponderation[i])))
  {
    FrequencyTable();
    forall i | 0 <= i < |Frequencies| && f == Frequencies[i]
      ensures PonderacionA(tag, level) == Some(Add(level, F(Ponderation[i])))
    {
      assert IsNearest(Frequencies, f, i);
      PonderacionAt(tag, level, f, i);
    }
  }

  /** Half-way between two neighbouring bands, both are equally near and the lower wins. */
  lemma MidpointNearest(a: seq<real>, i: nat)
    requires StrictlyAscending(a) && i + 1 < |a|
    ensures IsNearest(a, (a[i] + a[i + 1]) / 2.0, i)
  {
    var f := (a[i] + a[i + 1]) / 2.0;
    forall j | 0 <= j < |a| ensures Dist(a[i], f) <= Dist(a[j], f) {
      if j < i {
        assert a[j] < a[i];
      } else if j > i + 1 {
        assert a[i + 1] < a[j];
      }
    }
    forall j | 0 <= j < i ensures Dist(a[i], f) < Dist(a[j], f) {
      assert a[j] < a[i];
    }
  }

  /** A frequency half-way between two bands takes the lower band's gain. */
  lemma PonderacionAMidpoint(tag: string, level: Float, f: real)
    requires LabelHz(tag) == Some(f)
    ensures forall i :: 0 <= i < |Frequencies| - 1 && f == (Frequencies[i] + Frequencies[i + 1]) / 2.0 ==>
              PonderacionA(tag, level) == Some(Add(level, F(Ponderation[i])))
  {
    FrequencyTable();
    forall i | 0 <= i < |Frequencies| - 1 && f == (Frequencies[i] + Frequencies[i + 1]) / 2.0
      ensures PonderacionA(tag, level) == Some(Add(level, F(Ponderation[i])))
    {
      MidpointNearest(Frequencies, i);
      PonderacionAt(tag, level, f, i);
    }
  }

  // ---------------------------------------------------------------------------
  // Tonal adjustment

  /** An entry of the spectrum list: a column label, or the number in Hz that the scan
      writes back in place of a kilohertz label. */
  datatype Label = Text(s: string) | Num(hz: real)

  /** The adjustment as a cell: 0, 3 or 6, the text "Error", or NaN where a table copy left
      no value. */
  datatype Kt = KtNum(n: int) | KtError | KtMissing

  datatype TonalAdj = TonalAdj(kt: Kt, bandas: string)

  /** What `ajuste_tonal` does: return `[adj, bands]`, or raise ValueError from `float()`. */
  datatype TonalOutcome = Returned(adj: TonalAdj) | Raised

  const NoTonal: string := "No hay ajuste tonal"
  const MismatchMessage: string := "El número de celdas no coincide"
  const BandRanges: seq<string> := ["<= 125 Hz", ">= 160 Hz & <= 400 Hz", ">= 500 Hz"]

  /** Lines 68-70: a label holding a 'k' (after lower-casing) is replaced by its value in
      Hz; `None` is the ValueError raised when the rest does not read as a number. */
  function Rewrite(l: Label): Option<Label> {
    match l
    case Num(_) => Some(l)
    case Text(s) =>
      if 'k' in Lower(s) then
        match KiloHz(s)
        case None => None
        case Some(hz) => Some(Num(hz))
      else Some(l)
  }

  /** `float(spectrum[k1])` on an entry after the rewrite. */
  function BandHz(l: Label): Option<real> {
    match l
    case Num(x) => Some(x)
    case Text(s) => ParseFloat(s)
  }

  lemma LowerHasK(s: string)
    ensures 'k' in Lower(s) <==> ('k' in s || 'K' in s)
  {
    if 'k' in Lower(s) {
      var i :| 0 <= i < |s| && Lower(s)[i] == 'k';
      assert s[i] == 'k' || s[i] == 'K';
    }
    if 'k' in s {
      var i :| 0 <= i < |s| && s[i] == 'k';
      assert Lower(s)[i] == 'k';
    }
    if 'K' in s {
      var i :| 0 <= i < |s| && s[i] == 'K';
      assert Lower(s)[i] == 'k';
    }
  }

  /** Rewriting a label a second time changes nothing: rewriting the caller's list in place
      is idempotent. */
  lemma RewriteIdempotent(l: Label)
    ensures Rewrite(l).Some? ==> Rewrite(Rewrite(l).value) == Rewrite(l)
  {
    if l.Text? && 'k' !in Lower(l.s) {
      assert Rewrite(l) == Some(l);
    }
  }

  /** The frequency the scan reads from a rewritten label is the one the A-weighting reads
      from the original label, and the rewrite fails only where that reading fails: a later
      call computes the same from the rewritten list. */
  lemma RewriteKeepsHz(l: Label)
    requires l.Text?
    ensures Rewrite(l).Some? ==> BandHz(Rewrite(l).value) == LabelHz(l.s)
    ensures LabelHz(l.s).Some? ==> Rewrite(l).Some?
  {
    LowerHasK(l.s);
    if 'k' !in Lower(l.s) {
      assert Rewrite(l) == Some(l);
    }
  }

  datatype Regime = Low | Mid | High | Outside

  /** Lines 77, 88 and 99: the frequency regimes; the gaps below 20 Hz, between 125 and
      160 Hz and between 400 and 500 Hz belong to none. */
  function RegimeOf(f: real): Regime {
    if 20.0 <= f <= 125.0 then Low
    else if 160.0 <= f <= 400.0 then Mid
    else if f >= 500.0 then High
    else Outside
  }

  function RegimeIndex(r: Regime): nat
    requires r != Outside
  {
    match r
    case Low => 0
    case Mid => 1
    case High => 2
  }

  /** The prominence thresholds of a regime: up to the first, no adjustment; up to the
      second, 3 dB; above it, 6 dB. */
  function Thresholds(r: Regime): (real, real)
    requires r != Outside
  {
    match r
    case Low => (8.0, 12.0)
    case Mid => (5.0, 8.0)
    case High => (3.0, 5.0)
  }

  function Mean2(a: Float, b: Float): (r: Float)
    ensures r.F? <==> a.F? && b.F?
    ensures r.F? ==> r.x == (a.x + b.x) / 2.0
  {
    if a.F? && b.F? then F((a.x + b.x) / 2.0) else NaN
  }

  /** The running state of the scan: `adj[0]` and the regime flags `b`. */
  datatype ScanState = ScanState(adj: int, b: seq<bool>)

  const ScanStart: ScanState := ScanState(0, [false, false, false])

  /** The effect of one band of frequency `f`, level `lt` and neighbour mean `ls`. */
  function BandStep(st: ScanState, f: real, lt: Float, ls: Float): (r: ScanState)
    requires |st.b| == 3
    ensures |r.b| == 3
  {
    var l := Sub(lt, ls);
    var reg := RegimeOf(f);
    if reg == Outside then st
    else
      var (t1, t2) := Thresholds(reg);
      if Le(Neg(ls), l) && Le(l, F(t1)) then
        (if st.adj < 3 then st.(adj := 0) else st)
      else if Lt(F(t1), l) && Le(l, F(t2)) then
        (if st.adj < 6 then ScanState(3, st.b[RegimeIndex(reg) := true]) else st)
      else if Lt(F(t2), l) && Le(l, lt) then
        ScanState(6, st.b[RegimeIndex(reg) := true])
      else st
  }

  /** The adjustment one band calls for on its own: 3 or 6 dB when its prominence over its
      neighbours passes its regime's thresholds, otherwise 0. */
  function BandOutcome(f: real, lt: Float, ls: Float): (n: int)
    ensures n == 0 || n == 3 || n == 6
    ensures RegimeOf(f) == Outside ==> n == 0
  {
    var l := Sub(lt, ls);
    var reg := RegimeOf(f);
    if reg == Outside then 0
    else
      var (t1, t2) := Thresholds(reg);
      if Le(Neg(ls), l) && Le(l, F(t1)) then 0
      else if Lt(F(t1), l) && Le(l, F(t2)) then 3
      else if Lt(F(t2), l) && Le(l, lt) then 6
      else 0
  }

  function Max(a: int, b: int): int { if a >= b then a else b }

  /** A reachable state: the adjustment is 0, 3 or 6, and it is 0 exactly when no regime is
      flagged. */
  predicate Consistent(st: ScanState) {
    && |st.b| == 3
    && (st.adj == 0 || st.adj == 3 || st.adj == 6)
    && (st.adj == 0 <==> !(st.b[0] || st.b[1] || st.b[2]))
  }

  /** One band raises the running adjustment to its own outcome and never lowers it; a
      flag is only ever set, and only for the band's own regime. */
  lemma BandStepMax(st: ScanState, f: real, lt: Float, ls: Float)
    requires Consistent(st)
    ensures Consistent(BandStep(st, f, lt, ls))
    ensures BandStep(st, f, lt, ls).adj == Max(st.adj, BandOutcome(f, lt, ls))
    ensures forall i :: 0 <= i < 3 && st.b[i] ==> BandStep(st, f, lt, ls).b[i]
    ensures forall i :: 0 <= i < 3 && BandStep(st, f, lt, ls).b[i] && !st.b[i] ==>
              RegimeOf(f) != Outside && i == RegimeIndex(RegimeOf(f)) && BandOutcome(f, lt, ls) > 0
    ensures BandOutcome(f, lt, ls) == 6 ==> BandStep(st, f, lt, ls).b[RegimeIndex(RegimeOf(f))]
  {
  }

  /** The scan result: finished with a state and the rewritten list, or failed with the
      list as it stood when `float()` raised. */
  datatype ScanResult = Finished(st: ScanState, labels: seq<Label>) | Failed(labels: seq<Label>)

  /** Lines 66-109 from band `k` on: rewrite the label, read its frequency, apply the step. */
  function Scan(labels: seq<Label>, levels: seq<Float>, k: nat, st: ScanState): (r: ScanResult)
    requires |labels| == |levels| && 1 <= k && |st.b| == 3
    ensures |r.labels| == |labels|
    ensures r.Finished? ==> |r.st.b| == 3
    decreases |labels| - k
  {
    if k + 1 >= |labels| then Finished(st, labels)
    else
      match Rewrite(labels[k])
      case None => Failed(labels)
      case Some(l) =>
        var labels' := labels[k := l];
        match BandHz(l)
        case None => Failed(labels')
        case Some(f) =>
          Scan(labels', levels, k + 1, BandStep(st, f, levels[k], Mean2(levels[k - 1], levels[k + 1])))
  }

  /** Lines 112-122: the flagged regimes in low, mid, high order. */
  function Flagged(b: seq<bool>, n: nat): seq<string>
    requires n <= |b| <= 3
  {
    if n == 0 then [] else Flagged(b, n - 1) + (if b[n - 1] then [BandRanges[n - 1]] else [])
  }

  function BandasLabel(b: seq<bool>): string
    requires |b| == 3
  {
    var parts := Flagged(b, 3);
    if |parts| == 0 then NoTonal else Join("; ", parts)
  }

  /** `ajuste_tonal(spectrum, levels)`: the outcome and the caller's list afterwards. */
  function AjusteTonalSpec(labels: seq<Label>, levels: seq<Float>): (TonalOutcome, seq<Label>) {
    if |labels| != |levels| then (Returned(TonalAdj(KtError, MismatchMessage)), labels)
    else
      match Scan(labels, levels, 1, ScanStart)
      case Failed(ls) => (Raised, ls)
      case Finished(st, ls) => (Returned(TonalAdj(KtNum(st.adj), BandasLabel(st.b))), ls)
  }

  lemma {:induction false} JoinAppend(sep: string, parts: seq<string>, p: string)
    requires |parts| > 0
    ensures Join(sep, parts + [p]) == Join(sep, parts) + sep + p
    decreases |parts|
  {
    if |parts| > 1 {
      assert (parts + [p])[1..] == parts[1..] + [p];
      JoinAppend(sep, parts[1..], p);
    } else {
      assert parts + [p] == [parts[0], p];
    }
  }

  /** Lines 75-109, the body of the scan loop for one band: the if/elif chain over the
      regimes and the prominence ranges, updating `adj[0]` and the flags `b`. */
  method ApplyBand(adj: int, b: seq<bool>, f: real, lt: Float, ls: Float) returns (adj': int, b': seq<bool>)
    requires |b| == 3
    ensures ScanState(adj', b') == BandStep(ScanState(adj, b), f, lt, ls)
  {
    adj', b' := adj, b;
    var l := Sub(lt, ls);
    if 20.0 <= f <= 125.0 {
      if Le(Neg(ls), l) && Le(l, F(8.0)) {
        if adj' < 3 { adj' := 0; }
      } else if Lt(F(8.0), l) && Le(l, F(12.0)) {
        if adj' < 6 { adj' := 3; b' := b'[0 := true]; }
      } else if Lt(F(12.0), l) && Le(l, lt) {
        adj' := 6; b' := b'[0 := true];
      }
    } else if 160.0 <= f <= 400.0 {
      if Le(Neg(ls), l) && Le(l, F(5.0)) {
        if adj' < 3 { adj' := 0; }
      } else if Lt(F(5.0), l) && Le(l, F(8.0)) {
        if adj' < 6 { adj' := 3; b' := b'[1 := true]; }
      } else if Lt(F(8.0), l) && Le(l, lt) {
        adj' := 6; b' := b'[1 := true];
      }
    } else if f >= 500.0 {
      if Le(Neg(ls), l) && Le(l, F(3.0)) {
        if adj' < 3 { adj' := 0; }
      } else if Lt(F(3.0), l) && Le(l, F(5.0)) {
        if adj' < 6 { adj' := 3; b' := b'[2 := true]; }
      } else if Lt(F(5.0), l) && Le(l, lt) {
        adj' := 6; b' := b'[2 := true];
      }
    }
  }

  /** Lines 111-122: the band label, built by appending "; " and each flagged range in
      turn; "No hay ajuste tonal" when no regime is flagged. */
  method BuildBandas(b: seq<bool>) returns (tag: string)
    requires |b| == 3
    ensures tag == BandasLabel(b)
  {
    tag := NoTonal;
    var x := 0;
    for a := 0 to 3
      invariant x == |Flagged(b, a)|
      invariant x > 0 ==> tag == Join("; ", Flagged(b, a))
    {
      if b[a] {
        x := x + 1;
        if x == 1 {
          tag := BandRanges[a];
        } else {
          JoinAppend("; ", Flagged(b, a), BandRanges[a]);
          tag := tag + "; " + BandRanges[a];
        }
      }
    }
    if x == 0 {
      tag := NoTonal;
    }
  }

  /** `ajuste_tonal`, as the source runs it: a loop over the interior bands that rewrites
      kilohertz labels of the caller's list in place and keeps `adj` and `b` up to date, then
      the band label. */
  method AjusteTonal(spectrum: array<Label>, levels: seq<Float>) returns (outcome: TonalOutcome)
    modifies spectrum
    ensures (outcome, spectrum[..]) == AjusteTonalSpec(old(spectrum[..]), levels)
  {
    if spectrum.Length != |levels| {
      return Returned(TonalAdj(KtError, MismatchMessage));
    }
    var adj := 0;
    var b := [false, false, false];
    var k1 := 1;
    while k1 + 1 < spectrum.Length
      invariant 1 <= k1
      invariant |b| == 3
      invariant Scan(spectrum[..], levels, k1, ScanState(adj, b)) == Scan(old(spectrum[..]), levels, 1, ScanStart)
      decreases spectrum.Length - k1
    {
      ghost var before := spectrum[..];
      var r := Rewrite(spectrum[k1]);
      if r.None? {
        return Raised;
      }
      spectrum[k1] := r.value;
      assert spectrum[..] == before[k1 := r.value];
      var lt := levels[k1];
      var ls := Mean2(levels[k1 - 1], levels[k1 + 1]);
      var hz := BandHz(spectrum[k1]);
      if hz.None? {
        return Raised;
      }
      adj, b := ApplyBand(adj, b, hz.value, lt, ls);
      k1 := k1 + 1;
    }
    var tag := BuildBandas(b);
    outcome := Returned(TonalAdj(KtNum(adj), tag));
  }

  // ---------------------------------------------------------------------------
  // What the tonal scan promises

  /** The frequency the scan reads for an entry: `float()` of its rewrite, or `None` where
      the rewrite or `float()` raises. */
  function Reading(l: Label): Option<real> {
    match Rewrite(l) case None => None case Some(l') => BandHz(l')
  }

  /** The reading of every entry of the list. */
  function Readings(labels: seq<Label>): seq<Option<real>> {
    seq(|labels|, j requires 0 <= j < |labels| => Reading(labels[j]))
  }

  /** Rewriting an entry does not change what the scan reads from it. */
  lemma ReadingsAfterRewrite(labels: seq<Label>, k: nat)
    requires k < |labels| && Rewrite(labels[k]).Some?
    ensures Readings(labels[k := Rewrite(labels[k]).value]) == Readings(labels)
  {
    RewriteIdempotent(labels[k]);
    var l := Rewrite(labels[k]).value;
    assert Reading(l) == Reading(labels[k]);
  }

  /** The largest outcome of the interior bands `k .. |rd| - 2`, each at its reading (0 Hz
      where there is none). */
  function BandsMax(rd: seq<Option<real>>, levels: seq<Float>, k: nat): int
    requires |rd| == |levels| && 1 <= k
    decreases |rd| - k
  {
    if k + 1 >= |rd| then 0
    else
      var f := if rd[k].Some? then rd[k].value else 0.0;
      Max(BandOutcome(f, levels[k], Mean2(levels[k - 1], levels[k + 1])), BandsMax(rd, levels, k + 1))
  }

  /** Some interior band from `k` on lies in the regime with index `i` and calls for an
      adjustment of at least `min`. */
  predicate RegimeHit(rd: seq<Option<real>>, levels: seq<Float>, k: nat, i: nat, min: int)
    requires |rd| == |levels| && 1 <= k
  {
    exists j :: k <= j < |rd| - 1 && HitAt(rd, levels, j, i, min)
  }

  predicate HitAt(rd: seq<Option<real>>, levels: seq<Float>, j: nat, i: nat, min: int)
    requires |rd| == |levels| && 1 <= j < |rd| - 1
  {
    && rd[j].Some?
    && RegimeOf(rd[j].value) != Outside && RegimeIndex(RegimeOf(rd[j].value)) == i
    && BandOutcome(rd[j].value, levels[j], Mean2(levels[j - 1], levels[j + 1])) >= min
  }

  /** One band of a finished scan: the entry has a reading, and the scan goes on from the
      next band with the rewritten list and the stepped state. */
  lemma ScanStep(labels: seq<Label>, levels: seq<Float>, k: nat, st: ScanState)
    requires |labels| == |levels| && 1 <= k && |st.b| == 3 && k + 1 < |labels|
    requires Scan(labels, levels, k, st).Finished?
    ensures Rewrite(labels[k]).Some? && BandHz(Rewrite(labels[k]).value).Some?
    ensures Readings(labels)[k] == BandHz(Rewrite(labels[k]).value)
    ensures var l := Rewrite(labels[k]).value;
      Scan(labels, levels, k, st)
      == Scan(labels[k := l], levels, k + 1, BandStep(st, BandHz(l).value, levels[k], Mean2(levels[k - 1], levels[k + 1])))
  {
  }

  /** A finished scan from band `k` keeps the state consistent, and flags once set stay
      set. */
  lemma {:induction false} ScanConsistent(labels: seq<Label>, levels: seq<Float>, k: nat, st: ScanState)
    requires |labels| == |levels| && 1 <= k && Consistent(st)
    requires Scan(labels, levels, k, st).Finished?
    ensures Consistent(Scan(labels, levels, k, st).st)
    ensures forall i :: 0 <= i < 3 && st.b[i] ==> Scan(labels, levels, k, st).st.b[i]
    decreases |labels| - k
  {
    if k + 1 < |labels| {
      ScanStep(labels, levels, k, st);
      var l := Rewrite(labels[k]).value;
      var f := BandHz(l).value;
      var st' := BandStep(st, f, levels[k], Mean2(levels[k - 1], levels[k + 1]));
      BandStepMax(st, f, levels[k], Mean2(levels[k - 1], levels[k + 1]));
      ScanConsistent(labels[k := l], levels, k + 1, st');
    } else {
      assert Scan(labels, levels, k, st) == Finished(st, labels);
    }
  }

  /** A finished scan from band `k` ends with the larger of the adjustment it started with
      and the largest band outcome. */
  lemma {:induction false} ScanFinished(labels: seq<Label>, levels: seq<Float>, k: nat, st: ScanState)
    requires |labels| == |levels| && 1 <= k && Consistent(st)
    requires Scan(labels, levels, k, st).Finished?
    ensures Scan(labels, levels, k, st).st.adj == Max(st.adj, BandsMax(Readings(labels), levels, k))
    decreases |labels| - k
  {
    if k + 1 < |labels| {
      ScanStep(labels, levels, k, st);
      var l := Rewrite(labels[k]).value;
      var f := BandHz(l).value;
      var ls := Mean2(levels[k - 1], levels[k + 1]);
      var st' := BandStep(st, f, levels[k], ls);
      BandStepMax(st, f, levels[k], ls);
      ScanFinished(labels[k := l], levels, k + 1, st');
      ReadingsAfterRewrite(labels, k);
    } else {
      assert Scan(labels, levels, k, st) == Finished(st, labels);
    }
  }

  /** A finished scan rewrote only the interior entries from `k` on, each to its own
      rewrite. */
  lemma {:induction false} ScanRewrites(labels: seq<Label>, levels: seq<Float>, k: nat, st: ScanState)
    requires |labels| == |levels| && 1 <= k && |st.b| == 3
    requires Scan(labels, levels, k, st).Finished?
    ensures var res := Scan(labels, levels, k, st);
      forall j :: 0 <= j < |labels| ==>
        if k <= j < |labels| - 1 then Rewrite(labels[j]) == Some(res.labels[j]) else res.labels[j] == labels[j]
    decreases |labels| - k
  {
    if k + 1 < |labels| {
      var l := Rewrite(labels[k]).value;
      var labels' := labels[k := l];
      var f := BandHz(l).value;
      var st' := BandStep(st, f, levels[k], Mean2(levels[k - 1], levels[k + 1]));
      ScanRewrites(labels', levels, k + 1, st');
      RewriteIdempotent(labels[k]);
    }
  }

  /** A finished scan from band `k` flags a regime only if one of its bands called for an
      adjustment, and always if one of its bands called for 6 dB. */
  lemma ScanFlags(labels: seq<Label>, levels: seq<Float>, k: nat, st: ScanState)
    requires |labels| == |levels| && 1 <= k && Consistent(st)
    requires Scan(labels, levels, k, st).Finished?
    ensures forall i :: 0 <= i < 3 && Scan(labels, levels, k, st).st.b[i] && !st.b[i] ==>
              RegimeHit(Readings(labels), levels, k, i, 1)
    ensures forall i :: 0 <= i < 3 && RegimeHit(Readings(labels), levels, k, i, 6) ==>
              Scan(labels, levels, k, st).st.b[i]
  {
    ScanFlagsSound(labels, levels, k, st);
    ScanFlagsComplete(labels, levels, k, st);
  }

  /** A regime newly flagged by the scan has a band that called for an adjustment. */
  lemma {:induction false} ScanFlagsSound(labels: seq<Label>, levels: seq<Float>, k: nat, st: ScanState)
    requires |labels| == |levels| && 1 <= k && Consistent(st)
    requires Scan(labels, levels, k, st).Finished?
    ensures forall i :: 0 <= i < 3 && Scan(labels, levels, k, st).st.b[i] && !st.b[i] ==>
              RegimeHit(Readings(labels), levels, k, i, 1)
    decreases |labels| - k
  {
    if k + 1 < |labels| {
      ScanStep(labels, levels, k, st);
      var l := Rewrite(labels[k]).value;
      var labels' := labels[k := l];
      var f := BandHz(l).value;
      var ls := Mean2(levels[k - 1], levels[k + 1]);
      var st' := BandStep(st, f, levels[k], ls);
      BandStepMax(st, f, levels[k], ls);
      ScanFlagsSound(labels', levels, k + 1, st');
      ReadingsAfterRewrite(labels, k);
      var rd := Readings(labels);
      var res := Scan(labels, levels, k, st);
      forall i | 0 <= i < 3 && res.st.b[i] && !st.b[i]
        ensures RegimeHit(rd, levels, k, i, 1)
      {
        if st'.b[i] {
          assert HitAt(rd, levels, k, i, 1);
        } else {
          var j :| k + 1 <= j < |rd| - 1 && HitAt(rd, levels, j, i, 1);
        }
      }
    } else {
      assert Scan(labels, levels, k, st) == Finished(st, labels);
    }
  }

  /** A regime with a band that called for 6 dB is flagged by the scan. */
  lemma ScanFlagsComplete(labels: seq<Label>, levels: seq<Float>, k: nat, st: ScanState)
    requires |labels| == |levels| && 1 <= k && Consistent(st)
    requires Scan(labels, levels, k, st).Finished?
    ensures forall i :: 0 <= i < 3 && RegimeHit(Readings(labels), levels, k, i, 6) ==>
              Scan(labels, levels, k, st).st.b[i]
  {
    forall i | 0 <= i < 3 && RegimeHit(Readings(labels), levels, k, i, 6)
      ensures Scan(labels, levels, k, st).st.b[i]
    {
      RegimeFlagged(labels, levels, k, st, i);
    }
  }

  lemma {:induction false} RegimeFlagged(labels: seq<Label>, levels: seq<Float>, k: nat, st: ScanState, i: nat)
    requires |labels| == |levels| && 1 <= k && Consistent(st) && i < 3
    requires Scan(labels, levels, k, st).Finished?
    requires RegimeHit(Readings(labels), levels, k, i, 6)
    ensures Scan(labels, levels, k, st).st.b[i]
    decreases |labels| - k
  {
    var j :| k <= j < |labels| - 1 && HitAt(Readings(labels), levels, j, i, 6);
    ScanStep(labels, levels, k, st);
    var l := Rewrite(labels[k]).value;
    var f := BandHz(l).value;
    var ls := Mean2(levels[k - 1], levels[k + 1]);
    var st' := BandStep(st, f, levels[k], ls);
    BandStepMax(st, f, levels[k], ls);
    if j == k {
      FlaggedStays(labels[k := l], levels, k + 1, st', i);
    } else {
      ReadingsAfterRewrite(labels, k);
      assert HitAt(Readings(labels[k := l]), levels, j, i, 6);
      RegimeFlagged(labels[k := l], levels, k + 1, st', i);
    }
  }

  /** A flag set before a finished scan is still set after it. */
  lemma FlaggedStays(labels: seq<Label>, levels: seq<Float>, k: nat, st: ScanState, i: nat)
    requires |labels| == |levels| && 1 <= k && Consistent(st) && i < 3 && st.b[i]
    requires Scan(labels, levels, k, st).Finished?
    ensures Scan(labels, levels, k, st).st.b[i]
  {
    ScanConsistent(labels, levels, k, st);
  }

  /** The band label lists the flagged regimes: it is empty exactly when none is flagged,
      holds only regime ranges, and holds regime `i` exactly when its flag is set. */
  lemma FlaggedFacts(b: seq<bool>)
    requires |b| == 3
    ensures |Flagged(b, 3)| == 0 <==> !(b[0] || b[1] || b[2])
    ensures forall p :: p in Flagged(b, 3) ==> p in BandRanges
    ensures forall i :: 0 <= i < 3 ==> (BandRanges[i] in Flagged(b, 3) <==> b[i])
  {
    var p0 := if b[0] then [BandRanges[0]] else [];
    var p1 := if b[1] then [BandRanges[1]] else [];
    var p2 := if b[2] then [BandRanges[2]] else [];
    assert Flagged(b, 0) == [];
    assert Flagged(b, 1) == p0;
    assert Flagged(b, 2) == p0 + p1;
    assert Flagged(b, 3) == p0 + p1 + p2;
    assert BandRanges[0][0] == '<' && BandRanges[1][0] == '>' && BandRanges[2][0] == '>';
    assert BandRanges[1][3] == '1' && BandRanges[2][3] == '5';
  }

  /** A label built from flagged regimes starts with '<' or '>', so it is never "No hay
      ajuste tonal". */
  lemma JoinStartsWith(parts: seq<string>)
    requires |parts| > 0
    requires forall p :: p in parts ==> p in BandRanges
    ensures |Join("; ", parts)| > 0 && Join("; ", parts)[0] in {'<', '>'}
  {
    assert parts[0] in BandRanges;
  }

  /** The adjustment `ajuste_tonal` returns on equal-length input that does not raise is 0,
      3 or 6, and is the largest outcome over the interior bands. */
  lemma TonalAdjustment(labels: seq<Label>, levels: seq<Float>)
    requires |labels| == |levels|
    requires AjusteTonalSpec(labels, levels).0.Returned?
    ensures var out := AjusteTonalSpec(labels, levels).0.adj;
      && out.kt.KtNum?
      && (out.kt.n == 0 || out.kt.n == 3 || out.kt.n == 6)
      && out.kt.n == BandsMax(Readings(labels), levels, 1)
  {
    var r := Scan(labels, levels, 1, ScanStart);
    assert AjusteTonalSpec(labels, levels).0 == Returned(TonalAdj(KtNum(r.st.adj), BandasLabel(r.st.b)));
    ScanFinished(labels, levels, 1, ScanStart);
    ScanConsistent(labels, levels, 1, ScanStart);
  }

  /** The band label is "No hay ajuste tonal" exactly when the adjustment is 0. */
  lemma TonalLabel(labels: seq<Label>, levels: seq<Float>)
    requires |labels| == |levels|
    requires AjusteTonalSpec(labels, levels).0.Returned?
    ensures var out := AjusteTonalSpec(labels, levels).0.adj;
      out.kt.KtNum? && (out.bandas == NoTonal <==> out.kt.n == 0)
  {
    var r := Scan(labels, levels, 1, ScanStart);
    assert AjusteTonalSpec(labels, levels).0 == Returned(TonalAdj(KtNum(r.st.adj), BandasLabel(r.st.b)));
    ScanConsistent(labels, levels, 1, ScanStart);
    var parts := Flagged(r.st.b, 3);
    FlaggedFacts(r.st.b);
    if |parts| > 0 {
      JoinStartsWith(parts);
      assert NoTonal[0] == 'N';
    }
  }

  /** The band label names a regime only if one of its bands called for an adjustment, and
      always names a regime one of whose bands called for 6 dB. */
  lemma TonalRegimes(labels: seq<Label>, levels: seq<Float>, i: nat)
    requires |labels| == |levels| && i < 3
    requires Scan(labels, levels, 1, ScanStart).Finished?
    ensures var parts := Flagged(Scan(labels, levels, 1, ScanStart).st.b, 3);
      && (BandRanges[i] in parts ==> RegimeHit(Readings(labels), levels, 1, i, 1))
      && (RegimeHit(Readings(labels), levels, 1, i, 6) ==> BandRanges[i] in parts)
  {
    ScanFlags(labels, levels, 1, ScanStart);
    FlaggedFacts(Scan(labels, levels, 1, ScanStart).st.b);
  }

  /** On the list: the first and last entries are untouched and each interior entry is
      replaced by its rewrite. */
  lemma TonalRewrites(labels: seq<Label>, levels: seq<Float>)
    requires |labels| == |levels|
    requires AjusteTonalSpec(labels, levels).0.Returned?
    ensures var after := AjusteTonalSpec(labels, levels).1;
      && |after| == |labels|
      && (forall j :: 0 <= j < |labels| ==>
            if 1 <= j < |labels| - 1 then Rewrite(labels[j]) == Some(after[j]) else after[j] == labels[j])
  {
    ScanRewrites(labels, levels, 1, ScanStart);
  }

  /** The scan reads band `j` without raising. */
  predicate Readable(l: Label) {
    Rewrite(l).Some? && BandHz(Rewrite(l).value).Some?
  }

  /** A label the A-weighting accepts is one the scan accepts. */
  lemma TextReadable(s: string)
    requires LabelHz(s).Some?
    ensures Readable(Text(s))
  {
    RewriteKeepsHz(Text(s));
  }

  /** When every interior label from `k` on reads as a frequency, the scan finishes. */
  lemma {:induction false} ScanFinishes(labels: seq<Label>, levels: seq<Float>, k: nat, st: ScanState)
    requires |labels| == |levels| && 1 <= k && |st.b| == 3
    requires forall j :: k <= j < |labels| - 1 ==> Readable(labels[j])
    ensures Scan(labels, levels, k, st).Finished?
    decreases |labels| - k
  {
    if k + 1 < |labels| {
      var l := Rewrite(labels[k]).value;
      var f := BandHz(l).value;
      ScanFinishes(labels[k := l], levels, k + 1, BandStep(st, f, levels[k], Mean2(levels[k - 1], levels[k + 1])));
    }
  }

  /** `b` agrees with `a` up to the rewrite on the interior bands from `k` on, and exactly
      elsewhere. */
  predicate SameRewrites(a: seq<Label>, b: seq<Label>, k: nat) {
    |a| == |b|
    && forall j :: 0 <= j < |a| ==>
         if k <= j < |a| - 1 then Rewrite(a[j]) == Rewrite(b[j]) else a[j] == b[j]
  }

  lemma {:induction false} ScanSameRewrites(a: seq<Label>, b: seq<Label>, levels: seq<Float>, k: nat, st: ScanState)
    requires |a| == |levels| && 1 <= k && |st.b| == 3
    requires SameRewrites(a, b, k)
    requires Scan(a, levels, k, st).Finished?
    ensures Scan(b, levels, k, st) == Scan(a, levels, k, st)
    decreases |a| - k
  {
    if k + 1 < |a| {
      var l := Rewrite(a[k]).value;
      var f := BandHz(l).value;
      var st' := BandStep(st, f, levels[k], Mean2(levels[k - 1], levels[k + 1]));
      assert SameRewrites(a[k := l], b[k := l], k + 1);
      ScanSameRewrites(a[k := l], b[k := l], levels, k + 1, st');
    }
  }

  /** Calling `ajuste_tonal` on a list that an earlier call has already rewritten gives the
      same result as calling it on the original list, and leaves the list agreeing with the
      original up to the rewrite: the two calls per row of the source, which share one list
      across all rows, compute what fresh calls would. */
  lemma TonalOnRewrittenList(base: seq<Label>, cur: seq<Label>, levels: seq<Float>)
    requires |base| == |levels|
    requires forall j :: 1 <= j < |base| - 1 ==> Readable(base[j])
    requires SameRewrites(base, cur, 1)
    ensures AjusteTonalSpec(cur, levels).0 == AjusteTonalSpec(base, levels).0
    ensures AjusteTonalSpec(base, levels).0.Returned? && AjusteTonalSpec(base, levels).0.adj.kt.KtNum?
    ensures SameRewrites(base, AjusteTonalSpec(cur, levels).1, 1)
  {
    ScanFinishes(base, levels, 1, ScanStart);
    ScanSameRewrites(base, cur, levels, 1, ScanStart);
    TonalRewrites(base, levels);
    var after := AjusteTonalSpec(base, levels).1;
    forall j | 1 <= j < |base| - 1
      ensures Rewrite(base[j]) == Rewrite(after[j])
    {
      RewriteIdempotent(base[j]);
    }
  }

  /** Unequal lengths give the "Error" sentinel and leave the list as it was. */
  lemma TonalMismatch(labels: seq<Label>, levels: seq<Float>)
    requires |labels| != |levels|
    ensures AjusteTonalSpec(labels, levels) == (Returned(TonalAdj(KtError, MismatchMessage)), labels)
  {
  }

  // ---------------------------------------------------------------------------
  // Impulsivity and the corrected level

  /** `calcular_ki`: NaN stays NaN; below 3 dB gives 0, from 3 up to 6 gives 3, from 6 on
      gives 6. */
  function CalcularKi(diff: Float): (ki: Float)
    ensures ki.NaN? <==> diff.NaN?
    ensures ki.F? ==> (ki.x == 0.0 <==> diff.x < 3.0)
    ensures ki.F? ==> (ki.x == 3.0 <==> 3.0 <= diff.x < 6.0)
    ensures ki.F? ==> (ki.x == 6.0 <==> 6.0 <= diff.x)
  {
    if diff.NaN? then NaN
    else if diff.x < 3.0 then F(0.0)
    else if diff.x < 6.0 then F(3.0)
    else F(6.0)
  }

  /** KI is monotone in the Impulse-Slow difference. */
  lemma KiMonotone(d1: real, d2: real)
    requires d1 <= d2
    ensures CalcularKi(F(d1)).x <= CalcularKi(F(d2)).x
  {
  }

  /** A corrected level: a number (possibly NaN), or the text '—' when the formula raised. */
  datatype Corrected = Level(v: Float) | Dash

  /** `aplicar_Correccion` (and `Nivel_Eq_diaria`, the same rule on the daily fields):
      `level + max(KI, KT)`. A "Error" KT raises a TypeError inside `max`, which is caught
      and gives '—'. */
  function AplicarCorreccion(level: Float, ki: Float, kt: Kt): (r: Corrected)
    ensures r.Dash? <==> kt.KtError?
    ensures kt.KtNum? && level.F? && ki.F? ==>
              r == Level(F(level.x + Max(ki.x.Floor, kt.n) as real)) || r == Level(F(level.x + ki.x))
    ensures kt.KtNum? && level.F? && ki.F? ==>
              r.v.F? && r.v.x - level.x >= ki.x && r.v.x - level.x >= kt.n as real
              && (r.v.x - level.x == ki.x || r.v.x - level.x == kt.n as real)
    ensures kt.KtMissing? ==> r == Level(Add(level, ki))
    ensures ki.NaN? && !kt.KtError? ==> r == Level(NaN)
  {
    match kt
    case KtError => Dash
    case KtNum(n) => Level(Add(level, PyMax(ki, F(n as real))))
    case KtMissing => Level(Add(level, PyMax(ki, NaN)))
  }

  /** The worse of the two corrections is added, never their sum. */
  lemma CorrectionNotSummed(level: real, ki: real, kt: int)
    requires ki > 0.0 && kt > 0
    ensures AplicarCorreccion(F(level), F(ki), KtNum(kt)) != Level(F(level + ki + kt as real))
  {
  }

  // ---------------------------------------------------------------------------
  // The compliance declaration

  datatype Declaracion = Indefinida | Pasa | PasaCondicional | NoPasaCondicional | NoPasa

  function DeclaracionText(d: Declaracion): string {
    match d
    case Indefinida => "—"
    case Pasa => "Pasa"
    case PasaCondicional => "Pasa condicional"
    case NoPasaCondicional => "No pasa condicional"
    case NoPasa => "No pasa"
  }

  /** `calcular_declaracion` (and `calcular_declaracion_diaria`, the same rule on the daily
      level): by the sign of the margin `w`, compare the level with the adjusted threshold
      `Au`, the limit `Tu` and `Tu + w`. */
  function Declarar(level: Float, tu: Float, au: Float, w: Float): (d: Declaracion)
    ensures d == Indefinida <==> EqF(w, F(0.0))
    ensures d == NoPasaCondicional ==> Lt(F(0.0), w)
    ensures d == Pasa ==> Le(level, au) || Le(level, tu)
    ensures d == NoPasa ==> !Le(level, tu)
  {
    if EqF(w, F(0.0)) then Indefinida
    else if Lt(F(0.0), w) then
      if Le(level, au) then Pasa
      else if Le(level, tu) then PasaCondicional
      else if Le(level, Add(tu, w)) then NoPasaCondicional
      else NoPasa
    else
      if Le(level, tu) then Pasa
      else if Le(level, au) then PasaCondicional
      else NoPasa
  }

  function Rank(d: Declaracion): int {
    match d
    case Indefinida => -1
    case Pasa => 0
    case PasaCondicional => 1
    case NoPasaCondicional => 2
    case NoPasa => 3
  }

  /** With `Au = Tu - w` as the compliance tables compute it, a higher level never gets a
      better declaration. */
  lemma DeclaracionMonotone(l1: real, l2: real, tu: real, w: real)
    requires l1 <= l2 && w != 0.0
    ensures Rank(Declarar(F(l1), F(tu), F(tu - w), F(w))) <= Rank(Declarar(F(l2), F(tu), F(tu - w), F(w)))
  {
  }

  /** With the source's margin `w = -U` and a positive expanded uncertainty `U`, "No pasa
      condicional" is unreachable: the level passes exactly when it is within the limit, and
      passes conditionally exactly when it is within `U` above it. */
  lemma DeclaracionWithUncertainty(level: real, tu: real, u: real)
    requires u > 0.0
    ensures var d := Declarar(F(level), F(tu), F(tu + u), F(-u));
      && d != NoPasaCondicional && d != Indefinida
      && (d == Pasa <==> level <= tu)
      && (d == PasaCondicional <==> tu < level <= tu + u)
      && (d == NoPasa <==> level > tu + u)
  {
  }

  /** A missing level never passes when the margin is non-zero. */
  lemma DeclaracionNaN(tu: Float, au: Float, w: Float)
    requires !EqF(w, F(0.0))
    ensures Declarar(NaN, tu, au, w) == NoPasa
  {
  }
}
