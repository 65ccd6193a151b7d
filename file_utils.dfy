/** Workbook helpers: whether a cell lies in a merged range, and the plan by which the
    per-point workbooks of a folder are combined into one workbook whose sheets alternate
    PTO<n> and MET<n>. A file is identified by its name; folder listing, copying and deleting
    are not modelled. */
module FileUtils {
  import opened Values
  import opened Sorting

  // ---------------------------------------------------------------------------
  // is_merged_cell

  /** A merged range, by its first and last row and column (1-based, inclusive). */
  datatype MergedRange = MergedRange(minRow: int, maxRow: int, minCol: int, maxCol: int)

  predicate InRange(m: MergedRange, row: int, col: int) {
    m.minRow <= row <= m.maxRow && m.minCol <= col <= m.maxCol
  }

  /** The largest column number `get_column_letter` accepts, "ZZZ"; it raises beyond it. */
  const MaxColumn: int := 18278

  /** `is_merged_cell`: the ranges are tried in order and the first one holding the cell
      answers true. */
  method IsMergedCell(ranges: seq<MergedRange>, row: int, col: int) returns (merged: bool)
    requires row >= 1 && 1 <= col <= MaxColumn
    ensures merged <==> exists i :: 0 <= i < |ranges| && InRange(ranges[i], row, col)
  {
    for i := 0 to |ranges|
      invariant forall j :: 0 <= j < i ==> !InRange(ranges[j], row, col)
    {
      if InRange(ranges[i], row, col) {
        return true;
      }
    }
    return false;
  }

  // ---------------------------------------------------------------------------
  // Classifying the files of the folder

  /** Line 56: only workbooks, and not the lock files that the spreadsheet program leaves. */
  predicate Eligible(name: string) {
    EndsWith(name, ".xlsx") && !StartsWith(name, "~$")
  }

  /** The end of the run of digits that starts at `i`. */
  function RunEnd(s: string, i: nat): (j: nat)
    requires i <= |s|
    ensures i <= j <= |s|
    ensures forall k :: i <= k < j ==> IsDigit(s[k])
    ensures j == |s| || !IsDigit(s[j])
    decreases |s| - i
  {
    if i < |s| && IsDigit(s[i]) then RunEnd(s, i + 1) else i
  }

  /** The first digit at or after `i`, or `|s|`. */
  function FirstDigit(s: string, i: nat): (k: nat)
    requires i <= |s|
    ensures i <= k <= |s|
    ensures k < |s| ==> IsDigit(s[k])
    ensures forall j :: i <= j < k ==> !IsDigit(s[j])
    decreases |s| - i
  {
    if i == |s| || IsDigit(s[i]) then i else FirstDigit(s, i + 1)
  }

  /** `re.search(r'\d+', name).group()`: the first maximal run of digits, as a string. */
  function GroupKey(name: string): (r: Option<string>)
    ensures r.None? <==> forall j :: 0 <= j < |name| ==> !IsDigit(name[j])
    ensures r.Some? ==> |r.value| > 0 && AllDigits(r.value)
    ensures r.Some? ==> exists a, b :: 0 <= a < b <= |name| && r.value == name[a..b]
                                       && (forall j :: 0 <= j < a ==> !IsDigit(name[j]))
                                       && (b == |name| || !IsDigit(name[b]))
  {
    var a := FirstDigit(name, 0);
    if a == |name| then None
    else
      var b := RunEnd(name, a);
      Some(name[a..b])
  }

  /** Line 65: the file's type. */
  function Kind(name: string): (k: string)
    ensures k == "PTO" || k == "MET"
    ensures k == "PTO" <==> Contains(name, "PTO")
  {
    if Contains(name, "PTO") then "PTO" else "MET"
  }

  /** The PTO and MET files of a group. */
  datatype Slots = Slots(pto: Option<string>, met: Option<string>)

  datatype Entry = Entry(key: string, slots: Slots)

  function SetSlot(s: Slots, kind: string, file: string): Slots {
    if kind == "PTO" then s.(pto := Some(file)) else s.(met := Some(file))
  }

  function EntryKeys(d: seq<Entry>): (ks: seq<string>)
    ensures |ks| == |d| && forall i :: 0 <= i < |d| ==> ks[i] == d[i].key
  {
    seq(|d|, i requires 0 <= i < |d| => d[i].key)
  }

  predicate DistinctEntries(d: seq<Entry>) {
    forall i, j :: 0 <= i < j < |d| ==> d[i].key != d[j].key
  }

  function EntryIndex(d: seq<Entry>, k: string): (i: nat)
    ensures i <= |d| && (i < |d| ==> d[i].key == k)
    ensures forall j :: 0 <= j < i ==> d[j].key != k
  {
    if |d| == 0 || d[0].key == k then 0 else 1 + EntryIndex(d[1..], k)
  }

  /** Lines 68-70 on the insertion-ordered dict: a new group is added last with both slots
      empty, then the file goes into the slot of its type, replacing what was there. */
  function Record(d: seq<Entry>, key: string, kind: string, file: string): seq<Entry> {
    var i := EntryIndex(d, key);
    if i < |d| then d[i := Entry(key, SetSlot(d[i].slots, kind, file))]
    else d + [Entry(key, SetSlot(Slots(None, None), kind, file))]
  }

  /** One pass of the loop of lines 55-70. */
  function Classify(d: seq<Entry>, name: string): seq<Entry> {
    if !Eligible(name) then d
    else match GroupKey(name)
      case None => d
      case Some(key) => Record(d, key, Kind(name), name)
  }

  function ClassifyAll(names: seq<string>): seq<Entry>
    decreases |names|
  {
    if |names| == 0 then [] else Classify(ClassifyAll(names[..|names| - 1]), names[|names| - 1])
  }

  /** The last eligible file of the listing with this group key and type. */
  function LastOf(names: seq<string>, key: string, kind: string): Option<string>
    decreases |names|
  {
    if |names| == 0 then None
    else
      var n := names[|names| - 1];
      if Eligible(n) && GroupKey(n) == Some(key) && Kind(n) == kind then Some(n)
      else LastOf(names[..|names| - 1], key, kind)
  }

  predicate Listed(names: seq<string>, key: string) {
    exists i :: 0 <= i < |names| && Eligible(names[i]) && GroupKey(names[i]) == Some(key)
  }

  /** The slots of group `k` in the dict, if it has that group. */
  function Lookup(d: seq<Entry>, k: string): (r: Option<Slots>)
    ensures r.Some? <==> k in EntryKeys(d)
  {
    var i := EntryIndex(d, k);
    if i < |d| then Some(d[i].slots) else None
  }

  /** Recording a file changes the slots of its own group only. */
  lemma RecordLookup(d: seq<Entry>, key: string, kind: string, file: string, k: string)
    ensures Lookup(Record(d, key, kind, file), k) ==
              if k == key then Some(SetSlot(if Lookup(d, key).Some? then Lookup(d, key).value else Slots(None, None), kind, file))
              else Lookup(d, k)
  {
    var i := EntryIndex(d, key);
    var r := Record(d, key, kind, file);
    var j := EntryIndex(r, k);
    if i < |d| {
      assert EntryKeys(r) == EntryKeys(d);
      var jd := EntryIndex(d, k);
      assert forall m :: 0 <= m < |d| ==> r[m].key == d[m].key;
      assert j == jd by {
        assert forall m :: 0 <= m < j ==> d[m].key != k;
        assert forall m :: 0 <= m < jd ==> r[m].key != k;
      }
    } else {
      assert forall m :: 0 <= m < |d| ==> r[m] == d[m];
      var jd := EntryIndex(d, k);
      if jd < |d| {
        assert j == jd by {
          assert forall m :: 0 <= m < jd ==> r[m].key != k;
        }
      } else if k == key {
        assert r[|d|].key == k;
        assert forall m :: 0 <= m < |d| ==> r[m].key != k;
        assert j == |d|;
      } else {
        assert j == |r|;
      }
    }
  }

  /** A slot is only filled by a listed file. */
  lemma {:induction false} LastOfListed(names: seq<string>, key: string, kind: string)
    ensures LastOf(names, key, kind).Some? ==> Listed(names, key)
    decreases |names|
  {
    if |names| > 0 {
      var init := names[..|names| - 1];
      LastOfListed(init, key, kind);
      if LastOf(init, key, kind).Some? && LastOf(names, key, kind) == LastOf(init, key, kind) {
        var i :| 0 <= i < |init| && Eligible(init[i]) && GroupKey(init[i]) == Some(key);
        assert names[i] == init[i];
      }
    }
  }

  lemma ListedStep(names: seq<string>, k: string)
    requires |names| > 0
    ensures var n := names[|names| - 1];
      Listed(names, k) <==> Listed(names[..|names| - 1], k) || (Eligible(n) && GroupKey(n) == Some(k))
  {
    ListedGrows(names, k);
    ListedShrinks(names, k);
  }

  lemma ListedGrows(names: seq<string>, k: string)
    requires |names| > 0
    ensures var n := names[|names| - 1];
      Listed(names[..|names| - 1], k) || (Eligible(n) && GroupKey(n) == Some(k)) ==> Listed(names, k)
  {
    var init := names[..|names| - 1];
    if Listed(init, k) {
      var i :| 0 <= i < |init| && Eligible(init[i]) && GroupKey(init[i]) == Some(k);
      assert names[i] == init[i];
    }
  }

  lemma ListedShrinks(names: seq<string>, k: string)
    requires |names| > 0
    ensures var n := names[|names| - 1];
      Listed(names, k) && !(Eligible(n) && GroupKey(n) == Some(k)) ==> Listed(names[..|names| - 1], k)
  {
    var init := names[..|names| - 1];
    var n := names[|names| - 1];
    if Listed(names, k) && !(Eligible(n) && GroupKey(n) == Some(k)) {
      var i :| 0 <= i < |names| && Eligible(names[i]) && GroupKey(names[i]) == Some(k);
      assert names[i] == init[i];
    }
  }

  /** The dict after the loop: a group is present exactly when an eligible file carries its
      key, and then each slot holds the last such file of that type. */
  lemma {:induction false} ClassifyLookup(names: seq<string>, k: string)
    ensures Lookup(ClassifyAll(names), k) ==
              if Listed(names, k) then Some(Slots(LastOf(names, k, "PTO"), LastOf(names, k, "MET"))) else None
    decreases |names|
  {
    if |names| > 0 {
      ClassifyLookup(names[..|names| - 1], k);
      ListedStep(names, k);
      var n := names[|names| - 1];
      if Eligible(n) && GroupKey(n) == Some(k) {
        LookupOwnGroup(names, k);
      } else {
        LookupOtherGroup(names, k);
      }
    }
  }

  /** The last file carries the group key looked up: its slot now holds that file. */
  lemma LookupOwnGroup(names: seq<string>, k: string)
    requires |names| > 0
    requires var init := names[..|names| - 1];
      Lookup(ClassifyAll(init), k) ==
        if Listed(init, k) then Some(Slots(LastOf(init, k, "PTO"), LastOf(init, k, "MET"))) else None
    requires var n := names[|names| - 1]; Eligible(n) && GroupKey(n) == Some(k)
    ensures Lookup(ClassifyAll(names), k) == Some(Slots(LastOf(names, k, "PTO"), LastOf(names, k, "MET")))
  {
    var init := names[..|names| - 1];
    var n := names[|names| - 1];
    RecordLookup(ClassifyAll(init), k, Kind(n), n, k);
    LastOfListed(init, k, "PTO");
    LastOfListed(init, k, "MET");
  }

  /** The last file does not carry the group key looked up: that group is unchanged. */
  lemma LookupOtherGroup(names: seq<string>, k: string)
    requires |names| > 0
    requires var init := names[..|names| - 1];
      Lookup(ClassifyAll(init), k) ==
        if Listed(init, k) then Some(Slots(LastOf(init, k, "PTO"), LastOf(init, k, "MET"))) else None
    requires var n := names[|names| - 1]; !(Eligible(n) && GroupKey(n) == Some(k))
    requires Listed(names, k) <==> Listed(names[..|names| - 1], k)
    ensures Lookup(ClassifyAll(names), k) ==
              if Listed(names, k) then Some(Slots(LastOf(names, k, "PTO"), LastOf(names, k, "MET"))) else None
  {
    var init := names[..|names| - 1];
    var n := names[|names| - 1];
    if Eligible(n) && GroupKey(n).Some? {
      RecordLookup(ClassifyAll(init), GroupKey(n).value, Kind(n), n, k);
    }
  }

  /** The dict has one entry per key, and every key is a run of digits. */
  lemma {:induction false} ClassifyDistinct(names: seq<string>)
    ensures DistinctEntries(ClassifyAll(names))
    ensures forall e :: e in ClassifyAll(names) ==> |e.key| > 0 && AllDigits(e.key)
    decreases |names|
  {
    if |names| > 0 {
      var init := names[..|names| - 1];
      var n := names[|names| - 1];
      ClassifyDistinct(init);
      if Eligible(n) && GroupKey(n).Some? {
        RecordDistinct(ClassifyAll(init), GroupKey(n).value, Kind(n), n);
      }
    }
  }

  /** Recording a file keeps one entry per key, and adds no key but its own. */
  lemma RecordDistinct(d: seq<Entry>, key: string, kind: string, file: string)
    requires DistinctEntries(d)
    ensures DistinctEntries(Record(d, key, kind, file))
    ensures forall e :: e in Record(d, key, kind, file) ==> e.key == key || exists e' :: e' in d && e'.key == e.key
  {
    var r := Record(d, key, kind, file);
    var i := EntryIndex(d, key);
    if i < |d| {
      assert forall m :: 0 <= m < |d| ==> r[m].key == d[m].key;
      forall e | e in r ensures e.key == key || exists e' :: e' in d && e'.key == e.key {
        var m :| 0 <= m < |r| && r[m] == e;
        assert d[m] in d;
      }
    } else {
      forall e | e in r ensures e.key == key || exists e' :: e' in d && e'.key == e.key {
        var m :| 0 <= m < |r| && r[m] == e;
        if m < |d| { assert d[m] in d; }
      }
    }
  }

  /** Line 70 with two files of one group and type: the later one wins. */
  lemma LaterReplaces(a: string, b: string)
    requires Eligible(a) && Eligible(b) && GroupKey(a).Some? && GroupKey(a) == GroupKey(b) && Kind(a) == Kind(b)
    ensures var s := Lookup(ClassifyAll([a, b]), GroupKey(a).value);
      s.Some? && (if Kind(a) == "PTO" then s.value.pto == Some(b) else s.value.met == Some(b))
  {
    var names := [a, b];
    var k := GroupKey(a).value;
    ClassifyLookup(names, k);
    assert Listed(names, k) by { assert names[1] == b; }
  }

  // ---------------------------------------------------------------------------
  // Emitting the sheets

  /** `int(numero_grupo)`. */
  function Number(e: Entry): nat { KeyNumber(e.key) }

  function KeyNumber(k: string): nat {
    if AllDigits(k) then DigitsValue(k) else 0
  }

  function ByNumber(a: Entry, b: Entry): bool { Number(a) <= Number(b) }

  lemma ByNumberPreorder()
    ensures TotalPreorder(ByNumber)
  {
  }

  /** A sheet of the combined workbook: its title, the file it is copied from, and the group
      and type it stands for. */
  datatype SheetPlan = SheetPlan(title: string, file: string, key: string, kind: string)

  /** Lines 74-77 for one group: its PTO sheet, then its MET sheet, each only when the slot
      holds a file. */
  function GroupSheets(e: Entry): (r: seq<SheetPlan>)
    ensures |r| <= 2
    ensures forall s :: s in r ==> s.key == e.key && s.title == s.kind + e.key
    ensures forall s :: s in r ==> (s.kind == "PTO" && e.slots.pto == Some(s.file)) || (s.kind == "MET" && e.slots.met == Some(s.file))
    ensures |r| == 2 ==> r[0].kind == "PTO" && r[1].kind == "MET"
  {
    (if e.slots.pto.Some? then [SheetPlan("PTO" + e.key, e.slots.pto.value, e.key, "PTO")] else [])
    + (if e.slots.met.Some? then [SheetPlan("MET" + e.key, e.slots.met.value, e.key, "MET")] else [])
  }

  function Emit(gs: seq<Entry>): seq<SheetPlan>
    decreases |gs|
  {
    if |gs| == 0 then [] else GroupSheets(gs[0]) + Emit(gs[1..])
  }

  /** The sheets of the combined workbook, in order. */
  function CombinePlanSpec(names: seq<string>): seq<SheetPlan> {
    Emit(Sort(ClassifyAll(names), ByNumber))
  }

  /** The classification and ordering of `combine_excel_files`: the loop over the folder
      listing fills the dict, which is then walked by group number, PTO before MET. */
  method CombinePlan(names: seq<string>) returns (plan: seq<SheetPlan>)
    ensures plan == CombinePlanSpec(names)
  {
    var groups: seq<Entry> := [];
    for k := 0 to |names|
      invariant groups == ClassifyAll(names[..k])
    {
      assert names[..k + 1][..k] == names[..k];
      var name := names[k];
      if Eligible(name) {
        var key := GroupKey(name);
        if key.Some? {
          groups := Record(groups, key.value, Kind(name), name);
        }
      }
    }
    assert names[..|names|] == names;
    var sorted := Sort(groups, ByNumber);
    plan := [];
    var k := |sorted|;
    while k > 0
      invariant 0 <= k <= |sorted|
      invariant plan == Emit(sorted[k..])
    {
      k := k - 1;
      assert sorted[k..] == [sorted[k]] + sorted[k + 1..];
      plan := GroupSheets(sorted[k]) + plan;
    }
  }

  /** Every emitted sheet comes from one of the groups. */
  lemma {:induction false} EmitMembers(gs: seq<Entry>)
    ensures forall s :: s in Emit(gs) ==> exists i :: 0 <= i < |gs| && s in GroupSheets(gs[i])
    decreases |gs|
  {
    if |gs| > 0 {
      EmitMembers(gs[1..]);
      forall s | s in Emit(gs) ensures exists i :: 0 <= i < |gs| && s in GroupSheets(gs[i]) {
        if s !in GroupSheets(gs[0]) {
          assert s in Emit(gs[1..]);
          var i :| 0 <= i < |gs[1..]| && s in GroupSheets(gs[1..][i]);
          assert s in GroupSheets(gs[i + 1]);
        }
      }
    }
  }

  predicate AscendingSheets(p: seq<SheetPlan>) {
    forall i, j :: 0 <= i < j < |p| ==> KeyNumber(p[i].key) <= KeyNumber(p[j].key)
  }

  lemma AscendingConcat(h: seq<SheetPlan>, t: seq<SheetPlan>, n: nat)
    requires forall s :: s in h ==> KeyNumber(s.key) == n
    requires forall s :: s in t ==> n <= KeyNumber(s.key)
    requires AscendingSheets(t)
    ensures AscendingSheets(h + t)
  {
    var p := h + t;
    forall i, j | 0 <= i < j < |p| ensures KeyNumber(p[i].key) <= KeyNumber(p[j].key) {
      if j < |h| {
        assert p[i] == h[i] && p[j] == h[j];
        assert h[i] in h && h[j] in h;
      } else if i < |h| {
        assert p[i] == h[i] && p[j] == t[j - |h|];
        assert h[i] in h && t[j - |h|] in t;
      } else {
        assert p[i] == t[i - |h|] && p[j] == t[j - |h|];
      }
    }
  }

  /** The sheets come by ascending group number. */
  lemma {:induction false} EmitAscending(gs: seq<Entry>)
    requires forall i, j :: 0 <= i < j < |gs| ==> Number(gs[i]) <= Number(gs[j])
    ensures AscendingSheets(Emit(gs))
    decreases |gs|
  {
    if |gs| > 0 {
      var rest := gs[1..];
      EmitAscending(rest);
      EmitMembers(rest);
      forall s | s in Emit(rest) ensures Number(gs[0]) <= KeyNumber(s.key) {
        var i :| 0 <= i < |rest| && s in GroupSheets(rest[i]);
        assert rest[i] == gs[i + 1];
      }
      AscendingConcat(GroupSheets(gs[0]), Emit(rest), Number(gs[0]));
    }
  }

  predicate SeparateSheets(p: seq<SheetPlan>) {
    && (forall i, j :: 0 <= i < j < |p| && p[i].key == p[j].key ==> p[i].kind == "PTO" && p[j].kind == "MET")
    && (forall i, j :: 0 <= i < j < |p| ==> p[i].title != p[j].title)
  }

  lemma SeparateConcat(e: Entry, t: seq<SheetPlan>)
    requires forall s :: s in t ==> s.key != e.key && |s.kind| == 3 && s.title == s.kind + s.key
    requires SeparateSheets(t)
    ensures SeparateSheets(GroupSheets(e) + t)
  {
    var h := GroupSheets(e);
    var p := h + t;
    forall i, j | 0 <= i < j < |p|
      ensures p[i].key == p[j].key ==> p[i].kind == "PTO" && p[j].kind == "MET"
      ensures p[i].title != p[j].title
    {
      if j < |h| {
        assert p[i] == h[i] && p[j] == h[j];
        assert |h| == 2 && i == 0 && j == 1;
        assert p[i].title[0] == 'P' && p[j].title[0] == 'M';
      } else if i < |h| {
        assert p[i] == h[i] && p[j] == t[j - |h|];
        assert h[i] in h && t[j - |h|] in t;
        TitleKey(p[i], p[j]);
      } else {
        assert p[i] == t[i - |h|] && p[j] == t[j - |h|];
      }
    }
  }

  /** The sheets of one group are together, PTO first; and with distinct group keys no two
      sheets share a title. */
  lemma {:induction false} EmitDistinct(gs: seq<Entry>)
    requires DistinctEntries(gs)
    ensures SeparateSheets(Emit(gs))
    decreases |gs|
  {
    if |gs| > 0 {
      var rest := gs[1..];
      EmitDistinct(rest);
      EmitMembers(rest);
      forall s | s in Emit(rest) ensures s.key != gs[0].key && |s.kind| == 3 && s.title == s.kind + s.key {
        var i :| 0 <= i < |rest| && s in GroupSheets(rest[i]);
        assert rest[i] == gs[i + 1];
      }
      SeparateConcat(gs[0], Emit(rest));
    }
  }

  /** A title is its type (three letters) followed by its key, so it determines the key. */
  lemma TitleKey(a: SheetPlan, b: SheetPlan)
    requires |a.kind| == 3 && |b.kind| == 3 && a.title == a.kind + a.key && b.title == b.kind + b.key
    requires a.key != b.key
    ensures a.title != b.title
  {
    assert a.title[3..] == a.key && b.title[3..] == b.key;
  }

  /** An entry whose key is new can go in front of entries with distinct keys. */
  lemma ConsDistinct(y: Entry, t: seq<Entry>)
    requires DistinctEntries(t) && forall e :: e in t ==> e.key != y.key
    ensures DistinctEntries([y] + t)
  {
    var r := [y] + t;
    forall i, j | 0 <= i < j < |r| ensures r[i].key != r[j].key {
      assert r[j] == t[j - 1];
      if i == 0 {
        assert t[j - 1] in t;
      } else {
        assert r[i] == t[i - 1];
      }
    }
  }

  /** Inserting an entry whose key is new keeps the keys distinct. */
  lemma {:induction false} InsertDistinct(x: Entry, s: seq<Entry>)
    requires DistinctEntries(s) && forall e :: e in s ==> e.key != x.key
    ensures DistinctEntries(Insert(x, s, ByNumber))
    decreases |s|
  {
    if |s| > 0 && !ByNumber(x, s[0]) {
      var tail := s[1..];
      assert forall i :: 0 <= i < |tail| ==> tail[i] == s[i + 1];
      assert forall e :: e in tail ==> e in s;
      InsertDistinct(x, tail);
      var rest := Insert(x, tail, ByNumber);
      forall e | e in rest ensures e.key != s[0].key {
        assert e in multiset(rest);
        if e != x {
          assert e in multiset(tail);
          var k :| 0 <= k < |tail| && tail[k] == e;
          assert s[k + 1] == e;
        }
      }
      ConsDistinct(s[0], rest);
    } else if |s| > 0 {
      ConsDistinct(x, s);
    }
  }

  /** Sorting keeps the keys distinct. */
  lemma {:induction false} SortDistinct(d: seq<Entry>)
    requires DistinctEntries(d)
    ensures DistinctEntries(Sort(d, ByNumber))
    decreases |d|
  {
    if |d| > 0 {
      SortDistinct(d[1..]);
      var r := Sort(d[1..], ByNumber);
      forall e | e in r ensures e.key != d[0].key {
        assert e in multiset(r);
        assert e in d[1..];
        var k :| 0 <= k < |d[1..]| && d[1..][k] == e;
        assert d[k + 1] == e;
      }
      InsertDistinct(d[0], r);
    }
  }

  lemma DistinctIndex(d: seq<Entry>, m: nat, k: nat)
    requires DistinctEntries(d) && m < |d| && k < |d| && d[m].key == d[k].key
    ensures m == k
  {
  }

  /** The combined workbook: sheets by ascending group number, PTO before MET within a
      group, pairwise distinct titles "PTO<key>" / "MET<key>", and each sheet copied from the
      last listed file of its group and type. */
  lemma CombinePlanFacts(names: seq<string>)
    ensures var p := CombinePlanSpec(names);
      && (forall i, j :: 0 <= i < j < |p| ==> KeyNumber(p[i].key) <= KeyNumber(p[j].key))
      && (forall i, j :: 0 <= i < j < |p| && p[i].key == p[j].key ==> p[i].kind == "PTO" && p[j].kind == "MET")
      && (forall i, j :: 0 <= i < j < |p| ==> p[i].title != p[j].title)
  {
    var d := ClassifyAll(names);
    ClassifyDistinct(names);
    ByNumberPreorder();
    var sorted := Sort(d, ByNumber);
    SortSorted(d, ByNumber);
    SortDistinct(d);
    assert forall i, j :: 0 <= i < j < |sorted| ==> ByNumber(sorted[i], sorted[j]);
    EmitAscending(sorted);
    EmitDistinct(sorted);
  }

  /** Each sheet of the combined workbook is copied from the last listed file of its group
      and type, and is titled by that type and group key. */
  lemma CombinePlanSources(names: seq<string>)
    ensures forall s :: s in CombinePlanSpec(names) ==>
              s.title == s.kind + s.key && LastOf(names, s.key, s.kind) == Some(s.file)
  {
    var d := ClassifyAll(names);
    ClassifyDistinct(names);
    var sorted := Sort(d, ByNumber);
    EmitMembers(sorted);
    forall s | s in Emit(sorted) ensures s.title == s.kind + s.key && LastOf(names, s.key, s.kind) == Some(s.file) {
      var i :| 0 <= i < |sorted| && s in GroupSheets(sorted[i]);
      var e := sorted[i];
      assert e in multiset(d);
      var k :| 0 <= k < |d| && d[k] == e;
      DistinctIndex(d, EntryIndex(d, e.key), k);
      ClassifyLookup(names, e.key);
    }
  }
}
