/** Python's `sorted(xs, key=...)` and `list.sort(key=...)`: a stable sort by a key order.
    The order is given as `le(a, b)` ("key(a) <= key(b)"), a total preorder; elements whose
    keys are equal keep their relative order. */
module Sorting {

  ghost predicate TotalPreorder<T(!new)>(le: (T, T) -> bool) {
    && (forall a, b :: le(a, b) || le(b, a))
    && (forall a, b, c :: le(a, b) && le(b, c) ==> le(a, c))
  }

  predicate Sorted<T>(s: seq<T>, le: (T, T) -> bool) {
    forall i, j :: 0 <= i < j < |s| ==> le(s[i], s[j])
  }

  /** Inserts `x` in front of the first element whose key is not smaller than its own. */
  function Insert<T>(x: T, s: seq<T>, le: (T, T) -> bool): (r: seq<T>)
    ensures multiset(r) == multiset(s) + multiset{x}
  {
    if |s| == 0 then [x]
    else if le(x, s[0]) then [x] + s
    else
      assert s == [s[0]] + s[1..];
      [s[0]] + Insert(x, s[1..], le)
  }

  /** Insertion sort: the first element is inserted into the sorted rest. */
  function Sort<T>(s: seq<T>, le: (T, T) -> bool): (r: seq<T>)
    ensures multiset(r) == multiset(s)
  {
    if |s| == 0 then []
    else
      assert s == [s[0]] + s[1..];
      Insert(s[0], Sort(s[1..], le), le)
  }

  lemma {:induction false} InsertSorted<T(!new)>(x: T, s: seq<T>, le: (T, T) -> bool)
    requires TotalPreorder(le)
    requires Sorted(s, le)
    ensures Sorted(Insert(x, s, le), le)
  {
    if |s| > 0 && !le(x, s[0]) {
      InsertSorted(x, s[1..], le);
      var r := Insert(x, s[1..], le);
      forall e | e in r ensures le(s[0], e) {
        assert e in multiset(r);
        if e != x {
          assert e in s[1..];
        }
      }
    }
  }

  /** The result of `Sort` is ordered by the key. */
  lemma {:induction false} SortSorted<T(!new)>(s: seq<T>, le: (T, T) -> bool)
    requires TotalPreorder(le)
    ensures Sorted(Sort(s, le), le)
  {
    if |s| > 0 {
      SortSorted(s[1..], le);
      InsertSorted(s[0], Sort(s[1..], le), le);
    }
  }

  predicate Equivalent<T>(a: T, b: T, le: (T, T) -> bool) { le(a, b) && le(b, a) }

  /** The elements of `s` whose key equals the key of `y`, in their order in `s`. */
  function Ties<T>(s: seq<T>, y: T, le: (T, T) -> bool): seq<T> {
    if |s| == 0 then []
    else (if Equivalent(s[0], y, le) then [s[0]] else []) + Ties(s[1..], y, le)
  }

  /** Two elements in strictly different key classes cannot both tie with a third. */
  lemma NotBothTied<T(!new)>(x: T, z: T, y: T, le: (T, T) -> bool)
    requires TotalPreorder(le)
    requires !le(x, z)
    ensures !(Equivalent(x, y, le) && Equivalent(z, y, le))
  {
  }

  lemma {:induction false} TiesOfInsert<T(!new)>(x: T, s: seq<T>, y: T, le: (T, T) -> bool)
    requires TotalPreorder(le)
    requires Sorted(s, le)
    ensures Ties(Insert(x, s, le), y, le)
            == (if Equivalent(x, y, le) then [x] else []) + Ties(s, y, le)
  {
    if |s| == 0 {
    } else if le(x, s[0]) {
      assert Insert(x, s, le) == [x] + s;
      assert ([x] + s)[1..] == s;
    } else {
      var rest := Insert(x, s[1..], le);
      var r := [s[0]] + rest;
      assert Insert(x, s, le) == r;
      assert r[1..] == rest;
      assert s[1..] == s[1..];
      assert Sorted(s[1..], le);
      TiesOfInsert(x, s[1..], y, le);
      NotBothTied(x, s[0], y, le);
      var head := if Equivalent(s[0], y, le) then [s[0]] else [];
      var mine := if Equivalent(x, y, le) then [x] else [];
      calc {
        Ties(r, y, le);
        head + Ties(rest, y, le);
        head + (mine + Ties(s[1..], y, le));
        { assert head == [] || mine == []; }
        mine + (head + Ties(s[1..], y, le));
        mine + Ties(s, y, le);
      }
    }
  }

  /** `Sort` is stable: elements with equal keys appear in their original order. */
  lemma {:induction false} SortStable<T(!new)>(s: seq<T>, y: T, le: (T, T) -> bool)
    requires TotalPreorder(le)
    ensures Ties(Sort(s, le), y, le) == Ties(s, y, le)
  {
    if |s| > 0 {
      SortStable(s[1..], y, le);
      SortSorted(s[1..], le);
      TiesOfInsert(s[0], Sort(s[1..], le), y, le);
    }
  }
}
