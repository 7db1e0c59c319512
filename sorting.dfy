/**
 * A stable sort by a "may come first" relation. Both clients rank with
 * JavaScript's `Array.prototype.sort`, which is stable, and the backend
 * orders rows with the ORM's `order_by`; both are modelled by `Sort`, an
 * insertion sort that keeps equivalent elements in their input order.
 */
module Sorting {

  /** `le(a, b)`: a may be placed before b. */
  ghost predicate Total<T(!new)>(le: (T, T) -> bool) {
    forall a, b :: le(a, b) || le(b, a)
  }

  ghost predicate Transitive<T(!new)>(le: (T, T) -> bool) {
    forall a, b, c :: le(a, b) && le(b, c) ==> le(a, c)
  }

  ghost predicate Sorted<T>(s: seq<T>, le: (T, T) -> bool) {
    forall i, j :: 0 <= i < j < |s| ==> le(s[i], s[j])
  }

  /** Places x before the first element it may precede. */
  function Insert<T>(x: T, s: seq<T>, le: (T, T) -> bool): (r: seq<T>)
    ensures multiset(r) == multiset(s) + multiset{x}
    ensures |r| == |s| + 1
  {
    if s == [] || le(x, s[0]) then [x] + s
    else
      var rest := Insert(x, s[1..], le);
      assert s == [s[0]] + s[1..];
      [s[0]] + rest
  }

  function Sort<T>(s: seq<T>, le: (T, T) -> bool): (r: seq<T>)
    ensures multiset(r) == multiset(s)
    ensures |r| == |s|
  {
    if s == [] then []
    else
      assert s == [s[0]] + s[1..];
      Insert(s[0], Sort(s[1..], le), le)
  }

  lemma {:induction false} InsertSorted<T(!new)>(x: T, s: seq<T>, le: (T, T) -> bool)
    requires Total(le) && Transitive(le)
    requires Sorted(s, le)
    ensures Sorted(Insert(x, s, le), le)
  {
    if s == [] || le(x, s[0]) {
    } else {
      var rest := Insert(x, s[1..], le);
      InsertSorted(x, s[1..], le);
      forall k | 0 <= k < |rest| ensures le(s[0], rest[k]) {
        assert rest[k] in multiset(rest);
        if rest[k] == x {
        } else {
          assert rest[k] in multiset(s[1..]);
          var j :| 0 <= j < |s[1..]| && s[1..][j] == rest[k];
          assert s[j + 1] == rest[k];
        }
      }
      var r := [s[0]] + rest;
      forall i, j | 0 <= i < j < |r| ensures le(r[i], r[j]) {
        if i == 0 {
          assert r[j] == rest[j - 1];
        } else {
          assert r[i] == rest[i - 1] && r[j] == rest[j - 1];
        }
      }
    }
  }

  lemma {:induction false} SortSorted<T(!new)>(s: seq<T>, le: (T, T) -> bool)
    requires Total(le) && Transitive(le)
    ensures Sorted(Sort(s, le), le)
  {
    if s != [] {
      SortSorted(s[1..], le);
      InsertSorted(s[0], Sort(s[1..], le), le);
    }
  }

  /** The elements of s equivalent to y, in their order in s. */
  function Equivalents<T>(s: seq<T>, y: T, le: (T, T) -> bool): (r: seq<T>)
    ensures |r| <= |s|
  {
    if s == [] then []
    else (if le(s[0], y) && le(y, s[0]) then [s[0]] else []) + Equivalents(s[1..], y, le)
  }

  lemma {:induction false} InsertEquivalents<T(!new)>(x: T, s: seq<T>, y: T, le: (T, T) -> bool)
    requires Transitive(le)
    ensures Equivalents(Insert(x, s, le), y, le)
         == (if le(x, y) && le(y, x) then [x] else []) + Equivalents(s, y, le)
  {
    if s == [] || le(x, s[0]) {
      assert ([x] + s)[1..] == s;
    } else {
      var rest := Insert(x, s[1..], le);
      assert ([s[0]] + rest)[1..] == rest;
      InsertEquivalents(x, s[1..], y, le);
      // x could not be placed before s[0], so s[0] and x are not both equivalent to y
      var h := s[0];
      if le(x, y) {
        assert le(y, h) ==> le(x, h);
      }
      var ex := if le(x, y) && le(y, x) then [x] else [];
      var e0 := if le(h, y) && le(y, h) then [h] else [];
      assert ex == [] || e0 == [];
      assert Equivalents([s[0]] + rest, y, le) == e0 + Equivalents(rest, y, le);
      assert Equivalents(s, y, le) == e0 + Equivalents(s[1..], y, le);
    }
  }

  /** Stability: for every y, the elements equivalent to y keep their input order. */
  lemma {:induction false} SortStable<T(!new)>(s: seq<T>, y: T, le: (T, T) -> bool)
    requires Transitive(le)
    ensures Equivalents(Sort(s, le), y, le) == Equivalents(s, y, le)
  {
    if s != [] {
      SortStable(s[1..], y, le);
      InsertEquivalents(s[0], Sort(s[1..], le), y, le);
    }
  }

  /** Sorting a sequence that is already sorted changes nothing. */
  lemma {:induction false} SortOfSorted<T(!new)>(s: seq<T>, le: (T, T) -> bool)
    requires Sorted(s, le)
    ensures Sort(s, le) == s
  {
    if s != [] {
      assert Sorted(s[1..], le) by {
        forall i, j | 0 <= i < j < |s[1..]| ensures le(s[1..][i], s[1..][j]) {
          assert s[1..][i] == s[i + 1] && s[1..][j] == s[j + 1];
        }
      }
      SortOfSorted(s[1..], le);
      if |s| > 1 {
        assert le(s[0], s[1]);
        assert s[1..][0] == s[1];
      }
    }
  }
}
