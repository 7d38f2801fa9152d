/** The ascending order the group-by queries sort their keys in, and the
    sorted list of distinct keys of a column. Strings are compared by code
    point, character by character, a proper prefix first. Also counting in
    and measuring duplicate-free key lists. */
module Ordering {

  /** `a` sorts strictly before `b`. */
  predicate Less(a: string, b: string)
    decreases |a|
  {
    if |a| == 0 then |b| > 0
    else if |b| == 0 then false
    else if a[0] != b[0] then a[0] < b[0]
    else Less(a[1..], b[1..])
  }

  lemma {:induction false} LessIrreflexive(a: string)
    ensures !Less(a, a)
    decreases |a|
  {
    if |a| > 0 {
      LessIrreflexive(a[1..]);
    }
  }

  lemma {:induction false} LessTotal(a: string, b: string)
    requires a != b
    ensures Less(a, b) || Less(b, a)
    decreases |a|
  {
    if |a| > 0 && |b| > 0 && a[0] == b[0] {
      assert a == [a[0]] + a[1..] && b == [b[0]] + b[1..];
      LessTotal(a[1..], b[1..]);
    }
  }

  lemma {:induction false} LessTransitive(a: string, b: string, c: string)
    requires Less(a, b) && Less(b, c)
    ensures Less(a, c)
    decreases |a|
  {
    if |a| > 0 && |b| > 0 && |c| > 0 && a[0] == b[0] && b[0] == c[0] {
      LessTransitive(a[1..], b[1..], c[1..]);
    }
  }

  /** Strictly ascending, so also free of duplicates. */
  predicate Sorted(s: seq<string>) {
    forall i, j :: 0 <= i < j < |s| ==> Less(s[i], s[j])
  }

  predicate NoDuplicates<T(==)>(s: seq<T>) {
    forall i, j :: 0 <= i < j < |s| ==> s[i] != s[j]
  }

  lemma SortedNoDuplicates(s: seq<string>)
    requires Sorted(s)
    ensures NoDuplicates(s)
  {
    forall i, j | 0 <= i < j < |s| ensures s[i] != s[j] {
      LessIrreflexive(s[i]);
    }
  }

  /** How often `s` occurs in `keys`. */
  function Occurrences<T(==)>(keys: seq<T>, s: T): nat {
    if keys == [] then 0 else (if keys[0] == s then 1 else 0) + Occurrences(keys[1..], s)
  }

  lemma {:induction false} OccursOnce<T>(keys: seq<T>, s: T)
    requires NoDuplicates(keys)
    ensures Occurrences(keys, s) == (if s in keys then 1 else 0)
  {
    if keys != [] {
      assert NoDuplicates(keys[1..]) by {
        forall i, j | 0 <= i < j < |keys[1..]| ensures keys[1..][i] != keys[1..][j] {
          assert keys[1..][i] == keys[i + 1] && keys[1..][j] == keys[j + 1];
        }
      }
      OccursOnce(keys[1..], s);
      if keys[0] == s {
        assert s !in keys[1..] by {
          forall j | 0 <= j < |keys[1..]| ensures keys[1..][j] != s {
            assert keys[1..][j] == keys[j + 1];
          }
        }
      } else {
        assert keys == [keys[0]] + keys[1..];
      }
    }
  }

  /** A list without duplicates has as many elements as the set it enumerates. */
  lemma {:induction false} DistinctCardinality<T>(xs: seq<T>, s: set<T>)
    requires NoDuplicates(xs)
    requires forall x :: x in xs <==> x in s
    ensures |xs| == |s|
  {
    if xs != [] {
      var rest := xs[1..];
      assert NoDuplicates(rest) by {
        forall i, j | 0 <= i < j < |rest| ensures rest[i] != rest[j] {
          assert rest[i] == xs[i + 1] && rest[j] == xs[j + 1];
        }
      }
      assert xs[0] !in rest by {
        forall j | 0 <= j < |rest| ensures rest[j] != xs[0] {
          assert rest[j] == xs[j + 1];
        }
      }
      assert xs == [xs[0]] + rest;
      DistinctCardinality(rest, s - {xs[0]});
    }
  }

  /** Places `x` in front of the first key it sorts before. */
  function Insert(x: string, s: seq<string>): seq<string> {
    if s == [] then [x]
    else if Less(x, s[0]) then [x] + s
    else [s[0]] + Insert(x, s[1..])
  }

  lemma {:induction false} InsertSorted(x: string, s: seq<string>)
    requires Sorted(s) && x !in s
    ensures Sorted(Insert(x, s))
    ensures forall y :: y in Insert(x, s) <==> y == x || y in s
  {
    if s == [] {
    } else if Less(x, s[0]) {
      var r := [x] + s;
      forall i, j | 0 <= i < j < |r| ensures Less(r[i], r[j]) {
        if i == 0 && j > 1 {
          LessTransitive(x, s[0], s[j - 1]);
        }
      }
    } else {
      assert s == [s[0]] + s[1..];
      LessTotal(x, s[0]);
      InsertSorted(x, s[1..]);
      var r := [s[0]] + Insert(x, s[1..]);
      forall j | 0 < j < |r| ensures Less(r[0], r[j]) {
        assert r[j] in Insert(x, s[1..]);
      }
    }
  }

  /** The distinct values of a column, sorted ascending. */
  function Keys(xs: seq<string>): seq<string> {
    if xs == [] then []
    else
      var rest := Keys(xs[1..]);
      if xs[0] in rest then rest else Insert(xs[0], rest)
  }

  lemma {:induction false} KeysSorted(xs: seq<string>)
    ensures Sorted(Keys(xs))
    ensures forall y :: y in Keys(xs) <==> y in xs
  {
    if xs != [] {
      assert xs == [xs[0]] + xs[1..];
      KeysSorted(xs[1..]);
      if xs[0] !in Keys(xs[1..]) {
        InsertSorted(xs[0], Keys(xs[1..]));
      }
    }
  }

  /** A column holding one value throughout has that single key. */
  lemma {:induction false} KeysOfConstant(xs: seq<string>, v: string)
    requires xs != [] && forall i :: 0 <= i < |xs| ==> xs[i] == v
    ensures Keys(xs) == [v]
  {
    if |xs| > 1 {
      KeysOfConstant(xs[1..], v);
    }
  }
}
