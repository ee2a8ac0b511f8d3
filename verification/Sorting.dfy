/** The stable sort of the standard library, as a function, and sorted enumerations of id sets. */
module Sorting {
  import opened Base

  function InsertBy<T>(key: T -> int, x: T, s: seq<T>): (r: seq<T>)
    ensures |r| == |s| + 1
  {
    if s == [] || key(x) < key(s[0]) then [x] + s else [s[0]] + InsertBy(key, x, s[1..])
  }

  /** Stable: an element is inserted behind the equal ones that precede it. */
  function SortBy<T>(key: T -> int, s: seq<T>): (r: seq<T>)
    ensures |r| == |s|
  {
    if s == [] then [] else InsertBy(key, s[|s| - 1], SortBy(key, s[..|s| - 1]))
  }

  ghost predicate SortedBy<T>(key: T -> int, s: seq<T>) {
    forall i, j :: 0 <= i < j < |s| ==> key(s[i]) <= key(s[j])
  }

  lemma {:induction false} InsertByMultiset<T>(key: T -> int, x: T, s: seq<T>)
    ensures multiset(InsertBy(key, x, s)) == multiset(s) + multiset{x}
  {
    if s == [] || key(x) < key(s[0]) {
    } else {
      InsertByMultiset(key, x, s[1..]);
      assert s == [s[0]] + s[1..];
    }
  }

  lemma {:induction false} SortByMultiset<T>(key: T -> int, s: seq<T>)
    ensures multiset(SortBy(key, s)) == multiset(s)
  {
    if s != [] {
      var front := s[..|s| - 1];
      SortByMultiset(key, front);
      InsertByMultiset(key, s[|s| - 1], SortBy(key, front));
      assert s == front + [s[|s| - 1]];
    }
  }

  lemma {:induction false} InsertBySorted<T>(key: T -> int, x: T, s: seq<T>)
    requires SortedBy(key, s)
    ensures SortedBy(key, InsertBy(key, x, s))
  {
    if s == [] || key(x) < key(s[0]) {
    } else {
      InsertBySorted(key, x, s[1..]);
      InsertByMultiset(key, x, s[1..]);
      var rest := InsertBy(key, x, s[1..]);
      forall j | 0 <= j < |rest|
        ensures key(s[0]) <= key(rest[j])
      {
        assert rest[j] in multiset(rest);
        assert rest[j] == x || rest[j] in s[1..];
      }
    }
  }

  lemma {:induction false} SortBySorted<T>(key: T -> int, s: seq<T>)
    ensures SortedBy(key, SortBy(key, s))
  {
    if s != [] {
      SortBySorted(key, s[..|s| - 1]);
      InsertBySorted(key, s[|s| - 1], SortBy(key, s[..|s| - 1]));
    }
  }

  predicate IsLeast(x: Uuid, ids: set<Uuid>) {
    x in ids && forall y :: y in ids ==> x <= y
  }

  /** The ids of a set, ascending: what sorting the keys of a map yields. */
  function SortedIds(ids: set<Uuid>): seq<Uuid>
    decreases |ids|
  {
    if ids == {} then []
    else
      LeastExists(ids);
      var least :| IsLeast(least, ids);
      [least] + SortedIds(ids - {least})
  }

  ghost predicate Ascends(s: seq<Uuid>) {
    forall i, j :: 0 <= i < j < |s| ==> s[i] < s[j]
  }

  lemma AscendsCons(x: Uuid, s: seq<Uuid>)
    requires Ascends(s) && forall y :: y in s ==> x < y
    ensures Ascends([x] + s)
  {
    var r := [x] + s;
    forall i, j | 0 <= i < j < |r| ensures r[i] < r[j] {
      assert r[j] == s[j - 1] && s[j - 1] in s;
      if i > 0 { assert r[i] == s[i - 1]; }
    }
  }

  lemma {:induction false} SortedIdsAscend(ids: set<Uuid>)
    ensures forall x :: x in SortedIds(ids) <==> x in ids
    ensures Ascends(SortedIds(ids))
    decreases |ids|
  {
    if ids != {} {
      LeastExists(ids);
      var least := SortedIds(ids)[0];
      var rest := SortedIds(ids - {least});
      assert IsLeast(least, ids) && SortedIds(ids) == [least] + rest;
      SortedIdsAscend(ids - {least});
      forall y | y in rest ensures least < y { assert y in ids - {least}; }
      AscendsCons(least, rest);
    }
  }

  lemma {:induction false} LeastExists(ids: set<Uuid>)
    requires ids != {}
    ensures exists x :: IsLeast(x, ids)
    decreases |ids|
  {
    var x :| x in ids;
    var rest := ids - {x};
    if rest == {} {
      assert forall y :: y in ids ==> y == x || y in rest;
      assert IsLeast(x, ids);
    } else {
      LeastExists(rest);
      var m :| IsLeast(m, rest);
      assert forall y :: y in ids ==> y == x || y in rest;
      assert IsLeast(if x <= m then x else m, ids);
    }
  }
}
