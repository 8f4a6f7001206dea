/** Filtering, and the stable newest-first sort that the store applies to its listings. */
module Ordering {
  import opened Wrappers

  function Filter<T(!new)>(s: seq<T>, p: T -> bool): (r: seq<T>)
    ensures forall x :: x in r <==> x in s && p(x)
    ensures |r| <= |s|
  {
    if s == [] then []
    else Filter(s[..|s| - 1], p) + if p(s[|s| - 1]) then [s[|s| - 1]] else []
  }

  predicate Distinct<T(==)>(s: seq<T>) {
    forall i, j :: 0 <= i < j < |s| ==> s[i] != s[j]
  }

  lemma {:induction false} FilterDistinct<T(!new)>(s: seq<T>, p: T -> bool)
    requires Distinct(s)
    ensures Distinct(Filter(s, p))
  {
    if s != [] {
      FilterDistinct(s[..|s| - 1], p);
    }
  }

  lemma FilterAppend<T(!new)>(s: seq<T>, x: T, p: T -> bool)
    ensures Filter(s + [x], p) == Filter(s, p) + if p(x) then [x] else []
  {
    assert (s + [x])[..|s|] == s;
  }

  lemma FilterOne<T(!new)>(x: T, p: T -> bool)
    requires p(x)
    ensures Filter([x], p) == [x]
  {
    assert [x][..0] == [];
  }

  function FindFirst<T(!new)>(s: seq<T>, p: T -> bool): (r: Option<T>)
    ensures r.Some? ==> r.value in s && p(r.value)
    ensures r.None? ==> forall x :: x in s ==> !p(x)
  {
    if s == [] then None
    else if p(s[0]) then Some(s[0])
    else FindFirst(s[1..], p)
  }

  /** Puts `x` behind every element at least as new. */
  function Insert<T(!new)>(s: seq<T>, x: T, key: T -> int): seq<T> {
    if s == [] || key(s[|s| - 1]) >= key(x) then s + [x]
    else Insert(s[..|s| - 1], x, key) + [s[|s| - 1]]
  }

  function NewestFirst<T(!new)>(s: seq<T>, key: T -> int): seq<T> {
    if s == [] then [] else Insert(NewestFirst(s[..|s| - 1], key), s[|s| - 1], key)
  }

  ghost predicate Descending<T(!new)>(s: seq<T>, key: T -> int) {
    forall i, j :: 0 <= i < j < |s| ==> key(s[i]) >= key(s[j])
  }

  lemma {:induction false} InsertBag<T(!new)>(s: seq<T>, x: T, key: T -> int)
    ensures multiset(Insert(s, x, key)) == multiset(s) + multiset{x}
  {
    if s != [] && key(s[|s| - 1]) < key(x) {
      InsertBag(s[..|s| - 1], x, key);
      assert s == s[..|s| - 1] + [s[|s| - 1]];
    }
  }

  lemma InsertMembers<T(!new)>(s: seq<T>, x: T, key: T -> int)
    ensures forall y :: y in Insert(s, x, key) <==> y in s || y == x
  {
    InsertBag(s, x, key);
    forall y ensures y in Insert(s, x, key) <==> y in s || y == x {
      assert y in multiset(Insert(s, x, key)) <==> y in multiset(s) + multiset{x};
    }
  }

  lemma {:induction false} InsertSorts<T(!new)>(s: seq<T>, x: T, key: T -> int)
    requires Descending(s, key)
    ensures Descending(Insert(s, x, key), key)
  {
    if s != [] && key(s[|s| - 1]) < key(x) {
      var front := s[..|s| - 1];
      InsertSorts(front, x, key);
      InsertMembers(front, x, key);
      forall i | 0 <= i < |Insert(front, x, key)|
        ensures key(Insert(front, x, key)[i]) >= key(s[|s| - 1])
      {
        assert Insert(front, x, key)[i] in Insert(front, x, key);
      }
    }
  }

  lemma NothingDescends<T(!new)>(s: seq<T>, key: T -> int)
    requires s == []
    ensures Descending(s, key)
  {
  }

  lemma {:induction false} NewestFirstSorts<T(!new)>(s: seq<T>, key: T -> int)
    ensures Descending(NewestFirst(s, key), key)
    ensures multiset(NewestFirst(s, key)) == multiset(s)
  {
    hide Insert, Descending;
    if s == [] {
      NothingDescends(NewestFirst(s, key), key);
    } else {
      NewestFirstSorts(s[..|s| - 1], key);
      InsertSorts(NewestFirst(s[..|s| - 1], key), s[|s| - 1], key);
      InsertBag(NewestFirst(s[..|s| - 1], key), s[|s| - 1], key);
      assert s == s[..|s| - 1] + [s[|s| - 1]];
    }
  }

  lemma NewestFirstMembers<T(!new)>(s: seq<T>, key: T -> int)
    ensures forall x :: x in NewestFirst(s, key) <==> x in s
  {
    NewestFirstSorts(s, key);
    forall x ensures x in NewestFirst(s, key) <==> x in s {
      assert x in multiset(NewestFirst(s, key)) <==> x in multiset(s);
    }
  }

  lemma {:induction false} InsertDistinct<T(!new)>(s: seq<T>, x: T, key: T -> int)
    requires Distinct(s) && x !in s
    ensures Distinct(Insert(s, x, key))
    ensures forall y :: y in Insert(s, x, key) <==> y in s || y == x
  {
    if s != [] && key(s[|s| - 1]) < key(x) {
      assert s[|s| - 1] !in s[..|s| - 1];
      InsertDistinct(s[..|s| - 1], x, key);
      assert s == s[..|s| - 1] + [s[|s| - 1]];
    }
  }

  lemma {:induction false} NewestFirstDistinct<T(!new)>(s: seq<T>, key: T -> int)
    requires Distinct(s)
    ensures Distinct(NewestFirst(s, key))
  {
    if s != [] {
      assert s[|s| - 1] !in s[..|s| - 1];
      NewestFirstDistinct(s[..|s| - 1], key);
      NewestFirstMembers(s[..|s| - 1], key);
      InsertDistinct(NewestFirst(s[..|s| - 1], key), s[|s| - 1], key);
    }
  }

  /** The newest element that satisfies `p`; among equally new ones the first in `s`. */
  function Newest<T(!new)>(s: seq<T>, p: T -> bool, key: T -> int): Option<T> {
    if s == [] then None
    else
      var best := Newest(s[..|s| - 1], p, key);
      var x := s[|s| - 1];
      if p(x) && (best.None? || key(best.value) < key(x)) then Some(x) else best
  }

  lemma {:induction false} FindFirstAppend<T(!new)>(s: seq<T>, x: T, p: T -> bool)
    ensures FindFirst(s + [x], p)
         == if FindFirst(s, p).Some? then FindFirst(s, p) else if p(x) then Some(x) else None
  {
    if s != [] {
      assert (s + [x])[1..] == s[1..] + [x];
      if !p(s[0]) {
        FindFirstAppend(s[1..], x, p);
      }
    }
  }

  lemma {:induction false} FindAfterInsert<T(!new)>(s: seq<T>, x: T, p: T -> bool, key: T -> int)
    requires Descending(s, key)
    ensures FindFirst(Insert(s, x, key), p)
         == var y := FindFirst(s, p);
            if p(x) && (y.None? || key(y.value) < key(x)) then Some(x) else y
  {
    if s == [] || key(s[|s| - 1]) >= key(x) {
      FindFirstAppend(s, x, p);
    } else {
      var front, last := s[..|s| - 1], s[|s| - 1];
      FindAfterInsert(front, x, p, key);
      FindFirstAppend(front, last, p);
      FindFirstAppend(Insert(front, x, key), last, p);
      assert s == front + [last];
    }
  }

  /** Sorting newest first and taking the first match selects the newest match. */
  lemma {:induction false} FirstOfNewestFirst<T(!new)>(s: seq<T>, p: T -> bool, key: T -> int)
    ensures FindFirst(NewestFirst(s, key), p) == Newest(s, p, key)
  {
    if s != [] {
      FirstOfNewestFirst(s[..|s| - 1], p, key);
      NewestFirstSorts(s[..|s| - 1], key);
      FindAfterInsert(NewestFirst(s[..|s| - 1], key), s[|s| - 1], p, key);
    }
  }

  lemma {:induction false} NewestIsNewest<T(!new)>(s: seq<T>, p: T -> bool, key: T -> int)
    ensures Newest(s, p, key).None? <==> forall x :: x in s ==> !p(x)
    ensures Newest(s, p, key).Some? ==>
              var y := Newest(s, p, key).value;
              y in s && p(y) && forall x :: x in s && p(x) ==> key(x) <= key(y)
  {
    if s != [] {
      NewestIsNewest(s[..|s| - 1], p, key);
      assert s == s[..|s| - 1] + [s[|s| - 1]];
    }
  }

  // ---------------------------------------------------------------- listings depend on what they read

  lemma {:induction false} FilterSame<T(!new)>(s: seq<T>, p: T -> bool, q: T -> bool)
    requires forall x :: x in s ==> p(x) == q(x)
    ensures Filter(s, p) == Filter(s, q)
  {
    if s != [] {
      FilterSame(s[..|s| - 1], p, q);
    }
  }

  lemma {:induction false} FindFirstSame<T(!new)>(s: seq<T>, p: T -> bool, q: T -> bool)
    requires forall x :: x in s ==> p(x) == q(x)
    ensures FindFirst(s, p) == FindFirst(s, q)
  {
    if s != [] {
      FindFirstSame(s[1..], p, q);
    }
  }

  lemma {:induction false} InsertSame<T(!new)>(s: seq<T>, x: T, f: T -> int, g: T -> int)
    requires f(x) == g(x) && forall y :: y in s ==> f(y) == g(y)
    ensures Insert(s, x, f) == Insert(s, x, g)
  {
    if s != [] {
      InsertSame(s[..|s| - 1], x, f, g);
    }
  }

  lemma {:induction false} NewestFirstSame<T(!new)>(s: seq<T>, f: T -> int, g: T -> int)
    requires forall y :: y in s ==> f(y) == g(y)
    ensures NewestFirst(s, f) == NewestFirst(s, g)
  {
    if s != [] {
      NewestFirstSame(s[..|s| - 1], f, g);
      NewestFirstMembers(s[..|s| - 1], f);
      InsertSame(NewestFirst(s[..|s| - 1], f), s[|s| - 1], f, g);
    }
  }
}
