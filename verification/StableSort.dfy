/** Stable sorting by a key order: the library's `sorted`, as a function, and
    the facts about it that the other modules rely on. */
module StableSort {
  import opened Wrappers

  /** `le` orders the values of `s`. */
  ghost predicate TotalPreorder<T>(le: (T, T) -> bool, s: seq<T>) {
    && (forall a, b :: a in s && b in s ==> le(a, b) || le(b, a))
    && (forall a, b, c :: a in s && b in s && c in s && le(a, b) && le(b, c) ==> le(a, c))
  }

  /** The order of `s` orders what follows its head, sorted or not. */
  lemma TailOrder<T>(le: (T, T) -> bool, s: seq<T>)
    requires s != [] && TotalPreorder(le, s)
    ensures TotalPreorder(le, s[1..]) && TotalPreorder(le, [s[0]] + Sort(le, s[1..]))
  {
    SortElems(le, s[1..]);
    assert s == [s[0]] + s[1..];
    assert forall x :: x in [s[0]] + Sort(le, s[1..]) ==> x == s[0] || x in Sort(le, s[1..]);
  }

  lemma SubOrder<T>(le: (T, T) -> bool, s: seq<T>, t: seq<T>)
    requires TotalPreorder(le, s) && forall x :: x in t ==> x in s
    ensures TotalPreorder(le, t)
  {
  }

  ghost predicate Sorted<T>(le: (T, T) -> bool, s: seq<T>) {
    forall i, j :: 0 <= i < j < |s| ==> le(s[i], s[j])
  }

  function Insert<T>(le: (T, T) -> bool, x: T, s: seq<T>): (r: seq<T>) {
    if s == [] then [x]
    else if le(x, s[0]) then [x] + s
    else [s[0]] + Insert(le, x, s[1..])
  }

  function Sort<T>(le: (T, T) -> bool, s: seq<T>): (r: seq<T>) {
    if s == [] then [] else Insert(le, s[0], Sort(le, s[1..]))
  }

  lemma {:induction false} InsertMultiset<T>(le: (T, T) -> bool, x: T, s: seq<T>)
    ensures multiset(Insert(le, x, s)) == multiset{x} + multiset(s)
  {
    if s == [] {
    } else {
      assert s == [s[0]] + s[1..];
      InsertMultiset(le, x, s[1..]);
    }
  }

  /** Sorting permutes its input. */
  lemma {:induction false} SortMultiset<T>(le: (T, T) -> bool, s: seq<T>)
    ensures multiset(Sort(le, s)) == multiset(s)
    ensures |Sort(le, s)| == |s|
  {
    if s == [] {
    } else {
      assert s == [s[0]] + s[1..];
      SortMultiset(le, s[1..]);
      InsertMultiset(le, s[0], Sort(le, s[1..]));
    }
    assert |multiset(Sort(le, s))| == |Sort(le, s)|;
    assert |multiset(s)| == |s|;
  }

  lemma SortElems<T>(le: (T, T) -> bool, s: seq<T>)
    ensures forall x :: x in Sort(le, s) <==> x in s
    ensures |Sort(le, s)| == |s| && forall i :: 0 <= i < |s| ==> Sort(le, s)[i] in s
  {
    SortMultiset(le, s);
    forall i | 0 <= i < |s| ensures Sort(le, s)[i] in s {
      assert Sort(le, s)[i] in multiset(Sort(le, s));
    }
    assert forall x :: x in Sort(le, s) <==> x in multiset(Sort(le, s));
    assert forall x :: x in s <==> x in multiset(s);
  }

  lemma {:induction false} InsertSorted<T>(le: (T, T) -> bool, x: T, s: seq<T>)
    requires TotalPreorder(le, [x] + s) && Sorted(le, s)
    ensures Sorted(le, Insert(le, x, s))
  {
    if s == [] || le(x, s[0]) {
    } else {
      var r := Insert(le, x, s[1..]);
      SubOrder(le, [x] + s, [x] + s[1..]);
      InsertSorted(le, x, s[1..]);
      InsertMultiset(le, x, s[1..]);
      forall j | 0 <= j < |r| ensures le(s[0], r[j]) {
        assert r[j] in multiset(r);
        if r[j] != x {
          assert r[j] in s[1..];
        }
      }
    }
  }

  /** Sorting orders its input. */
  lemma {:induction false} SortSorted<T>(le: (T, T) -> bool, s: seq<T>)
    requires TotalPreorder(le, s)
    ensures Sorted(le, Sort(le, s))
  {
    if s == [] {
    } else {
      TailOrder(le, s);
      SortSorted(le, s[1..]);
      InsertSorted(le, s[0], Sort(le, s[1..]));
    }
  }

  lemma {:induction false} FilterInsert<T>(le: (T, T) -> bool, p: T -> bool, x: T, s: seq<T>)
    requires TotalPreorder(le, [x] + s) && Sorted(le, s)
    ensures Filter(p, Insert(le, x, s)) == if p(x) then Insert(le, x, Filter(p, s)) else Filter(p, s)
  {
    if s == [] {
    } else if le(x, s[0]) {
      assert ([x] + s)[1..] == s;
      var f := Filter(p, s);
      FilterElems(p, s);
      if p(x) && f != [] {
        assert f[0] in s;
      }
    } else {
      var r, f := Insert(le, x, s[1..]), Filter(p, s[1..]);
      SubOrder(le, [x] + s, [x] + s[1..]);
      FilterInsert(le, p, x, s[1..]);
      assert ([s[0]] + r)[1..] == r;
      assert Filter(p, Insert(le, x, s)) == (if p(s[0]) then [s[0]] else []) + Filter(p, r);
      assert [] + f == f && [] + Filter(p, r) == Filter(p, r);
      if p(s[0]) {
        assert Filter(p, s) == [s[0]] + f;
        assert ([s[0]] + f)[1..] == f;
      } else {
        assert Filter(p, s) == f;
      }
    }
  }

  /** Stability, in the form that is used: sorting commutes with filtering,
      whatever is filtered, so equal keys keep their input order. */
  lemma {:induction false} FilterSort<T>(le: (T, T) -> bool, p: T -> bool, s: seq<T>)
    requires TotalPreorder(le, s)
    ensures Filter(p, Sort(le, s)) == Sort(le, Filter(p, s))
  {
    if s == [] {
    } else {
      TailOrder(le, s);
      SortSorted(le, s[1..]);
      FilterSort(le, p, s[1..]);
      FilterInsert(le, p, s[0], Sort(le, s[1..]));
      var f := Filter(p, s[1..]);
      if p(s[0]) {
        assert Filter(p, s) == [s[0]] + f;
        assert ([s[0]] + f)[1..] == f;
      } else {
        assert Filter(p, s) == [] + f == f;
      }
    }
  }

  /** `x` stands before `y`. */
  ghost predicate StandsBefore<T>(s: seq<T>, x: T, y: T) {
    exists a, b :: 0 <= a < b < |s| && s[a] == x && s[b] == y
  }

  lemma StandsBeforeInTail<T>(z: T, s: seq<T>, x: T, y: T)
    requires StandsBefore(s, x, y) || (z == x && y in s)
    ensures StandsBefore([z] + s, x, y)
  {
    var t := [z] + s;
    if StandsBefore(s, x, y) {
      var a, b :| 0 <= a < b < |s| && s[a] == x && s[b] == y;
      assert t[a + 1] == x && t[b + 1] == y;
    } else {
      var b :| 0 <= b < |s| && s[b] == y;
      assert t[0] == x && t[b + 1] == y;
    }
  }

  lemma {:induction false} InsertedBefore<T>(le: (T, T) -> bool, x: T, s: seq<T>, y: T)
    requires le(x, y) && y in s
    ensures StandsBefore(Insert(le, x, s), x, y)
  {
    if le(x, s[0]) {
      StandsBeforeInTail(x, s, x, y);
    } else {
      InsertedBefore(le, x, s[1..], y);
      StandsBeforeInTail(s[0], Insert(le, x, s[1..]), x, y);
    }
  }

  lemma {:induction false} InsertKeepsBefore<T>(le: (T, T) -> bool, z: T, s: seq<T>, x: T, y: T)
    requires StandsBefore(s, x, y)
    ensures StandsBefore(Insert(le, z, s), x, y)
  {
    if s == [] || le(z, s[0]) {
      StandsBeforeInTail(z, s, x, y);
    } else {
      var t := Insert(le, z, s[1..]);
      var a, b :| 0 <= a < b < |s| && s[a] == x && s[b] == y;
      assert s[1..][b - 1] == y;
      if a > 0 {
        assert s[1..][a - 1] == x;
        InsertKeepsBefore(le, z, s[1..], x, y);
      } else {
        InsertMultiset(le, z, s[1..]);
        assert y in s[1..] && y in multiset(t);
      }
      StandsBeforeInTail(s[0], t, x, y);
    }
  }

  /** Stability for two elements: they keep their order when it is allowed. */
  lemma {:induction false} ListedFirstStaysFirst<T>(le: (T, T) -> bool, s: seq<T>, i: nat, j: nat)
    requires i < j < |s| && le(s[i], s[j])
    ensures StandsBefore(Sort(le, s), s[i], s[j])
  {
    if i == 0 {
      assert s[1..][j - 1] == s[j];
      SortElems(le, s[1..]);
      InsertedBefore(le, s[0], Sort(le, s[1..]), s[j]);
    } else {
      ListedFirstStaysFirst(le, s[1..], i - 1, j - 1);
      InsertKeepsBefore(le, s[0], Sort(le, s[1..]), s[i], s[j]);
    }
  }

  /** A sorted sequence is left alone. */
  lemma {:induction false} SortOfSorted<T>(le: (T, T) -> bool, s: seq<T>)
    requires Sorted(le, s)
    ensures Sort(le, s) == s
  {
    if s == [] {
    } else {
      SortOfSorted(le, s[1..]);
      assert [s[0]] + s[1..] == s;
    }
  }

  /** Two sorted arrangements of the same values agree when the order tells
      all of them apart. */
  lemma {:induction false} SortedUnique<T>(le: (T, T) -> bool, a: seq<T>, b: seq<T>)
    requires TotalPreorder(le, a)
    requires forall x, y :: x in a && y in a && le(x, y) && le(y, x) ==> x == y
    requires Sorted(le, a) && Sorted(le, b) && multiset(a) == multiset(b)
    ensures a == b
  {
    assert |multiset(a)| == |a| && |multiset(b)| == |b|;
    if a == [] {
    } else {
      SortedHeads(le, a, b);
      assert a == [a[0]] + a[1..] && b == [b[0]] + b[1..];
      assert multiset(a[1..]) == multiset(a) - multiset{a[0]};
      assert multiset(b[1..]) == multiset(b) - multiset{b[0]};
      SubOrder(le, a, a[1..]);
      SortedUnique(le, a[1..], b[1..]);
    }
  }

  lemma SortedHeads<T>(le: (T, T) -> bool, a: seq<T>, b: seq<T>)
    requires TotalPreorder(le, a) && a != [] && b != []
    requires forall x, y :: x in a && y in a && le(x, y) && le(y, x) ==> x == y
    requires Sorted(le, a) && Sorted(le, b) && multiset(a) == multiset(b)
    ensures a[0] == b[0]
  {
    assert a[0] in multiset(b) && b[0] in multiset(a);
    assert a[0] in b && b[0] in a;
    assert le(a[0], b[0]) && le(b[0], a[0]);
  }
}
