/** The coordinate-wise trimmed mean of face embeddings, over exact numbers. */
module TrimmedMean {
  import opened Wrappers
  import opened StableSort

  predicate AtMost(a: real, b: real) {
    a <= b
  }

  function Clamped(trim: real): (r: real)
    ensures 0.0 <= r <= 0.49
  {
    if trim < 0.0 then 0.0 else if trim > 0.49 then 0.49 else trim
  }

  /** How many values are cut off at each end. */
  function TrimCount(n: nat, trim: real): (k: nat)
    requires n > 0
    ensures 2 * k < n
  {
    var k := (n as real * Clamped(trim)).Floor;
    if 2 * k >= n then (n - 1) / 2 else k
  }

  /** The repair of a too large count is never needed: less than half is cut off at each
      end, so something is always kept. */
  lemma TrimCountIsFloor(n: nat, trim: real)
    requires n > 0
    ensures TrimCount(n, trim) == (n as real * Clamped(trim)).Floor
  {
    var x := n as real * Clamped(trim);
    MulOrder(Clamped(trim), 0.49, n as real);
    FloorBelowHalf(n, x);
  }

  lemma FloorBelowHalf(n: nat, x: real)
    requires n > 0 && x <= n as real * 0.49
    ensures 2 * x.Floor < n
  {
  }

  function Sum(s: seq<real>): (r: real) {
    if s == [] then 0.0 else s[0] + Sum(s[1..])
  }

  /** The sorted column without its `k` smallest and `k` largest values. */
  function Kept(column: seq<real>, k: nat): (r: seq<real>)
    requires 2 * k < |column|
    ensures |r| == |column| - 2 * k
  {
    SortMultiset(AtMost, column);
    Sort(AtMost, column)[k..|column| - k]
  }

  function Mean(s: seq<real>): (r: real)
    requires s != []
  {
    Sum(s) / |s| as real
  }

  function TrimColumn(column: seq<real>, trim: real): (r: real)
    requires column != []
  {
    if |column| == 1 then column[0] else Mean(Kept(column, TrimCount(|column|, trim)))
  }

  predicate SameShape(vectors: seq<seq<real>>) {
    forall i :: 0 <= i < |vectors| ==> |vectors[i]| == |vectors[0]|
  }

  function Column(vectors: seq<seq<real>>, j: nat): (r: seq<real>)
    requires SameShape(vectors) && (vectors == [] || j < |vectors[0]|)
    ensures |r| == |vectors| && forall i :: 0 <= i < |r| ==> r[i] == vectors[i][j]
  {
    seq(|vectors|, i requires 0 <= i < |vectors| => vectors[i][j])
  }

  /** No vector at all, or vectors of different shapes, are refused. */
  function TrimmedMean(vectors: seq<seq<real>>, trim: real): (r: Option<seq<real>>)
    ensures r.Some? <==> vectors != [] && SameShape(vectors)
  {
    if vectors == [] || !SameShape(vectors) then None
    else Some(seq(|vectors[0]|, j requires 0 <= j < |vectors[0]| => TrimColumn(Column(vectors, j), trim)))
  }

  // ------------------------------------------------------------------ robustness

  function Below(s: seq<real>, lo: real): (r: nat) {
    |Filter(x => x < lo, s)|
  }

  function Above(s: seq<real>, hi: real): (r: nat) {
    |Filter(x => x > hi, s)|
  }

  /** Sorting does not change how many values are out of bounds. */
  lemma CountsOfSorted(s: seq<real>, x: real)
    ensures Below(Sort(AtMost, s), x) == Below(s, x) && Above(Sort(AtMost, s), x) == Above(s, x)
  {
    var below, above: real -> bool := y => y < x, y => y > x;
    FilterSort(AtMost, below, s);
    FilterSort(AtMost, above, s);
    SortMultiset(AtMost, Filter(below, s));
    SortMultiset(AtMost, Filter(above, s));
    assert Below(s, x) == |Filter(below, s)| && Above(s, x) == |Filter(above, s)|;
  }

  lemma {:induction false} NoneOf(p: real -> bool, s: seq<real>)
    ensures |Filter(p, s)| <= |s|
    ensures (forall i :: 0 <= i < |s| ==> !p(s[i])) ==> |Filter(p, s)| == 0
    ensures (forall i :: 0 <= i < |s| ==> p(s[i])) ==> |Filter(p, s)| == |s|
  {
    if s == [] {
    } else {
      NoneOf(p, s[1..]);
    }
  }

  /** In a sorted column the value at `i` is below `lo` exactly when more than `i` values are. */
  lemma {:induction false} BelowInSorted(s: seq<real>, lo: real, i: nat)
    requires Sorted(AtMost, s) && i < |s|
    ensures s[i] < lo <==> Below(s, lo) > i
  {
    NoneOf(x => x < lo, s);
    assert i > 0 ==> AtMost(s[0], s[i]);
    if s[0] >= lo {
      assert forall j :: 0 < j < |s| ==> AtMost(s[0], s[j]);
    } else if i > 0 {
      BelowInSorted(s[1..], lo, i - 1);
    }
  }

  /** And above `hi` exactly when it and all after it are. */
  lemma {:induction false} AboveInSorted(s: seq<real>, hi: real, i: nat)
    requires Sorted(AtMost, s) && i < |s|
    ensures s[i] > hi <==> Above(s, hi) >= |s| - i
  {
    NoneOf(x => x > hi, s);
    NoneOf(x => x > hi, s[1..]);
    assert i > 0 ==> AtMost(s[0], s[i]);
    if s[0] > hi {
      assert forall j :: 0 < j < |s| ==> AtMost(s[0], s[j]);
    } else if i > 0 {
      AboveInSorted(s[1..], hi, i - 1);
    }
  }

  ghost predicate AllWithin(s: seq<real>, lo: real, hi: real) {
    forall i :: 0 <= i < |s| ==> lo <= s[i] <= hi
  }

  /** Every value that is averaged lies between the bounds exactly when no more values lie
      below, and no more above, than are cut off at that end. */
  lemma KeptWithinExactly(column: seq<real>, k: nat, lo: real, hi: real)
    requires 2 * k < |column|
    ensures AllWithin(Kept(column, k), lo, hi) <==> Below(column, lo) <= k && Above(column, hi) <= k
  {
    SortMultiset(AtMost, column);
    SortSorted(AtMost, column);
    CountsOfSorted(column, lo);
    CountsOfSorted(column, hi);
    MiddleWithin(Sort(AtMost, column), k, Kept(column, k), lo, hi);
  }

  lemma MiddleWithin(s: seq<real>, k: nat, kept: seq<real>, lo: real, hi: real)
    requires Sorted(AtMost, s) && 2 * k < |s| && kept == s[k..|s| - k]
    ensures AllWithin(kept, lo, hi) <==> Below(s, lo) <= k && Above(s, hi) <= k
  {
    var last := |s| - k - 1;
    BelowInSorted(s, lo, k);
    AboveInSorted(s, hi, last);
    assert kept[0] == s[k] && kept[|kept| - 1] == s[last];
    forall i | 0 <= i < |kept| ensures s[k] <= kept[i] <= s[last] {
      assert k < k + i ==> AtMost(s[k], s[k + i]);
      assert k + i < last ==> AtMost(s[k + i], s[last]);
    }
  }

  lemma {:induction false} SumWithin(s: seq<real>, lo: real, hi: real)
    requires AllWithin(s, lo, hi)
    ensures |s| as real * lo <= Sum(s) <= |s| as real * hi
  {
    if s == [] {
    } else {
      SumWithin(s[1..], lo, hi);
    }
  }

  lemma MulOrder(a: real, b: real, n: real)
    requires n > 0.0
    ensures a < b <==> n * a < n * b
    ensures a <= b <==> n * a <= n * b
  {
  }

  lemma MeanWithin(sum: real, n: real, lo: real, hi: real)
    requires n > 0.0 && n * lo <= sum <= n * hi
    ensures lo <= sum / n <= hi
  {
    var q := sum / n;
    assert n * q == sum;
    MulOrder(lo, q, n);
    MulOrder(q, hi, n);
  }

  lemma MeanOfKeptWithin(column: seq<real>, k: nat, lo: real, hi: real)
    requires 2 * k < |column| && Below(column, lo) <= k && Above(column, hi) <= k
    ensures lo <= Mean(Kept(column, k)) <= hi
    ensures |column| == 1 ==> Mean(Kept(column, k)) == column[0]
  {
    var kept := Kept(column, k);
    KeptWithinExactly(column, k, lo, hi);
    SumWithin(kept, lo, hi);
    MeanWithin(Sum(kept), |kept| as real, lo, hi);
    if |column| == 1 { KeptOfOne(column); }
  }

  lemma KeptOfOne(column: seq<real>)
    requires |column| == 1
    ensures Mean(Kept(column, 0)) == column[0]
  {
    SortOfSorted(AtMost, column);
    assert Kept(column, 0) == column && column[1..] == [];
    assert Sum(column) == column[0];
  }

  /** The result as a plain average: in ascending order `k` values are dropped at each end,
      `k` being the whole part of the trimmed share, and the others are summed and divided. */
  lemma ColumnIsAverage(column: seq<real>, trim: real, k: nat) returns (sorted: seq<real>, sums: seq<real>)
    requires column != [] && IsShare(|column|, trim, k)
    ensures 2 * k < |column| && multiset(sorted) == multiset(column) && |sorted| == |column|
    ensures forall i, j :: 0 <= i < j < |sorted| ==> sorted[i] <= sorted[j]
    ensures IsSumOf(sums, sorted[k..|sorted| - k], TrimColumn(column, trim))
  {
    sorted := SortedColumn(column);
    ColumnIsMean(column, trim, k);
    sums := MeanSums(sorted[k..|sorted| - k]);
  }

  /** `k` is the whole part of the share of `n` that is trimmed at each end, at most 49 percent. */
  ghost predicate IsShare(n: nat, trim: real, k: nat) {
    k == (n as real * if trim < 0.0 then 0.0 else if trim > 0.49 then 0.49 else trim).Floor
  }

  lemma SortedColumn(column: seq<real>) returns (sorted: seq<real>)
    ensures sorted == Sort(AtMost, column) && multiset(sorted) == multiset(column) && |sorted| == |column|
    ensures forall i, j :: 0 <= i < j < |sorted| ==> sorted[i] <= sorted[j]
  {
    sorted := Sort(AtMost, column);
    SortMultiset(AtMost, column);
    SortSorted(AtMost, column);
    forall i, j | 0 <= i < j < |sorted| ensures sorted[i] <= sorted[j] { assert AtMost(sorted[i], sorted[j]); }
  }

  /** `sums` adds up `s`, and the total is `average` times its length. */
  ghost predicate IsSumOf(sums: seq<real>, s: seq<real>, average: real) {
    && |sums| == |s| + 1 && sums[0] == 0.0
    && (forall i :: 0 <= i < |s| ==> sums[i + 1] == sums[i] + s[i])
    && IsAverage(average, |s| as real, sums[|s|])
  }

  ghost predicate IsAverage(average: real, n: real, total: real) {
    average * n == total
  }

  lemma ColumnIsMean(column: seq<real>, trim: real, k: nat)
    requires column != [] && IsShare(|column|, trim, k)
    ensures 2 * k < |column| && TrimColumn(column, trim) == Mean(Kept(column, k))
  {
    TrimCountIsFloor(|column|, trim);
    assert TrimCount(|column|, trim) == k;
    if |column| == 1 { KeptOfOne(column); }
  }

  lemma MeanSums(s: seq<real>) returns (sums: seq<real>)
    requires s != []
    ensures IsSumOf(sums, s, Mean(s))
  {
    sums := RunningSums(s);
  }

  lemma {:induction false} SumSnoc(s: seq<real>, x: real)
    ensures Sum(s + [x]) == Sum(s) + x
  {
    if s == [] {
    } else {
      assert (s + [x])[1..] == s[1..] + [x];
      SumSnoc(s[1..], x);
    }
  }

  lemma {:induction false} RunningSums(s: seq<real>) returns (sums: seq<real>)
    ensures |sums| == |s| + 1 && sums[0] == 0.0 && sums[|s|] == Sum(s)
    ensures forall i :: 0 <= i < |s| ==> sums[i + 1] == sums[i] + s[i]
  {
    if s == [] {
      sums := [0.0];
    } else {
      var front, x := s[..|s| - 1], s[|s| - 1];
      assert s == front + [x];
      var before := RunningSums(front);
      SumSnoc(front, x);
      sums := before + [Sum(s)];
    }
  }

  /** Robustness in one coordinate: up to `k` wild values on either side do not move the
      result out of the range of the others. */
  lemma TrimColumnWithin(column: seq<real>, trim: real, lo: real, hi: real)
    requires column != []
    requires var k := TrimCount(|column|, trim); Below(column, lo) <= k && Above(column, hi) <= k
    ensures lo <= TrimColumn(column, trim) <= hi
  {
    MeanOfKeptWithin(column, TrimCount(|column|, trim), lo, hi);
  }

  /** In every coordinate of the result. */
  lemma Robust(vectors: seq<seq<real>>, trim: real, lo: real, hi: real, j: nat)
    requires vectors != [] && SameShape(vectors) && j < |vectors[0]|
    requires var k := TrimCount(|vectors|, trim);
      Below(Column(vectors, j), lo) <= k && Above(Column(vectors, j), hi) <= k
    ensures lo <= TrimmedMean(vectors, trim).value[j] <= hi
  {
    TrimColumnWithin(Column(vectors, j), trim, lo, hi);
  }

  lemma SameColumn(a: seq<real>, b: seq<real>, trim: real)
    requires a != [] && multiset(a) == multiset(b)
    ensures b != [] && TrimColumn(a, trim) == TrimColumn(b, trim)
  {
    SameLength(a, b);
    if |a| == 1 {
      assert a == [a[0]] && b == [b[0]] && a[0] in multiset(b);
    } else {
      SameKept(a, b, TrimCount(|a|, trim));
    }
  }

  lemma SameKept(a: seq<real>, b: seq<real>, k: nat)
    requires multiset(a) == multiset(b) && |a| == |b| && 2 * k < |a|
    ensures Kept(a, k) == Kept(b, k)
  {
    SameSorted(a, b);
  }

  function Without<T>(s: seq<T>, i: nat): (r: seq<T>)
    requires i < |s|
    ensures multiset(s) == multiset(r) + multiset{s[i]}
  {
    assert s == s[..i] + [s[i]] + s[i + 1..];
    s[..i] + s[i + 1..]
  }

  lemma ColumnWithout(vectors: seq<seq<real>>, i: nat, j: nat, rest: seq<seq<real>>)
    requires SameShape(vectors) && i < |vectors| && j < |vectors[0]| && rest == Without(vectors, i)
    ensures SameShape(rest) && (rest != [] ==> |rest[0]| == |vectors[0]|)
    ensures multiset(Column(vectors, j)) == multiset(Column(rest, j)) + multiset{vectors[i][j]}
  {
    assert Column(rest, j) == Without(Column(vectors, j), i);
  }

  /** Reordering the vectors reorders every column. */
  lemma {:induction false} ColumnsReordered(a: seq<seq<real>>, b: seq<seq<real>>, j: nat)
    requires SameShape(a) && SameShape(b) && multiset(a) == multiset(b)
    requires (a != [] ==> j < |a[0]|) && (b != [] ==> j < |b[0]|)
    ensures multiset(Column(a, j)) == multiset(Column(b, j))
    decreases |a|
  {
    SameLength(a, b);
    if a == [] {
    } else {
      assert a[0] in multiset(b);
      var i :| 0 <= i < |b| && b[i] == a[0];
      var c, d := Without(a, 0), Without(b, i);
      ColumnWithout(a, 0, j, c);
      ColumnWithout(b, i, j, d);
      SameRest(multiset(c), multiset(d), a[0]);
      ColumnsReordered(c, d, j);
    }
  }

  lemma SameRest<T>(a: multiset<T>, b: multiset<T>, x: T)
    requires a + multiset{x} == b + multiset{x}
    ensures a == b
  {
    assert a == (a + multiset{x}) - multiset{x};
    assert b == (b + multiset{x}) - multiset{x};
  }

  lemma SameLength<T>(a: seq<T>, b: seq<T>)
    requires multiset(a) == multiset(b)
    ensures |a| == |b|
  {
    assert |multiset(a)| == |a| && |multiset(b)| == |b|;
  }

  lemma SameShapes(a: seq<seq<real>>, b: seq<seq<real>>)
    requires multiset(a) == multiset(b) && a != [] && SameShape(a)
    ensures b != [] && SameShape(b) && |b[0]| == |a[0]|
  {
    SameLength(a, b);
    forall i | 0 <= i < |b| ensures |b[i]| == |a[0]| {
      assert b[i] in multiset(b) && b[i] in multiset(a);
    }
  }

  /** The result does not depend on the order of the vectors: the same refusal, or the same
      vector. */
  lemma OrderDoesNotMatter(a: seq<seq<real>>, b: seq<seq<real>>, trim: real)
    requires multiset(a) == multiset(b)
    ensures TrimmedMean(a, trim) == TrimmedMean(b, trim)
  {
    SameLength(a, b);
    if a != [] && SameShape(a) {
      SameShapes(a, b);
      var x, y := TrimmedMean(a, trim).value, TrimmedMean(b, trim).value;
      forall j | 0 <= j < |a[0]| ensures x[j] == y[j] {
        ColumnsReordered(a, b, j);
        SameColumn(Column(a, j), Column(b, j), trim);
      }
      assert x == y;
    } else if a != [] && SameShape(b) {
      SameShapes(b, a);
    }
  }

  lemma SameSorted(a: seq<real>, b: seq<real>)
    requires multiset(a) == multiset(b)
    ensures Sort(AtMost, a) == Sort(AtMost, b)
  {
    SortMultiset(AtMost, a);
    SortMultiset(AtMost, b);
    SortSorted(AtMost, a);
    SortSorted(AtMost, b);
    SortedUnique(AtMost, Sort(AtMost, a), Sort(AtMost, b));
  }
}
