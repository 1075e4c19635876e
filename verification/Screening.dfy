/** Screening retrieval: the top rows of every view of the resumes, merged by best
    score, trimmed to a pool, ranked, and cut to a shortlist. */
module Screening {
  import opened Wrappers
  import opened StableSort

  /** A resume's identifier, in the order of its text form. */
  type Id = nat

  /** One view type's distances: all resumes of the opening that have this view embedded. */
  type Table = map<Id, real>

  datatype Row = Row(id: Id, distance: real)

  datatype Candidate = Candidate(id: Id, view: string, score: real)

  function Score(distance: real): (r: real) {
    if 1.0 - distance > 0.0 then 1.0 - distance else 0.0
  }

  // ------------------------------------------------------------------ the database

  /** What a query ordered by distance and limited to `k` rows may answer: ties are the database's choice. */
  ghost predicate TopRows(table: Table, k: nat, rows: seq<Row>) {
    && |rows| == (if |table| < k then |table| else k)
    && (forall i :: 0 <= i < |rows| ==> rows[i].id in table && rows[i].distance == table[rows[i].id])
    && (forall i, j :: 0 <= i < j < |rows| ==> rows[i].id != rows[j].id)
    && (forall i, j :: 0 <= i < j < |rows| ==> rows[i].distance <= rows[j].distance)
    && (forall id, i :: id in table && 0 <= i < |rows| && !HasRow(rows, id) ==> rows[i].distance <= table[id])
  }

  predicate HasRow(rows: seq<Row>, id: Id) {
    exists i :: 0 <= i < |rows| && rows[i].id == id
  }

  ghost predicate Retrieved(tables: seq<Table>, k: nat, rows: seq<seq<Row>>) {
    |rows| == |tables| && forall v :: 0 <= v < |tables| ==> TopRows(tables[v], k, rows[v])
  }

  // ------------------------------------------------------------------ merging

  /** Row `j` of view `v` is among the first `n` views, or the first `m` rows of the next one. */
  predicate Before(v: int, j: int, n: int, m: int) {
    v < n || (v == n && j < m)
  }

  ghost predicate Seen(rows: seq<seq<Row>>, v: int, j: int, n: int, m: int) {
    0 <= v < |rows| && 0 <= j < |rows[v]| && Before(v, j, n, m)
  }

  /** A candidate records the best score seen for its resume, and the first view that has it. */
  ghost predicate Records(views: seq<string>, rows: seq<seq<Row>>, n: int, m: int, c: Candidate)
    requires |views| == |rows|
  {
    && (exists v, j :: Seen(rows, v, j, n, m) && rows[v][j].id == c.id && views[v] == c.view
                    && Score(rows[v][j].distance) == c.score && FirstToReach(rows, v, c))
    && (forall v, j :: Seen(rows, v, j, n, m) && rows[v][j].id == c.id ==> Score(rows[v][j].distance) <= c.score)
  }

  ghost predicate FirstToReach(rows: seq<seq<Row>>, v: int, c: Candidate) {
    forall u, i :: 0 <= u < v && u < |rows| && 0 <= i < |rows[u]| && rows[u][i].id == c.id ==>
      Score(rows[u][i].distance) < c.score
  }

  ghost predicate Merged(views: seq<string>, rows: seq<seq<Row>>, n: int, m: int, best: map<Id, Candidate>)
    requires |views| == |rows|
  {
    && (forall id :: id in best ==> best[id].id == id && Records(views, rows, n, m, best[id]))
    && (forall v, j :: Seen(rows, v, j, n, m) ==> rows[v][j].id in best)
  }

  method MergeViews(views: seq<string>, rows: seq<seq<Row>>) returns (best: map<Id, Candidate>)
    requires |views| == |rows|
    requires forall v :: 0 <= v < |rows| ==> forall i, j :: 0 <= i < j < |rows[v]| ==> rows[v][i].id != rows[v][j].id
    ensures Merged(views, rows, |rows|, 0, best)
  {
    best := map[];
    for v := 0 to |rows|
      invariant Merged(views, rows, v, 0, best)
    {
      for j := 0 to |rows[v]|
        invariant Merged(views, rows, v, j, best)
      {
        var row := rows[v][j];
        var score := Score(row.distance);
        ghost var was := best;
        if row.id !in best || score > best[row.id].score {
          best := best[row.id := Candidate(row.id, views[v], score)];
        }
        MergeStep(views, rows, v, j, was, best);
      }
      NextView(views, rows, v, best);
    }
  }

  lemma NextView(views: seq<string>, rows: seq<seq<Row>>, v: int, best: map<Id, Candidate>)
    requires |views| == |rows| && 0 <= v < |rows| && Merged(views, rows, v, |rows[v]|, best)
    ensures Merged(views, rows, v + 1, 0, best)
  {
    assert forall u, i :: Seen(rows, u, i, v + 1, 0) <==> Seen(rows, u, i, v, |rows[v]|);
    forall id | id in best ensures Records(views, rows, v + 1, 0, best[id]) {
      var c := best[id];
      var u, i :| Seen(rows, u, i, v, |rows[v]|) && rows[u][i].id == c.id && views[u] == c.view
               && Score(rows[u][i].distance) == c.score && FirstToReach(rows, u, c);
      assert Seen(rows, u, i, v + 1, 0);
    }
  }

  lemma MergeStep(views: seq<string>, rows: seq<seq<Row>>, v: int, j: int, was: map<Id, Candidate>, best: map<Id,
                  Candidate>)
    requires |views| == |rows| && 0 <= v < |rows| && 0 <= j < |rows[v]| && Merged(views, rows, v, j, was)
    requires forall a, b :: 0 <= a < b < |rows[v]| ==> rows[v][a].id != rows[v][b].id
    requires var row, score := rows[v][j], Score(rows[v][j].distance);
      best == if row.id !in was || score > was[row.id].score
              then was[row.id := Candidate(row.id, views[v], score)] else was
    ensures Merged(views, rows, v, j + 1, best)
  {
    forall u, i | Seen(rows, u, i, v, j + 1) ensures rows[u][i].id in best {
      if u != v || i != j { assert Seen(rows, u, i, v, j); }
    }
    forall id | id in best ensures best[id].id == id && Records(views, rows, v, j + 1, best[id]) {
      var row := rows[v][j];
      assert id != row.id ==> id in was && best[id] == was[id];
      assert id in was ==> was[id].id == id;
      RecordStep(views, rows, v, j, id, was, best[id]);
    }
  }

  lemma RecordStep(views: seq<string>, rows: seq<seq<Row>>, v: int, j: int, id: Id, was: map<Id, Candidate>,
                   c: Candidate)
    requires |views| == |rows| && 0 <= v < |rows| && 0 <= j < |rows[v]| && Merged(views, rows, v, j, was)
    requires c.id == id
    requires var row, score := rows[v][j], Score(rows[v][j].distance);
      if row.id == id && (id !in was || score > was[id].score) then c == Candidate(id, views[v], score)
      else id in was && c == was[id]
    ensures Records(views, rows, v, j + 1, c)
  {
    var row, score := rows[v][j], Score(rows[v][j].distance);
    forall u, i | Seen(rows, u, i, v, j + 1) && rows[u][i].id == id ensures Score(rows[u][i].distance) <= c.score {
      if u != v || i != j { assert Seen(rows, u, i, v, j); }
    }
    if row.id == id && (id !in was || score > was[id].score) {
      assert Seen(rows, v, j, v, j + 1);
      forall u, i | 0 <= u < v && 0 <= i < |rows[u]| && rows[u][i].id == id ensures Score(rows[u][i].distance) < score {
        assert Seen(rows, u, i, v, j);
      }
      assert FirstToReach(rows, v, c);
    } else {
      var u, i :| Seen(rows, u, i, v, j) && rows[u][i].id == c.id && views[u] == c.view
               && Score(rows[u][i].distance) == c.score && FirstToReach(rows, u, c);
      assert Seen(rows, u, i, v, j + 1);
    }
  }

  // ------------------------------------------------------------------ ranking

  predicate ByScore(a: Candidate, b: Candidate) {
    a.score > b.score || (a.score == b.score && a.id <= b.id)
  }

  /** The merged candidates in rank order. */
  ghost predicate IsRanking(best: map<Id, Candidate>, ranked: seq<Candidate>) {
    && Sorted(ByScore, ranked)
    && (forall c :: c in ranked <==> c.id in best && c == best[c.id])
    && (forall i, j :: 0 <= i < j < |ranked| ==> ranked[i].id != ranked[j].id)
  }

  method Rank(best: map<Id, Candidate>) returns (ranked: seq<Candidate>)
    requires forall id :: id in best ==> best[id].id == id
    ensures IsRanking(best, ranked)
  {
    var todo := best.Keys;
    var all: seq<Candidate> := [];
    while todo != {}
      invariant todo <= best.Keys
      invariant forall c :: c in all <==> c.id in best && c.id !in todo && c == best[c.id]
      invariant NoDup(all)
      decreases todo
    {
      var id := Pick(todo);
      assert best[id] !in all;
      all := all + [best[id]];
      todo := todo - {id};
    }
    ranked := Sort(ByScore, all);
    SortSorted(ByScore, all);
    SortElems(ByScore, all);
    SortNoDup(ByScore, all);
    forall i, j | 0 <= i < j < |ranked| ensures ranked[i].id != ranked[j].id {
      assert ranked[i] in ranked && ranked[j] in ranked;
    }
  }

  lemma SortNoDup<T>(le: (T, T) -> bool, all: seq<T>)
    requires NoDup(all)
    ensures NoDup(Sort(le, all))
  {
    SortMultiset(le, all);
    SortElems(le, all);
    NoDupCardinality(all);
    assert Elems(Sort(le, all)) == Elems(all);
    NoDupByCount(Sort(le, all));
  }

  // ------------------------------------------------------------- the global top

  ghost function Ids(rows: seq<Row>): (r: set<Id>) {
    set row | row in rows :: row.id
  }

  lemma {:induction false} IdsOfRows(rows: seq<Row>)
    requires forall i, j :: 0 <= i < j < |rows| ==> rows[i].id != rows[j].id
    ensures |Ids(rows)| == |rows|
  {
    if rows == [] {
    } else {
      var front, row := rows[..|rows| - 1], rows[|rows| - 1];
      assert rows == front + [row];
      IdsOfRows(front);
      assert Ids(rows) == Ids(front) + {row.id};
      assert row.id !in Ids(front) by {
        forall other | other in front ensures other.id != row.id {
          var i :| 0 <= i < |front| && front[i] == other;
          assert rows[i].id != rows[|rows| - 1].id;
        }
      }
    }
  }

  ghost function RankedIds(ranked: seq<Candidate>): (r: set<Id>)
    ensures |r| <= |ranked|
  {
    if ranked == [] then {} else RankedIds(ranked[..|ranked| - 1]) + {ranked[|ranked| - 1].id}
  }

  lemma {:induction false} RankedIdsHas(ranked: seq<Candidate>, i: nat)
    requires i < |ranked|
    ensures ranked[i].id in RankedIds(ranked)
  {
    if i == |ranked| - 1 {
    } else {
      RankedIdsHas(ranked[..|ranked| - 1], i);
    }
  }

  /** If `k` resumes are ranked with at least score `x`, the first `k` ranks have at least `x`. */
  lemma ManyAbove(best: map<Id, Candidate>, ranked: seq<Candidate>, above: set<Id>, x: real, i: nat)
    requires IsRanking(best, ranked) && i < |above|
    requires forall id :: id in above ==> id in best && best[id].score >= x && best[id].id == id
    ensures i < |ranked| && ranked[i].score >= x
  {
    if i >= |ranked| || ranked[i].score < x {
      var top := if i < |ranked| then ranked[..i] else ranked;
      forall id | id in above ensures id in RankedIds(top) {
        assert best[id] in ranked;
        var j :| 0 <= j < |ranked| && ranked[j] == best[id];
        assert i < |ranked| && i < j ==> ByScore(ranked[i], ranked[j]);
        assert top[j] == ranked[j];
        RankedIdsHas(top, j);
      }
      SubsetSize(above, RankedIds(top));
      assert false;
    }
  }

  lemma SubsetSize(a: set<Id>, b: set<Id>)
    requires a <= b
    ensures |a| <= |b|
  {
    assert b == a + (b - a);
  }

  /** A score that the retrieval of its view cut off is no better than the first `k` ranks. */
  lemma CutOffIsLower(tables: seq<Table>, k: nat, views: seq<string>, rows: seq<seq<Row>>,
                      best: map<Id, Candidate>, ranked: seq<Candidate>, v: int, id: Id, i: nat)
    requires Retrieved(tables, k, rows) && |views| == |rows| && Merged(views, rows, |rows|, 0, best)
    requires IsRanking(best, ranked)
    requires 0 <= v < |tables| && id in tables[v] && !HasRow(rows[v], id) && i < k
    ensures i < |ranked| && Score(tables[v][id]) <= ranked[i].score
  {
    var above := Ids(rows[v]);
    CutOffRows(tables[v], k, rows[v], id);
    forall other | other in above
      ensures other in best && best[other].score >= Score(tables[v][id]) && best[other].id == other
    {
      var row :| row in rows[v] && row.id == other;
      var j :| 0 <= j < |rows[v]| && rows[v][j] == row;
      assert Seen(rows, v, j, |rows|, 0);
      assert Records(views, rows, |rows|, 0, best[other]);
    }
    ManyAbove(best, ranked, above, Score(tables[v][id]), i);
  }

  /** A query that cut something off returned `k` different resumes, none of them farther away. */
  lemma CutOffRows(table: Table, k: nat, rows: seq<Row>, id: Id)
    requires TopRows(table, k, rows) && id in table && !HasRow(rows, id)
    ensures |Ids(rows)| == k
    ensures forall i :: 0 <= i < |rows| ==> Score(rows[i].distance) >= Score(table[id])
  {
    IdsOfRows(rows);
    assert id !in Ids(rows) by {
      forall row | row in rows ensures row.id != id {
        var i :| 0 <= i < |rows| && rows[i] == row;
      }
    }
    assert Ids(rows) <= table.Keys by {
      forall row | row in rows ensures row.id in table {
        var i :| 0 <= i < |rows| && rows[i] == row;
      }
    }
    StrictSubsetSize(Ids(rows), table.Keys);
    assert |table.Keys| == |table|;
  }

  lemma StrictSubsetSize(a: set<Id>, b: set<Id>)
    requires a < b
    ensures |a| < |b|
  {
    assert b == a + (b - a) && b - a != {};
  }

  /** The recorded score is the resume's true best over all its views. */
  ghost predicate IsBest(tables: seq<Table>, id: Id, score: real) {
    && (exists v :: 0 <= v < |tables| && id in tables[v] && Score(tables[v][id]) == score)
    && (forall v :: 0 <= v < |tables| && id in tables[v] ==> Score(tables[v][id]) <= score)
  }

  lemma TopIsExact(tables: seq<Table>, k: nat, views: seq<string>, rows: seq<seq<Row>>,
                   best: map<Id, Candidate>, ranked: seq<Candidate>, i: nat)
    requires Retrieved(tables, k, rows) && |views| == |rows| && Merged(views, rows, |rows|, 0, best)
    requires IsRanking(best, ranked) && i < |ranked| && i < k
    ensures IsBest(tables, ranked[i].id, ranked[i].score)
  {
    var c := ranked[i];
    assert c in ranked && Records(views, rows, |rows|, 0, c);
    var u, j :| Seen(rows, u, j, |rows|, 0) && rows[u][j].id == c.id && views[u] == c.view
             && Score(rows[u][j].distance) == c.score && FirstToReach(rows, u, c);
    assert TopRows(tables[u], k, rows[u]);
    assert c.id in tables[u] && Score(tables[u][c.id]) == c.score;
    forall v | 0 <= v < |tables| && c.id in tables[v] ensures Score(tables[v][c.id]) <= c.score {
      RetrievedOrLower(tables, k, views, rows, best, ranked, v, c.id, i);
    }
  }

  /** A view of a resume: its row was merged, or its score is no better than rank `i`. */
  lemma RetrievedOrLower(tables: seq<Table>, k: nat, views: seq<string>, rows: seq<seq<Row>>,
                         best: map<Id, Candidate>, ranked: seq<Candidate>, v: int, id: Id, i: nat)
    requires Retrieved(tables, k, rows) && |views| == |rows| && Merged(views, rows, |rows|, 0, best)
    requires IsRanking(best, ranked) && i < |ranked| && i < k && 0 <= v < |tables| && id in tables[v]
    ensures Score(tables[v][id]) <= ranked[i].score || (id in best && Score(tables[v][id]) <= best[id].score)
  {
    if HasRow(rows[v], id) {
      var j :| 0 <= j < |rows[v]| && rows[v][j].id == id;
      assert TopRows(tables[v], k, rows[v]);
      assert Seen(rows, v, j, |rows|, 0);
      assert Records(views, rows, |rows|, 0, best[id]);
    } else {
      CutOffIsLower(tables, k, views, rows, best, ranked, v, id, i);
    }
  }

  predicate LeftOut(ranked: seq<Candidate>, m: nat, id: Id)
    requires m <= |ranked|
  {
    forall j :: 0 <= j < m ==> ranked[j].id != id
  }

  /** The truncated retrieval is exact at the top: with at most `k` ranks looked at, the
      scores are the resumes' true best scores, and no resume of the opening that is left
      out, retrieved or not, has a better one. With fewer than `k` ranked, none is left out. */
  lemma GlobalTop(tables: seq<Table>, k: nat, views: seq<string>, rows: seq<seq<Row>>,
                  best: map<Id, Candidate>, ranked: seq<Candidate>, m: nat)
    requires Retrieved(tables, k, rows) && |views| == |rows| && Merged(views, rows, |rows|, 0, best)
    requires IsRanking(best, ranked) && m <= |ranked| && m <= k
    ensures forall i :: 0 <= i < m ==> IsBest(tables, ranked[i].id, ranked[i].score)
    ensures forall i, v, id :: 0 <= i < m && 0 <= v < |tables| && id in tables[v] && LeftOut(ranked, m, id) ==>
              Score(tables[v][id]) <= ranked[i].score
    ensures |ranked| < k ==> forall v, id :: 0 <= v < |tables| && id in tables[v] ==> id in best
  {
    forall i | 0 <= i < m ensures IsBest(tables, ranked[i].id, ranked[i].score) {
      TopIsExact(tables, k, views, rows, best, ranked, i);
    }
    forall i, v, id | 0 <= i < m && 0 <= v < |tables| && id in tables[v] && LeftOut(ranked, m, id)
      ensures Score(tables[v][id]) <= ranked[i].score
    {
      LeftOutIsLower(tables, k, views, rows, best, ranked, m, i, v, id);
    }
    if |ranked| < k {
      forall v, id | 0 <= v < |tables| && id in tables[v] ensures id in best {
        if HasRow(rows[v], id) {
          var j :| 0 <= j < |rows[v]| && rows[v][j].id == id;
          assert Seen(rows, v, j, |rows|, 0);
        } else {
          CutOffIsLower(tables, k, views, rows, best, ranked, v, id, |ranked|);
        }
      }
    }
  }

  lemma LeftOutIsLower(tables: seq<Table>, k: nat, views: seq<string>, rows: seq<seq<Row>>,
                       best: map<Id, Candidate>, ranked: seq<Candidate>, m: nat, i: nat, v: int, id: Id)
    requires Retrieved(tables, k, rows) && |views| == |rows| && Merged(views, rows, |rows|, 0, best)
    requires IsRanking(best, ranked) && i < m <= |ranked| && m <= k && 0 <= v < |tables| && id in tables[v]
    requires LeftOut(ranked, m, id)
    ensures Score(tables[v][id]) <= ranked[i].score
  {
    RetrievedOrLower(tables, k, views, rows, best, ranked, v, id, i);
    if id in best {
      assert best[id] in ranked;
      var j :| 0 <= j < |ranked| && ranked[j] == best[id];
      assert i < j && ByScore(ranked[i], ranked[j]);
    }
  }

  /** The least distance of a resume over its views. */
  ghost predicate IsLeast(tables: seq<Table>, id: Id, d: real) {
    && (exists v :: 0 <= v < |tables| && id in tables[v] && tables[v][id] == d)
    && (forall v :: 0 <= v < |tables| && id in tables[v] ==> d <= tables[v][id])
  }

  ghost predicate HasLeast(tables: seq<Table>, id: Id) {
    exists d :: IsLeast(tables, id, d)
  }

  /** The best score belongs to the least distance. */
  lemma BestIsLeast(tables: seq<Table>, id: Id, score: real) returns (d: real)
    requires IsBest(tables, id, score)
    ensures IsLeast(tables, id, d) && score == (if d < 1.0 then 1.0 - d else 0.0)
  {
    var u :| 0 <= u < |tables| && id in tables[u] && Score(tables[u][id]) == score;
    d := LeastOf(tables, id, u, |tables|);
    assert score == (if d < 1.0 then 1.0 - d else 0.0) by {
      var v :| 0 <= v < |tables| && id in tables[v] && tables[v][id] == d;
      assert d <= tables[u][id] && Score(tables[v][id]) <= score;
    }
  }

  lemma {:induction false} LeastOf(tables: seq<Table>, id: Id, u: nat, n: nat) returns (d: real)
    requires u < |tables| && id in tables[u] && n <= |tables|
    ensures exists v :: 0 <= v < |tables| && id in tables[v] && tables[v][id] == d
    ensures d <= tables[u][id] && forall v :: 0 <= v < n && id in tables[v] ==> d <= tables[v][id]
  {
    if n == 0 {
      d := tables[u][id];
    } else {
      d := LeastOf(tables, id, u, n - 1);
      if id in tables[n - 1] && tables[n - 1][id] < d { d := tables[n - 1][id]; }
    }
  }

  lemma LeastIsUnique(tables: seq<Table>, id: Id, d: real, e: real)
    requires IsLeast(tables, id, d) && IsLeast(tables, id, e)
    ensures d == e
  {
  }

  /** The top in distances: each of the first ranks has a least distance over all the
      resume's views, and the score made of it. A nearer resume ranks first, those from
      distance 1 on count as equally far, and equals stand by identifier. A view of a
      resume that is left out is no nearer. */
  lemma GlobalTopInDistances(tables: seq<Table>, k: nat, views: seq<string>, rows: seq<seq<Row>>,
                             best: map<Id, Candidate>, ranked: seq<Candidate>, m: nat)
    requires Retrieved(tables, k, rows) && |views| == |rows| && Merged(views, rows, |rows|, 0, best)
    requires IsRanking(best, ranked) && m <= |ranked| && m <= k
    ensures forall i :: 0 <= i < m ==> HasLeast(tables, ranked[i].id)
    ensures forall i, d :: 0 <= i < m && IsLeast(tables, ranked[i].id, d) ==>
      ranked[i].score == if d < 1.0 then 1.0 - d else 0.0
    ensures forall i, d :: 0 <= i < m && IsLeast(tables, ranked[i].id, d) && d < 1.0 ==>
      exists v :: 0 <= v < |tables| && ranked[i].id in tables[v] && tables[v][ranked[i].id] == d
               && views[v] == ranked[i].view
    ensures forall i, j, d, e
      | 0 <= i < j < m && IsLeast(tables, ranked[i].id, d) && IsLeast(tables, ranked[j].id, e) ::
      (d < e && d < 1.0) || ((d == e || (d >= 1.0 && e >= 1.0)) && ranked[i].id < ranked[j].id)
    ensures forall i, d, v, id | 0 <= i < m && IsLeast(tables, ranked[i].id, d) && 0 <= v < |tables| ::
      id in tables[v] && LeftOut(ranked, m, id) ==> d <= tables[v][id] || (d >= 1.0 && tables[v][id] >= 1.0)
  {
    GlobalTop(tables, k, views, rows, best, ranked, m);
    forall i | 0 <= i < m ensures HasLeast(tables, ranked[i].id) {
      var d := BestIsLeast(tables, ranked[i].id, ranked[i].score);
      assert IsLeast(tables, ranked[i].id, d);
    }
    forall i, d | 0 <= i < m && IsLeast(tables, ranked[i].id, d)
      ensures ranked[i].score == if d < 1.0 then 1.0 - d else 0.0
    {
      var e := BestIsLeast(tables, ranked[i].id, ranked[i].score);
      LeastIsUnique(tables, ranked[i].id, d, e);
    }
    forall i, d | 0 <= i < m && IsLeast(tables, ranked[i].id, d) && d < 1.0
      ensures exists v :: 0 <= v < |tables| && ranked[i].id in tables[v] && tables[v][ranked[i].id] == d
                       && views[v] == ranked[i].view
    {
      ViewIsNearest(tables, k, views, rows, best, ranked[i], d);
    }
    forall i, j, d, e | 0 <= i < j < m && IsLeast(tables, ranked[i].id, d) && IsLeast(tables, ranked[j].id, e)
      ensures (d < e && d < 1.0) || ((d == e || (d >= 1.0 && e >= 1.0)) && ranked[i].id < ranked[j].id)
    {
      assert ByScore(ranked[i], ranked[j]);
    }
  }

  /** The view a candidate records is one in which it is nearest. */
  lemma ViewIsNearest(tables: seq<Table>, k: nat, views: seq<string>, rows: seq<seq<Row>>,
                      best: map<Id, Candidate>, c: Candidate, d: real)
    requires Retrieved(tables, k, rows) && |views| == |rows| && Merged(views, rows, |rows|, 0, best)
    requires c.id in best && c == best[c.id] && d < 1.0 && c.score == 1.0 - d
    ensures exists v :: 0 <= v < |tables| && c.id in tables[v] && tables[v][c.id] == d && views[v] == c.view
  {
    var v, j :| Seen(rows, v, j, |rows|, 0) && rows[v][j].id == c.id && views[v] == c.view
             && Score(rows[v][j].distance) == c.score && FirstToReach(rows, v, c);
    assert TopRows(tables[v], k, rows[v]);
  }

  // ----------------------------------------------------------------- the shortlist

  function Clamp(x: real): (r: real) {
    if x < 0.0 then 0.0 else if x > 1.0 then 1.0 else x
  }

  datatype Final = Final(candidate: Candidate, score: real)

  predicate ByFinal(a: Final, b: Final) {
    || a.score > b.score
    || (a.score == b.score && ByScore(a.candidate, b.candidate))
  }

  /** The final score of a candidate: what reranking blends, or the clamped retrieval score. */
  function FinalOf(blend: Option<Candidate -> real>, c: Candidate): (r: Final) {
    Final(c, if blend.Some? then blend.value(c) else Clamp(c.score))
  }

  method ScorePool(pool: seq<Candidate>, blend: Option<Candidate -> real>) returns (finals: seq<Final>)
    ensures |finals| == |pool| && forall i :: 0 <= i < |pool| ==> finals[i] == FinalOf(blend, pool[i])
  {
    finals := [];
    for i := 0 to |pool|
      invariant |finals| == i && forall j :: 0 <= j < i ==> finals[j] == FinalOf(blend, pool[j])
    {
      finals := finals + [FinalOf(blend, pool[i])];
    }
  }

  /** The best of the pool by final score, at most `topN` of them, in order. */
  ghost predicate IsShortlist(pool: seq<Candidate>, blend: Option<Candidate -> real>, topN: nat, winners: seq<Final>) {
    && |winners| == (if topN < |pool| then topN else |pool|) && Sorted(ByFinal, winners) && NoDup(winners)
    && (forall w :: w in winners ==> w.candidate in pool && w == FinalOf(blend, w.candidate))
    && (forall c, w :: c in pool && w in winners && FinalOf(blend, c) !in winners ==> ByFinal(w, FinalOf(blend, c)))
  }

  method Shortlist(pool: seq<Candidate>, blend: Option<Candidate -> real>, topN: nat) returns (winners: seq<Final>)
    requires Sorted(ByScore, pool) && NoDup(pool)
    ensures IsShortlist(pool, blend, topN, winners)
    ensures blend == None ==> forall i :: 0 <= i < |winners| ==> winners[i].candidate == pool[i]
  {
    var finals := ScorePool(pool, blend);
    var sorted := Sort(ByFinal, finals);
    SortMultiset(ByFinal, finals);
    winners := sorted[..if topN < |pool| then topN else |pool|];
    PrefixIsShortlist(pool, blend, topN, finals, winners);
    if blend == None {
      FallbackIsSorted(pool, finals);
      SortOfSorted(ByFinal, finals);
    }
  }

  lemma PrefixIsShortlist(pool: seq<Candidate>, blend: Option<Candidate -> real>, topN: nat, finals: seq<Final>,
                          winners: seq<Final>)
    requires |finals| == |pool| && forall i :: 0 <= i < |pool| ==> finals[i] == FinalOf(blend, pool[i])
    requires |Sort(ByFinal, finals)| == |pool| && NoDup(pool)
    requires winners == Sort(ByFinal, finals)[..if topN < |pool| then topN else |pool|]
    ensures IsShortlist(pool, blend, topN, winners)
  {
    var sorted := Sort(ByFinal, finals);
    SortSorted(ByFinal, finals);
    SortElems(ByFinal, finals);
    assert forall i, j :: 0 <= i < j < |pool| ==> finals[i].candidate != finals[j].candidate;
    SortNoDup(ByFinal, finals);
    forall w | w in winners ensures w.candidate in pool && w == FinalOf(blend, w.candidate) {
      assert w in finals;
    }
    forall c, w | c in pool && w in winners && FinalOf(blend, c) !in winners ensures ByFinal(w, FinalOf(blend, c)) {
      var x :| 0 <= x < |pool| && pool[x] == c;
      assert finals[x] in sorted;
      PrefixIsBetter(sorted, |winners|, w, finals[x]);
    }
  }

  lemma PrefixIsBetter(sorted: seq<Final>, n: nat, w: Final, f: Final)
    requires Sorted(ByFinal, sorted) && n <= |sorted| && w in sorted[..n] && f in sorted && f !in sorted[..n]
    ensures ByFinal(w, f)
  {
    var z :| 0 <= z < n && sorted[z] == w;
    assert sorted == sorted[..n] + sorted[n..];
    var y :| 0 <= y < |sorted| - n && sorted[n..][y] == f;
    assert sorted[n + y] == f;
  }

  function Cut<T>(s: seq<T>, n: nat): (r: seq<T>) {
    if n < |s| then s[..n] else s
  }

  /** Clamping keeps the order, so without a reranker the pool stays as it is. */
  lemma FallbackIsSorted(pool: seq<Candidate>, finals: seq<Final>)
    requires Sorted(ByScore, pool) && |finals| == |pool|
    requires forall i :: 0 <= i < |pool| ==> finals[i] == FinalOf(None, pool[i])
    ensures Sorted(ByFinal, finals)
  {
    forall i, j | 0 <= i < j < |finals| ensures ByFinal(finals[i], finals[j]) {
      assert ByScore(pool[i], pool[j]);
    }
  }

  /** The whole selection, from the rows of the database to the shortlist. */
  method Select(views: seq<string>, rows: seq<seq<Row>>, poolSize: nat, topN: nat, blend: Option<Candidate -> real>)
    returns (best: map<Id, Candidate>, ranked: seq<Candidate>, winners: seq<Final>)
    requires |views| == |rows|
    requires forall v :: 0 <= v < |rows| ==> forall i, j :: 0 <= i < j < |rows[v]| ==> rows[v][i].id != rows[v][j].id
    ensures Merged(views, rows, |rows|, 0, best) && IsRanking(best, ranked)
    ensures IsShortlist(Cut(ranked, poolSize), blend, topN, winners)
    ensures blend == None ==> forall i :: 0 <= i < |winners| ==> winners[i].candidate == ranked[i]
  {
    best := MergeViews(views, rows);
    ranked := Rank(best);
    winners := Shortlist(Cut(ranked, poolSize), blend, topN);
  }

  /** Without a reranker, a shortlist no longer than the retrieval per view is the exact
      global top: true best scores, and nobody left out has a better one. */
  lemma FallbackIsGlobalTop(tables: seq<Table>, k: nat, views: seq<string>, rows: seq<seq<Row>>,
                            best: map<Id, Candidate>, ranked: seq<Candidate>, poolSize: nat, topN: nat,
                            winners: seq<Final>)
    requires Retrieved(tables, k, rows) && |views| == |rows| && Merged(views, rows, |rows|, 0, best)
    requires IsRanking(best, ranked) && topN <= poolSize && topN <= k
    requires IsShortlist(Cut(ranked, poolSize), None, topN, winners)
    requires forall i :: 0 <= i < |winners| ==> winners[i].candidate == ranked[i]
    ensures |winners| == topN || |winners| == |ranked|
    ensures forall w :: w in winners ==> IsBest(tables, w.candidate.id, w.candidate.score)
    ensures forall w, v, id ::
              w in winners && 0 <= v < |tables| && id in tables[v] && LeftOut(ranked, |winners|, id) ==>
              Score(tables[v][id]) <= w.candidate.score
    ensures forall i, d :: 0 <= i < |winners| && IsLeast(tables, ranked[i].id, d) ==>
      winners[i].score == if d <= 0.0 then 1.0 else if d < 1.0 then 1.0 - d else 0.0
  {
    GlobalTop(tables, k, views, rows, best, ranked, |winners|);
    GlobalTopInDistances(tables, k, views, rows, best, ranked, |winners|);
    forall i, d | 0 <= i < |winners| && IsLeast(tables, ranked[i].id, d)
      ensures winners[i].score == if d <= 0.0 then 1.0 else if d < 1.0 then 1.0 - d else 0.0
    {
      assert winners[i] in winners;
    }
  }

  /** The shortlist in scores: what reranking gives a candidate is its final score, a
      higher one comes first, then the higher retrieval score, then the identifier; and
      a candidate of the pool that is not on the list comes after all that are. */
  lemma ShortlistFollowsScores(best: map<Id, Candidate>, ranked: seq<Candidate>, poolSize: nat, topN: nat,
                               blend: Candidate -> real, winners: seq<Final>)
    requires IsRanking(best, ranked) && IsShortlist(Cut(ranked, poolSize), Some(blend), topN, winners)
    ensures forall w :: w in winners ==> w.score == blend(w.candidate)
    ensures NoDup(winners) && |winners| == Least(topN, Least(poolSize, |ranked|))
    ensures forall i, j | 0 <= i < j < |winners| :: var a, b := winners[i].candidate, winners[j].candidate;
      || blend(a) > blend(b)
      || (blend(a) == blend(b) && (a.score > b.score || (a.score == b.score && a.id <= b.id)))
    ensures forall w, i | w in winners && 0 <= i < |ranked| && i < poolSize ::
      (forall z :: z in winners ==> z.candidate != ranked[i]) ==>
        var a, b := w.candidate, ranked[i];
        || blend(a) > blend(b)
        || (blend(a) == blend(b) && (a.score > b.score || (a.score == b.score && a.id <= b.id)))
  {
    var pool := Cut(ranked, poolSize);
    forall i, j | 0 <= i < j < |winners| ensures ByFinal(winners[i], winners[j]) {
    }
    forall i | 0 <= i < |winners| ensures winners[i] == FinalOf(Some(blend), winners[i].candidate) {
      assert winners[i] in winners;
    }
    forall w, i | w in winners && 0 <= i < |ranked| && i < poolSize
        && forall z :: z in winners ==> z.candidate != ranked[i]
      ensures ByFinal(w, FinalOf(Some(blend), ranked[i]))
    {
      assert pool[i] == ranked[i] && ranked[i] in pool;
      assert FinalOf(Some(blend), ranked[i]) !in winners;
    }
  }

  function Least(a: nat, b: nat): (r: nat) {
    if a < b then a else b
  }
}
