/** Monthly ranks of employees, overall and by department, and the leaderboards cut from them. */
module Leaderboard {
  import opened Wrappers
  import opened StableSort
  import opened TextOrder

  datatype MobileRow = MobileRow(
    employee: nat, code: string, department: Option<string>,
    netSales: Option<real>, bills: Option<int>, customers: Option<int>)

  class RankedRow {
    const data: MobileRow
    var rankOverall: nat
    var rankDepartment: nat

    constructor (data: MobileRow)
      ensures this.data == data && rankOverall == 0 && rankDepartment == 0
    {
      this.data, rankOverall, rankDepartment := data, 0, 0;
    }
  }

  // ----------------------------------------------------------------- the sort key

  function MetricOrZero(x: Option<int>): (r: int) {
    x.GetOr(0)
  }

  function Sales(row: MobileRow): (r: real) {
    row.netSales.GetOr(0.0)
  }

  /** More sales first, then more bills, then more customers, then the employee code. */
  predicate RanksBefore(a: MobileRow, b: MobileRow) {
    var (ab, bb) := (MetricOrZero(a.bills), MetricOrZero(b.bills));
    var (ac, bc) := (MetricOrZero(a.customers), MetricOrZero(b.customers));
    || Sales(a) > Sales(b)
    || (Sales(a) == Sales(b) && (ab > bb || (ab == bb && (ac > bc || (ac == bc && TextAtMost(a.code, b.code))))))
  }

  predicate RowBefore(a: RankedRow, b: RankedRow) {
    RanksBefore(a.data, b.data)
  }

  lemma RowOrder(rows: seq<RankedRow>)
    ensures TotalPreorder(RowBefore, rows)
  {
    forall a, b | a in rows && b in rows ensures RowBefore(a, b) || RowBefore(b, a) {
      TextTotal(a.data.code, b.data.code);
    }
    forall a, b, c | a in rows && b in rows && c in rows && RowBefore(a, b) && RowBefore(b, c) ensures RowBefore(a, c) {
      if TextAtMost(a.data.code, b.data.code) && TextAtMost(b.data.code, c.data.code) {
        TextTransitive(a.data.code, b.data.code, c.data.code);
      }
    }
  }

  // -------------------------------------------------------------------- ranking

  /** The department of a row, as text that groups rows. */
  type DepartmentKey = Option<string> -> string

  function InDepartment(key: DepartmentKey, dept: string): (r: RankedRow -> bool) {
    (row: RankedRow) => key(row.data.department) == dept
  }

  /** The rows of a department, and its ranking. */
  function Department(key: DepartmentKey, dept: string, rows: seq<RankedRow>): (r: seq<RankedRow>) {
    Filter(InDepartment(key, dept), rows)
  }

  ghost predicate OverallRanked(rows: seq<RankedRow>)
    reads rows
  {
    var s := Sort(RowBefore, rows);
    SortElems(RowBefore, rows);
    forall i :: 0 <= i < |s| ==> s[i] in rows && s[i].rankOverall == i + 1
  }

  ghost predicate DepartmentRanked(key: DepartmentKey, dept: string, rows: seq<RankedRow>)
    reads rows
  {
    var s := Sort(RowBefore, Department(key, dept, rows));
    SortElems(RowBefore, Department(key, dept, rows));
    FilterElems(InDepartment(key, dept), rows);
    forall i :: 0 <= i < |s| ==> s[i] in rows && s[i].rankDepartment == i + 1
  }

  method RankRows(key: DepartmentKey, rows: seq<MobileRow>) returns (ranked: seq<RankedRow>)
    ensures |ranked| == |rows| && forall i :: 0 <= i < |rows| ==> fresh(ranked[i]) && ranked[i].data == rows[i]
    ensures NoDup(ranked)
    ensures OverallRanked(ranked)
    ensures forall dept :: DepartmentRanked(key, dept, ranked)
  {
    ranked := MakeRows(rows);
    RankOverall(ranked);
    RankDepartments(key, ranked);
  }

  method MakeRows(rows: seq<MobileRow>) returns (ranked: seq<RankedRow>)
    ensures |ranked| == |rows| && forall i :: 0 <= i < |rows| ==> fresh(ranked[i]) && ranked[i].data == rows[i]
    ensures NoDup(ranked)
  {
    ranked := [];
    for i := 0 to |rows|
      invariant |ranked| == i && forall j :: 0 <= j < i ==> fresh(ranked[j]) && ranked[j].data == rows[j]
      invariant NoDup(ranked)
    {
      var row := new RankedRow(rows[i]);
      ranked := ranked + [row];
    }
  }

  method RankOverall(ranked: seq<RankedRow>)
    requires NoDup(ranked)
    modifies ranked`rankOverall
    ensures OverallRanked(ranked)
  {
    var sorted := Sort(RowBefore, ranked);
    SortElems(RowBefore, ranked);
    SortedNoDup(ranked);
    for i := 0 to |sorted|
      invariant forall j :: 0 <= j < i ==> sorted[j].rankOverall == j + 1
    {
      assert sorted[i] in ranked;
      sorted[i].rankOverall := i + 1;
    }
  }

  method RankDepartments(key: DepartmentKey, ranked: seq<RankedRow>)
    requires NoDup(ranked)
    modifies ranked`rankDepartment
    ensures forall dept :: DepartmentRanked(key, dept, ranked)
  {
    var byDept := GroupByDepartment(key, ranked);
    var todo := byDept.Keys;
    while todo != {}
      invariant todo <= byDept.Keys
      invariant forall dept :: dept !in todo ==> DepartmentRanked(key, dept, ranked)
      decreases todo
    {
      var dept := Pick(todo);
      RankDepartment(key, dept, ranked, byDept[dept]);
      todo := todo - {dept};
    }
  }

  method GroupByDepartment(key: DepartmentKey, rows: seq<RankedRow>) returns (byDept: map<string, seq<RankedRow>>)
    ensures forall dept :: dept in byDept ==> byDept[dept] == Department(key, dept, rows) != []
    ensures forall dept :: dept !in byDept ==> Department(key, dept, rows) == []
  {
    byDept := map[];
    for i := 0 to |rows|
      invariant forall dept :: dept in byDept ==> byDept[dept] == Department(key, dept, rows[..i]) != []
      invariant forall dept :: dept !in byDept ==> Department(key, dept, rows[..i]) == []
    {
      var dept := key(rows[i].data.department);
      assert rows[..i + 1] == rows[..i] + [rows[i]];
      forall d
        ensures Department(key, d, rows[..i + 1])
                == Department(key, d, rows[..i]) + if d == dept then [rows[i]] else []
      {
        FilterConcat(InDepartment(key, d), rows[..i], [rows[i]]);
      }
      byDept := byDept[dept := (if dept in byDept then byDept[dept] else []) + [rows[i]]];
    }
    assert rows[..|rows|] == rows;
  }

  /** Ranks one department; the ranks of the others stay. */
  method RankDepartment(key: DepartmentKey, dept: string, ranked: seq<RankedRow>, members: seq<RankedRow>)
    requires NoDup(ranked) && members == Department(key, dept, ranked)
    modifies ranked`rankDepartment
    ensures DepartmentRanked(key, dept, ranked)
    ensures forall d :: old(DepartmentRanked(key, d, ranked)) ==> DepartmentRanked(key, d, ranked)
  {
    ghost var was := Ranks(ranked);
    var sorted := Sort(RowBefore, members);
    MembersOnce(key, dept, ranked, members, sorted);
    NumberDepartment(sorted);
    ghost var now := Ranks(ranked);
    SortElems(RowBefore, members);
    forall d | d != dept && old(DepartmentRanked(key, d, ranked)) ensures DepartmentRanked(key, d, ranked) {
      OtherDepartmentsStay(key, dept, d, ranked, was, now);
    }
  }

  lemma MembersOnce(key: DepartmentKey, dept: string, rows: seq<RankedRow>, members: seq<RankedRow>,
                    sorted: seq<RankedRow>)
    requires NoDup(rows) && members == Department(key, dept, rows) && sorted == Sort(RowBefore, members)
    ensures NoDup(sorted) && forall i :: 0 <= i < |sorted| ==> sorted[i] in members && sorted[i] in rows
  {
    SortElems(RowBefore, members);
    FilterElems(InDepartment(key, dept), rows);
    FilterNoDup(InDepartment(key, dept), rows);
    SortedNoDup(members);
  }

  method NumberDepartment(sorted: seq<RankedRow>)
    requires NoDup(sorted)
    modifies sorted`rankDepartment
    ensures forall i :: 0 <= i < |sorted| ==> sorted[i].rankDepartment == i + 1
  {
    for i := 0 to |sorted|
      invariant forall j :: 0 <= j < i ==> sorted[j].rankDepartment == j + 1
    {
      sorted[i].rankDepartment := i + 1;
    }
  }

  ghost function Ranks(rows: seq<RankedRow>): (r: map<RankedRow, nat>)
    reads rows
    ensures r.Keys == Elems(rows) && forall row :: row in rows ==> r[row] == row.rankDepartment
  {
    map row | row in rows :: row.rankDepartment
  }

  /** The ranks of a department, in a snapshot. */
  ghost predicate RankedIn(key: DepartmentKey, dept: string, rows: seq<RankedRow>, ranks: map<RankedRow, nat>) {
    var s := Sort(RowBefore, Department(key, dept, rows));
    forall i :: 0 <= i < |s| ==> s[i] in ranks && ranks[s[i]] == i + 1
  }

  lemma OtherDepartmentsStay(key: DepartmentKey, dept: string, d: string, rows: seq<RankedRow>,
                             was: map<RankedRow, nat>, now: map<RankedRow, nat>)
    requires d != dept && RankedIn(key, d, rows, was)
    requires forall row :: row in rows ==> row in now
    requires forall row :: row in was && row in now && row !in Department(key, dept, rows) ==> now[row] == was[row]
    ensures RankedIn(key, d, rows, now)
  {
    var members := Department(key, d, rows);
    var s := Sort(RowBefore, members);
    SortElems(RowBefore, members);
    FilterElems(InDepartment(key, d), rows);
    FilterElems(InDepartment(key, dept), rows);
    forall i | 0 <= i < |s| ensures s[i] in now && now[s[i]] == i + 1 {
      assert s[i] in members;
    }
  }

  // ------------------------------------------------------------ what the ranks are

  lemma SortedNoDup(rows: seq<RankedRow>)
    requires NoDup(rows)
    ensures NoDup(Sort(RowBefore, rows))
  {
    SortMultiset(RowBefore, rows);
    SortElems(RowBefore, rows);
    NoDupCardinality(rows);
    assert Elems(Sort(RowBefore, rows)) == Elems(rows);
    NoDupByCount(Sort(RowBefore, rows));
  }

  lemma {:induction false} FilterNoDup<T>(p: T -> bool, s: seq<T>)
    requires NoDup(s)
    ensures NoDup(Filter(p, s))
  {
    if s == [] {
    } else {
      FilterNoDup(p, s[1..]);
      FilterElems(p, s[1..]);
      assert s[0] !in s[1..];
      assert s[0] !in Filter(p, s[1..]);
    }
  }

  ghost predicate HasRank(rows: seq<RankedRow>, k: nat)
    reads rows
  {
    exists i :: 0 <= i < |rows| && rows[i].rankOverall == k
  }

  /** The overall ranks are 1 to n, each of them exactly once. */
  lemma OverallIsBijection(rows: seq<RankedRow>)
    requires NoDup(rows) && OverallRanked(rows)
    ensures forall i :: 0 <= i < |rows| ==> 1 <= rows[i].rankOverall <= |rows|
    ensures forall i, j :: 0 <= i < j < |rows| ==> rows[i].rankOverall != rows[j].rankOverall
    ensures forall k :: 1 <= k <= |rows| ==> HasRank(rows, k)
  {
    var s := Sort(RowBefore, rows);
    SortMultiset(RowBefore, rows);
    forall i | 0 <= i < |rows| ensures 1 <= rows[i].rankOverall <= |rows| && s[rows[i].rankOverall - 1] == rows[i] {
      assert rows[i] in multiset(s);
      var a :| 0 <= a < |s| && s[a] == rows[i];
    }
    forall k | 1 <= k <= |rows| ensures HasRank(rows, k) {
      assert s[k - 1] in rows;
    }
  }

  /** Of two rows the one listed first has the better overall rank exactly when its key is
      at least as good: more sales, then more bills, then more customers, what is missing
      counting as zero, then the smaller employee code. So ties stay in the order listed. */
  lemma OverallFollowsKey(rows: seq<RankedRow>, i: nat, j: nat)
    requires NoDup(rows) && OverallRanked(rows) && i < j < |rows|
    ensures var a, b := rows[i].data, rows[j].data;
      var (salesA, salesB) := (a.netSales.GetOr(0.0), b.netSales.GetOr(0.0));
      var (billsA, billsB) := (a.bills.GetOr(0), b.bills.GetOr(0));
      var (customersA, customersB) := (a.customers.GetOr(0), b.customers.GetOr(0));
      rows[i].rankOverall < rows[j].rankOverall <==>
        || salesA > salesB
        || (salesA == salesB && billsA > billsB)
        || (salesA == salesB && billsA == billsB && customersA > customersB)
        || (salesA == salesB && billsA == billsB && customersA == customersB && TextAtMost(a.code, b.code))
  {
    var s := Sort(RowBefore, rows);
    RowOrder(rows);
    SortSorted(RowBefore, rows);
    SortElems(RowBefore, rows);
    assert rows[i] in s && rows[j] in s;
    if RowBefore(rows[i], rows[j]) {
      ListedFirstStaysFirst(RowBefore, rows, i, j);
      var a, b :| 0 <= a < b < |s| && s[a] == rows[i] && s[b] == rows[j];
    }
  }

  /** A filtered element, found in the unfiltered sequence with what is filtered before it. */
  lemma {:induction false} FilterPosition<T>(p: T -> bool, s: seq<T>, i: nat) returns (j: nat)
    requires i < |Filter(p, s)|
    ensures j < |s| && s[j] == Filter(p, s)[i] && Filter(p, s)[..i] == Filter(p, s[..j])
  {
    var front, x := s[..|s| - 1], s[|s| - 1];
    assert s == front + [x];
    FilterConcat(p, front, [x]);
    if i < |Filter(p, front)| {
      j := FilterPosition(p, front, i);
      assert front[..j] == s[..j];
    } else {
      j := |s| - 1;
    }
  }

  /** The rank in the department is one more than the number of rows of the department
      that rank better overall: ranking and grouping commute, ties included. */
  lemma DepartmentRankCounts(key: DepartmentKey, dept: string, rows: seq<RankedRow>, row: RankedRow)
    requires NoDup(rows) && OverallRanked(rows) && DepartmentRanked(key, dept, rows)
    requires row in rows && key(row.data.department) == dept
    ensures var better := set r | r in rows && key(r.data.department) == dept && r.rankOverall < row.rankOverall;
      row.rankDepartment == 1 + |better|
  {
    var p, s := InDepartment(key, dept), Sort(RowBefore, rows);
    var d := Filter(p, s);
    RowOrder(rows);
    FilterSort(RowBefore, p, rows);
    SortElems(RowBefore, rows);
    SortedNoDup(rows);
    FilterElems(p, s);
    assert row in d;
    var i: nat :| i < |d| && d[i] == row;
    var j := FilterPosition(p, s, i);
    assert row.rankDepartment == i + 1 && row.rankOverall == j + 1;
    CountPrefix(key, dept, rows, s, row, i, j);
  }

  lemma CountPrefix(key: DepartmentKey, dept: string, rows: seq<RankedRow>, s: seq<RankedRow>, row: RankedRow, i: nat,
                    j: nat)
    requires NoDup(s) && forall r :: r in s <==> r in rows
    requires forall a :: 0 <= a < |s| ==> s[a].rankOverall == a + 1
    requires j < |s| && s[j] == row && i == |Filter(InDepartment(key, dept), s[..j])|
    ensures i == |set r | r in rows && key(r.data.department) == dept && r.rankOverall < row.rankOverall|
  {
    var p, front := InDepartment(key, dept), s[..j];
    var better := set r | r in rows && key(r.data.department) == dept && r.rankOverall < row.rankOverall;
    FilterElems(p, front);
    FilterNoDup(p, front);
    NoDupCardinality(Filter(p, front));
    forall r | r in better ensures r in Filter(p, front) {
      var a :| 0 <= a < |s| && s[a] == r;
      assert front[a] == r;
    }
    forall r | r in Filter(p, front) ensures r in better {
      var a :| 0 <= a < |front| && front[a] == r;
      assert s[a] == r;
    }
    assert better == Elems(Filter(p, front));
  }

  // -------------------------------------------------------------- leaderboards

  datatype LeaderboardEntry = LeaderboardEntry(rank: nat, employee: nat, code: string, department: Option<string>,
                                               metric: real)

  function EntryFor(rank: nat, row: MobileRow): (r: LeaderboardEntry) {
    LeaderboardEntry(rank, row.employee, row.code, row.department, Sales(row))
  }

  /** A slice up to `limit`; a negative limit counts from the end. */
  function UpTo<T>(s: seq<T>, limit: int): (r: seq<T>)
    ensures limit >= 0 ==> |r| == if limit < |s| then limit else |s|
    ensures |r| <= |s| && r == s[..|r|]
  {
    if limit >= |s| then s else if limit >= 0 then s[..limit] else if |s| + limit >= 0 then s[..|s| + limit] else []
  }

  /** The entries of a leaderboard: the first rows in rank order, with ranks from 1 on. */
  ghost predicate IsLeaderboard(rows: seq<RankedRow>, limit: int, entries: seq<LeaderboardEntry>) {
    var top := UpTo(Sort(RowBefore, rows), limit);
    |entries| == |top| && forall i :: 0 <= i < |top| ==> entries[i] == EntryFor(i + 1, top[i].data)
  }

  /** How many entries a leaderboard of `n` rows has; a negative limit leaves out that many of the last. */
  ghost predicate IsBoardLength(n: nat, limit: int, length: nat) {
    length == if limit >= n then n else if limit >= 0 then limit else if n + limit >= 0 then n + limit else 0
  }

  /** The entry at a rank shows the row that has it: the overall board for the overall
      ranks, a department's board for the ranks in the department. */
  lemma BoardsShowRanks(key: DepartmentKey, dept: string, rows: seq<RankedRow>, limit: int,
                        overall: seq<LeaderboardEntry>, board: seq<LeaderboardEntry>)
    requires OverallRanked(rows) && IsLeaderboard(rows, limit, overall)
    requires DepartmentRanked(key, dept, rows) && IsLeaderboard(Department(key, dept, rows), limit, board)
    ensures IsBoardLength(|rows|, limit, |overall|)
    ensures forall i :: 0 <= i < |overall| ==> ShowsOverall(overall[i], i + 1, rows)
    ensures IsBoardLength(|Department(key, dept, rows)|, limit, |board|)
    ensures forall i :: 0 <= i < |board| ==> ShowsDepartment(key, dept, board[i], i + 1, rows)
  {
    var s, d := Sort(RowBefore, rows), Sort(RowBefore, Department(key, dept, rows));
    SortElems(RowBefore, rows);
    SortElems(RowBefore, Department(key, dept, rows));
    FilterElems(InDepartment(key, dept), rows);
    forall i | 0 <= i < |overall| ensures ShowsOverall(overall[i], i + 1, rows) {
      assert s[i] in rows && Shows(overall[i], i + 1, s[i]);
    }
    forall i | 0 <= i < |board| ensures ShowsDepartment(key, dept, board[i], i + 1, rows) {
      assert d[i] in Department(key, dept, rows) && Shows(board[i], i + 1, d[i]);
    }
  }

  ghost predicate ShowsOverall(entry: LeaderboardEntry, rank: nat, rows: seq<RankedRow>)
    reads rows
  {
    exists row :: row in rows && row.rankOverall == rank && Shows(entry, rank, row)
  }

  ghost predicate ShowsDepartment(key: DepartmentKey, dept: string, entry: LeaderboardEntry, rank: nat,
                                  rows: seq<RankedRow>)
    reads rows
  {
    exists row ::
      row in rows && row.rankDepartment == rank && key(row.data.department) == dept && Shows(entry, rank, row)
  }

  ghost predicate Shows(entry: LeaderboardEntry, rank: nat, row: RankedRow) {
    && entry.rank == rank && entry.employee == row.data.employee && entry.code == row.data.code
    && entry.department == row.data.department && entry.metric == row.data.netSales.GetOr(0.0)
  }

  /** Given ranked rows, every leaderboard lists the ranks 1, 2, 3 and so on. */
  method BuildLeaderboards(key: DepartmentKey, rows: seq<RankedRow>, limit: int)
    returns (overall: seq<LeaderboardEntry>, departments: map<string, seq<LeaderboardEntry>>)
    requires OverallRanked(rows) && forall dept :: DepartmentRanked(key, dept, rows)
    ensures IsLeaderboard(rows, limit, overall)
    ensures forall dept :: dept in departments ==>
                  IsLeaderboard(Department(key, dept, rows), limit, departments[dept])
    ensures forall dept :: dept in departments <==> exists row :: row in rows && key(row.data.department) == dept
  {
    overall := ListOverall(rows, limit);
    var byDept := GroupByDepartment(key, rows);
    departments := map[];
    var todo := byDept.Keys;
    while todo != {}
      invariant todo <= byDept.Keys && departments.Keys == byDept.Keys - todo
      invariant forall dept :: dept in departments ==>
                  IsLeaderboard(Department(key, dept, rows), limit, departments[dept])
      decreases todo
    {
      var dept := Pick(todo);
      var entries := ListDepartment(key, dept, rows, byDept[dept], limit);
      departments := departments[dept := entries];
      todo := todo - {dept};
    }
    forall dept ensures dept in departments <==> exists row :: row in rows && key(row.data.department) == dept {
      FilterElems(InDepartment(key, dept), rows);
      if Department(key, dept, rows) != [] {
        assert Department(key, dept, rows)[0] in Department(key, dept, rows);
      }
    }
  }

  method ListOverall(rows: seq<RankedRow>, limit: int) returns (entries: seq<LeaderboardEntry>)
    requires OverallRanked(rows)
    ensures IsLeaderboard(rows, limit, entries)
  {
    var top := UpTo(Sort(RowBefore, rows), limit);
    entries := [];
    for i := 0 to |top|
      invariant |entries| == i && forall j :: 0 <= j < i ==> entries[j] == EntryFor(j + 1, top[j].data)
    {
      entries := entries + [EntryFor(top[i].rankOverall, top[i].data)];
    }
  }

  method ListDepartment(key: DepartmentKey, dept: string, rows: seq<RankedRow>, members: seq<RankedRow>, limit: int)
    returns (entries: seq<LeaderboardEntry>)
    requires DepartmentRanked(key, dept, rows) && members == Department(key, dept, rows)
    ensures IsLeaderboard(members, limit, entries)
  {
    var top := UpTo(Sort(RowBefore, members), limit);
    entries := [];
    for i := 0 to |top|
      invariant |entries| == i && forall j :: 0 <= j < i ==> entries[j] == EntryFor(j + 1, top[j].data)
    {
      entries := entries + [EntryFor(top[i].rankDepartment, top[i].data)];
    }
  }
}
