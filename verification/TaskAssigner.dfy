/** Automatic assignment of a branch's pending tasks to eligible employees. */
module TaskAssigner {
  import opened Wrappers
  import opened StableSort
  import opened TextOrder

  datatype Status = Pending | Assigned | InProgress | Done

  datatype Task = Task(status: Status, window: Option<int>, priority: int, created: int)

  datatype Requirement = Requirement(skill: nat, minimum: int, required: bool)

  datatype Skill = Skill(proficiency: int, confidence: real)

  datatype Attendance = Attendance(punchedIn: bool, punchedOut: bool)

  datatype Employee = Employee(id: nat, code: string)

  datatype Assignment = Assignment(task: nat, employee: nat, auto: bool, score: real, completed: bool)

  /** What an assignment run only reads. */
  datatype World = World(
    employees: seq<Employee>,
    attendance: map<nat, Attendance>,
    skills: map<nat, map<nat, Skill>>,
    requirements: map<nat, seq<Requirement>>,
    loadPenalty: real,
    presenceBonus: real,
    unknownPenalty: real,
    lower: string -> string)

  function SkillsOf(w: World, e: nat): (r: map<nat, Skill>) {
    if e in w.skills then w.skills[e] else map[]
  }

  function RequirementsOf(w: World, t: nat): (r: seq<Requirement>) {
    if t in w.requirements then w.requirements[t] else []
  }

  /** The query lists every employee once. */
  ghost predicate DistinctEmployees(es: seq<Employee>) {
    forall i, j :: 0 <= i < j < |es| ==> es[i].id != es[j].id
  }

  // ---------------------------------------------------------------- eligibility

  /** Not absent, and not gone already. */
  predicate Available(w: World, e: nat) {
    e in w.attendance ==> w.attendance[e].punchedIn && !w.attendance[e].punchedOut
  }

  predicate Satisfies(skills: map<nat, Skill>, q: Requirement) {
    q.skill in skills && skills[q.skill].proficiency >= q.minimum
  }

  predicate Meets(skills: map<nat, Skill>, reqs: seq<Requirement>) {
    forall q :: q in reqs && q.required ==> Satisfies(skills, q)
  }

  method MeetsRequiredSkills(skills: map<nat, Skill>, reqs: seq<Requirement>) returns (ok: bool)
    ensures ok == Meets(skills, reqs)
  {
    for i := 0 to |reqs|
      invariant forall j :: 0 <= j < i && reqs[j].required ==> Satisfies(skills, reqs[j])
    {
      var q := reqs[i];
      if !q.required { continue; }
      if q.skill !in skills { return false; }
      if skills[q.skill].proficiency < q.minimum { return false; }
    }
    return true;
  }

  /** Proficiency times confidence, over the listed skills that the employee meets. */
  function SkillScore(skills: map<nat, Skill>, reqs: seq<Requirement>): (r: real) {
    if reqs == [] then 0.0
    else
      var q := reqs[|reqs| - 1];
      SkillScore(skills, reqs[..|reqs| - 1]) +
      if Satisfies(skills, q) then skills[q.skill].proficiency as real * skills[q.skill].confidence else 0.0
  }

  method BaseSkillScore(skills: map<nat, Skill>, reqs: seq<Requirement>) returns (total: real)
    ensures total == SkillScore(skills, reqs)
  {
    total := 0.0;
    for i := 0 to |reqs|
      invariant total == SkillScore(skills, reqs[..i])
    {
      assert reqs[..i + 1][..i] == reqs[..i];
      var q := reqs[i];
      if q.skill !in skills { continue; }
      if skills[q.skill].proficiency < q.minimum { continue; }
      total := total + skills[q.skill].proficiency as real * skills[q.skill].confidence;
    }
    assert reqs[..|reqs|] == reqs;
  }

  predicate Eligible(w: World, reqs: seq<Requirement>, e: Employee) {
    Available(w, e.id) && Meets(SkillsOf(w, e.id), reqs)
  }

  // --------------------------------------------------------------------- scores

  datatype Board = Board(tasks: map<nat, Task>, assignments: seq<Assignment>)

  predicate IsActive(tasks: map<nat, Task>, a: Assignment) {
    a.task in tasks && (tasks[a.task].status == Assigned || tasks[a.task].status == InProgress) && !a.completed
  }

  /** The active assignments of an employee. */
  function Load(b: Board, e: nat): (r: nat) {
    |Filter((a: Assignment) => a.employee == e && IsActive(b.tasks, a), b.assignments)|
  }

  datatype CandidateScore = CandidateScore(employee: nat, code: string, score: real, base: real, active: nat)

  function ScoreOf(w: World, b: Board, reqs: seq<Requirement>, e: Employee): (r: CandidateScore) {
    var base, active := SkillScore(SkillsOf(w, e.id), reqs), Load(b, e.id);
    var bonus := if e.id in w.attendance then w.presenceBonus else 0.0;
    var unknown := if e.id in w.attendance then 0.0 else w.unknownPenalty;
    CandidateScore(e.id, e.code, base + bonus - unknown - active as real * w.loadPenalty, base, active)
  }

  function Candidates(w: World, b: Board, reqs: seq<Requirement>, es: seq<Employee>): (r: seq<CandidateScore>) {
    if es == [] then []
    else
      var e := es[|es| - 1];
      Candidates(w, b, reqs, es[..|es| - 1]) + if Eligible(w, reqs, e) then [ScoreOf(w, b, reqs, e)] else []
  }

  method ScoreCandidates(w: World, b: Board, reqs: seq<Requirement>) returns (scored: seq<CandidateScore>)
    ensures scored == Candidates(w, b, reqs, w.employees)
  {
    scored := [];
    var es := w.employees;
    for i := 0 to |es|
      invariant scored == Candidates(w, b, reqs, es[..i])
    {
      assert es[..i + 1][..i] == es[..i] && scored + [] == scored;
      var c := ScoreEmployee(w, b, reqs, es[i]);
      if c.Some? { scored := scored + [c.value]; }
    }
    assert es[..|es|] == es;
  }

  method ScoreEmployee(w: World, b: Board, reqs: seq<Requirement>, e: Employee) returns (c: Option<CandidateScore>)
    ensures c == if Eligible(w, reqs, e) then Some(ScoreOf(w, b, reqs, e)) else None
  {
    var attends := e.id in w.attendance;
    if attends && !w.attendance[e.id].punchedIn { return None; }
    if attends && w.attendance[e.id].punchedOut { return None; }
    var meets := MeetsRequiredSkills(SkillsOf(w, e.id), reqs);
    if !meets { return None; }
    var base := BaseSkillScore(SkillsOf(w, e.id), reqs);
    var active := Load(b, e.id);
    var penalty := active as real * w.loadPenalty;
    var bonus := if attends then w.presenceBonus else 0.0;
    var unknown := if attends then 0.0 else w.unknownPenalty;
    var score := base + bonus - unknown - penalty;
    assert score == ScoreOf(w, b, reqs, e).score;
    return Some(CandidateScore(e.id, e.code, score, base, active));
  }

  /** Higher score, higher skill score, fewer active assignments, employee code, identifier. */
  predicate NoWorse(lower: string -> string, a: CandidateScore, b: CandidateScore) {
    || a.score > b.score
    || (a.score == b.score &&
        (|| a.base > b.base
         || (a.base == b.base && (a.active < b.active || (a.active == b.active && CodeNoWorse(lower, a, b))))))
  }

  predicate CodeNoWorse(lower: string -> string, a: CandidateScore, b: CandidateScore) {
    var x, y := lower(a.code), lower(b.code);
    if x == y then a.employee <= b.employee else TextAtMost(x, y)
  }

  function Order(lower: string -> string): (r: (CandidateScore, CandidateScore) -> bool) {
    (a: CandidateScore, b: CandidateScore) => NoWorse(lower, a, b)
  }

  ghost predicate DistinctCandidates(cs: seq<CandidateScore>) {
    forall i, j :: 0 <= i < j < |cs| ==> cs[i].employee != cs[j].employee
  }

  lemma CandidateOrder(lower: string -> string, cs: seq<CandidateScore>)
    ensures TotalPreorder(Order(lower), cs)
  {
    forall a, b | a in cs && b in cs ensures NoWorse(lower, a, b) || NoWorse(lower, b, a) {
      TextTotal(lower(a.code), lower(b.code));
    }
    forall a, b, c | a in cs && b in cs && c in cs && NoWorse(lower, a, b) && NoWorse(lower, b, c)
      ensures NoWorse(lower, a, c)
    {
      var x, y, z := lower(a.code), lower(b.code), lower(c.code);
      if TextAtMost(x, y) && TextAtMost(y, z) {
        TextTransitive(x, y, z);
        if x == z { TextAntisymmetric(x, y); }
      }
    }
  }

  function Best(lower: string -> string, cs: seq<CandidateScore>): (r: CandidateScore)
    requires cs != []
  {
    SortMultiset(Order(lower), cs);
    Sort(Order(lower), cs)[0]
  }

  /** The choice is the one candidate that none of the others equals or beats. */
  lemma BestIsUnique(lower: string -> string, cs: seq<CandidateScore>, c: CandidateScore)
    requires cs != [] && DistinctCandidates(cs)
    ensures c == Best(lower, cs) <==>
            c in cs && forall d :: d in cs && d != c ==> NoWorse(lower, c, d) && !NoWorse(lower, d, c)
  {
    var le := Order(lower);
    var s, best := Sort(le, cs), Best(lower, cs);
    CandidateOrder(lower, cs);
    SortSorted(le, cs);
    SortElems(le, cs);
    assert best in cs;
    forall d | d in cs ensures NoWorse(lower, best, d) && (NoWorse(lower, d, best) ==> d == best) {
      assert d in s;
      var i :| 0 <= i < |s| && s[i] == d;
      assert i > 0 ==> le(s[0], s[i]);
      assert le(best, d) by { assert le(best, best) || i > 0; }
      SameKeySameCandidate(lower, cs, best, d);
    }
  }

  lemma SameKeySameCandidate(lower: string -> string, cs: seq<CandidateScore>, a: CandidateScore, b: CandidateScore)
    requires DistinctCandidates(cs) && a in cs && b in cs
    ensures NoWorse(lower, a, b) && NoWorse(lower, b, a) ==> a == b
  {
    var x, y := lower(a.code), lower(b.code);
    if TextAtMost(x, y) && TextAtMost(y, x) { TextAntisymmetric(x, y); }
  }

  /** So the order in which candidates are listed does not matter. */
  lemma BestIgnoresOrder(lower: string -> string, a: seq<CandidateScore>, b: seq<CandidateScore>)
    requires a != [] && DistinctCandidates(a) && multiset(a) == multiset(b)
    ensures b != [] && Best(lower, a) == Best(lower, b)
  {
    var le := Order(lower);
    assert |multiset(a)| == |a| && |multiset(b)| == |b|;
    assert forall x :: x in b ==> x in multiset(b);
    CandidateOrder(lower, a);
    CandidateOrder(lower, b);
    SortMultiset(le, a);
    SortMultiset(le, b);
    SortSorted(le, a);
    SortSorted(le, b);
    SortElems(le, a);
    CandidateOrder(lower, Sort(le, a));
    forall x, y | x in Sort(le, a) && y in Sort(le, a) && le(x, y) && le(y, x) ensures x == y {
      assert x in a && y in a && NoWorse(lower, x, y) && NoWorse(lower, y, x);
      SameKeySameCandidate(lower, a, x, y);
    }
    SortedUnique(le, Sort(le, a), Sort(le, b));
  }

  /** The candidates are the eligible employees with their scores, each of them once. */
  lemma {:induction false} CandidatesAreEligible(w: World, b: Board, reqs: seq<Requirement>, es: seq<Employee>)
    ensures forall c :: c in Candidates(w, b, reqs, es) <==>
              exists e :: e in es && Eligible(w, reqs, e) && c == ScoreOf(w, b, reqs, e)
    ensures DistinctEmployees(es) ==> DistinctCandidates(Candidates(w, b, reqs, es))
  {
    if es == [] {
    } else {
      var front, e := es[..|es| - 1], es[|es| - 1];
      assert es == front + [e];
      CandidatesAreEligible(w, b, reqs, front);
      if DistinctEmployees(es) {
        forall c | c in Candidates(w, b, reqs, front) ensures c.employee != e.id {
          var d :| d in front && Eligible(w, reqs, d) && c == ScoreOf(w, b, reqs, d);
          var i :| 0 <= i < |front| && front[i] == d;
          assert es[i].id != es[|es| - 1].id;
        }
      }
    }
  }

  /** Who is a candidate does not depend on the workload. */
  lemma {:induction false} NobodyEligible(w: World, b: Board, c: Board, reqs: seq<Requirement>, es: seq<Employee>)
    ensures Candidates(w, b, reqs, es) == [] <==> Candidates(w, c, reqs, es) == []
  {
    if es == [] {
    } else {
      NobodyEligible(w, b, c, reqs, es[..|es| - 1]);
    }
  }

  // ------------------------------------------------------------------------ runs

  predicate HasAssignment(b: Board, t: nat) {
    exists i :: 0 <= i < |b.assignments| && b.assignments[i].task == t
  }

  /** One task: assigned to the best candidate if it is pending and has one. */
  function AssignTask(w: World, b: Board, t: nat): (r: Board)
    requires t in b.tasks
  {
    var cs := Candidates(w, b, RequirementsOf(w, t), w.employees);
    if b.tasks[t].status != Pending || cs == [] then b
    else
      var best := Best(w.lower, cs);
      Board(b.tasks[t := b.tasks[t].(status := Assigned)],
            b.assignments + [Assignment(t, best.employee, true, best.score, false)])
  }

  datatype Run = Run(board: Board, placed: nat, skipped: nat, noEligible: nat)

  function Visit(w: World, run: Run, t: nat): (r: Run)
    requires t in run.board.tasks
    ensures r.board.tasks.Keys == run.board.tasks.Keys
  {
    var b := run.board;
    if b.tasks[t].status != Pending || HasAssignment(b, t) then run.(skipped := run.skipped + 1)
    else if AssignTask(w, b, t) == b then run.(noEligible := run.noEligible + 1)
    else run.(board := AssignTask(w, b, t), placed := run.placed + 1)
  }

  function VisitAll(w: World, b: Board, ts: seq<nat>): (r: Run)
    requires forall t :: t in ts ==> t in b.tasks
    ensures r.board.tasks.Keys == b.tasks.Keys
  {
    if ts == [] then Run(b, 0, 0, 0)
    else Visit(w, VisitAll(w, b, ts[..|ts| - 1]), ts[|ts| - 1])
  }

  /** What the query for a day's pending tasks answers; ties come in any order. */
  ghost predicate PendingTasks(b: Board, dayStart: int, dayEnd: int, ts: seq<nat>) {
    && NoDup(ts)
    && (forall t :: t in ts <==> t in b.tasks && IsDue(b.tasks[t], dayStart, dayEnd))
    && (forall i, j :: 0 <= i < j < |ts| ==> DueBefore(b.tasks, ts[i], ts[j]))
  }

  predicate IsDue(task: Task, dayStart: int, dayEnd: int) {
    task.status == Pending && (task.window.Some? ==> dayStart <= task.window.value < dayEnd)
  }

  predicate DueBefore(tasks: map<nat, Task>, s: nat, t: nat) {
    s in tasks && t in tasks ==>
      tasks[s].priority < tasks[t].priority ||
      (tasks[s].priority == tasks[t].priority && tasks[s].created <= tasks[t].created)
  }

  /** The service: it reads the world and changes the board. */
  class AutoTaskAssigner {
    const w: World
    var tasks: map<nat, Task>
    var assignments: seq<Assignment>

    function Contents(): (r: Board)
      reads this
    {
      Board(tasks, assignments)
    }

    constructor (w: World, b: Board)
      ensures this.w == w && Contents() == b
    {
      this.w, tasks, assignments := w, b.tasks, b.assignments;
    }

    method Assign(t: nat) returns (done: bool)
      requires t in tasks
      modifies this
      ensures Contents() == AssignTask(w, old(Contents()), t) && (done <==> Contents() != old(Contents()))
    {
      if tasks[t].status != Pending { return false; }
      var cs := ScoreCandidates(w, Contents(), RequirementsOf(w, t));
      if cs == [] { return false; }
      var best := Best(w.lower, cs);
      tasks := tasks[t := tasks[t].(status := Assigned)];
      assignments := assignments + [Assignment(t, best.employee, true, best.score, false)];
      return true;
    }

    method AssignPending(ts: seq<nat>) returns (total: nat, placed: nat, skipped: nat, noEligible: nat)
      requires forall t :: t in ts ==> t in tasks
      modifies this
      ensures Run(Contents(), placed, skipped, noEligible) == VisitAll(w, old(Contents()), ts) && total == |ts|
    {
      total, placed, skipped, noEligible := |ts|, 0, 0, 0;
      for i := 0 to |ts|
        invariant forall t :: t in ts ==> t in tasks
        invariant Run(Contents(), placed, skipped, noEligible) == VisitAll(w, old(Contents()), ts[..i])
      {
        assert ts[..i + 1][..i] == ts[..i];
        var t := ts[i];
        if tasks[t].status != Pending {
          skipped := skipped + 1;
        } else if HasAssignment(Contents(), t) {
          skipped := skipped + 1;
        } else {
          var done := Assign(t);
          if done { placed := placed + 1; } else { noEligible := noEligible + 1; }
        }
      }
      assert ts[..|ts|] == ts;
    }
  }

  // ------------------------------------------------------------- what runs guarantee

  /** Every task of a run is assigned, skipped, or left without an eligible employee. */
  lemma {:induction false} TotalAddsUp(w: World, b: Board, ts: seq<nat>)
    requires forall t :: t in ts ==> t in b.tasks
    ensures var r := VisitAll(w, b, ts); |ts| == r.placed + r.skipped + r.noEligible
    ensures var r := VisitAll(w, b, ts); |r.board.assignments| == |b.assignments| + r.placed
  {
    if ts == [] {
    } else {
      TotalAddsUp(w, b, ts[..|ts| - 1]);
    }
  }

  /** Present or of unknown presence, not gone, and with every required skill at its minimum. */
  ghost predicate CanDo(w: World, t: nat, e: nat) {
    && (e in w.attendance ==> w.attendance[e].punchedIn && !w.attendance[e].punchedOut)
    && forall q :: t in w.requirements && q in w.requirements[t] && q.required ==>
         e in w.skills && q.skill in w.skills[e] && w.skills[e][q.skill].proficiency >= q.minimum
  }

  /** `base` is the sum of proficiency times confidence over the requirements that are met. */
  ghost predicate IsSkillSum(skills: map<nat, Skill>, reqs: seq<Requirement>, base: real) {
    exists sums: seq<real> :: Accumulates(skills, reqs, sums) && sums[|reqs|] == base
  }

  ghost predicate Accumulates(skills: map<nat, Skill>, reqs: seq<Requirement>, sums: seq<real>) {
    && |sums| == |reqs| + 1 && sums[0] == 0.0
    && forall i :: 0 <= i < |reqs| ==> sums[i + 1] == sums[i] + Gain(skills, reqs[i])
  }

  ghost function Gain(skills: map<nat, Skill>, q: Requirement): (r: real) {
    if q.skill in skills && skills[q.skill].proficiency >= q.minimum
    then skills[q.skill].proficiency as real * skills[q.skill].confidence
    else 0.0
  }

  /** The unfinished assignments of an employee whose task is assigned or in progress. */
  ghost function OnHand(b: Board, e: nat): (r: set<nat>) {
    set i: nat | i < |b.assignments| && b.assignments[i].employee == e && !b.assignments[i].completed
              && b.assignments[i].task in b.tasks
              && b.tasks[b.assignments[i].task].status in {Assigned, InProgress}
  }

  /** What an employee scores for a task: skills, a bonus for presence or a penalty for
      unknown presence, and a penalty for every assignment on hand. */
  ghost predicate Scores(w: World, b: Board, t: nat, e: nat, base: real, active: nat, score: real) {
    var skills := if e in w.skills then w.skills[e] else map[];
    var reqs := if t in w.requirements then w.requirements[t] else [];
    && IsSkillSum(skills, reqs, base) && active == |OnHand(b, e)|
    && score == base + (if e in w.attendance then w.presenceBonus else -w.unknownPenalty) - Busy(w, active)
  }

  ghost function Busy(w: World, active: nat): (r: real) {
    active as real * w.loadPenalty
  }

  lemma {:induction false} SkillScoreAccumulates(skills: map<nat, Skill>, reqs: seq<Requirement>)
    returns (sums: seq<real>)
    ensures Accumulates(skills, reqs, sums) && sums[|reqs|] == SkillScore(skills, reqs)
  {
    if reqs == [] {
      sums := [0.0];
    } else {
      var front, q := reqs[..|reqs| - 1], reqs[|reqs| - 1];
      var before := SkillScoreAccumulates(skills, front);
      sums := before + [SkillScore(skills, reqs)];
      ScoreGains(skills, reqs);
      AccumulatesOneMore(skills, front, q, before, SkillScore(skills, reqs));
      assert reqs == front + [q];
    }
  }

  lemma ScoreGains(skills: map<nat, Skill>, reqs: seq<Requirement>)
    requires reqs != []
    ensures SkillScore(skills, reqs) == SkillScore(skills, reqs[..|reqs| - 1]) + Gain(skills, reqs[|reqs| - 1])
  {
  }

  lemma AccumulatesOneMore(skills: map<nat, Skill>, front: seq<Requirement>, q: Requirement, before: seq<real>,
                           sum: real)
    requires Accumulates(skills, front, before) && sum == before[|front|] + Gain(skills, q)
    ensures Accumulates(skills, front + [q], before + [sum])
  {
    var (reqs, sums) := (front + [q], before + [sum]);
    forall i | 0 <= i < |reqs| ensures sums[i + 1] == sums[i] + Gain(skills, reqs[i]) {
      assert i < |front| ==> reqs[i] == front[i];
    }
  }

  lemma {:induction false} OneSum(skills: map<nat, Skill>, reqs: seq<Requirement>, a: seq<real>, b: seq<real>, n: nat)
    requires Accumulates(skills, reqs, a) && Accumulates(skills, reqs, b) && n <= |reqs|
    ensures a[n] == b[n]
  {
    if n > 0 { OneSum(skills, reqs, a, b, n - 1); }
  }

  lemma SkillSumIsScore(skills: map<nat, Skill>, reqs: seq<Requirement>, base: real)
    ensures IsSkillSum(skills, reqs, base) <==> base == SkillScore(skills, reqs)
  {
    var sums := SkillScoreAccumulates(skills, reqs);
    if IsSkillSum(skills, reqs, base) {
      var other :| Accumulates(skills, reqs, other) && other[|reqs|] == base;
      OneSum(skills, reqs, sums, other, |reqs|);
    }
  }

  lemma LoadIsOnHand(b: Board, e: nat)
    ensures Load(b, e) == |OnHand(b, e)|
  {
    var p := (a: Assignment) => a.employee == e && IsActive(b.tasks, a);
    CountIndices(p, b.assignments);
    assert OnHand(b, e) == Indices(p, b.assignments);
  }

  ghost function Indices(p: Assignment -> bool, s: seq<Assignment>): (r: set<nat>) {
    set i: nat | i < |s| && p(s[i])
  }

  lemma {:induction false} CountIndices(p: Assignment -> bool, s: seq<Assignment>)
    ensures |Filter(p, s)| == |Indices(p, s)|
  {
    if s == [] {
      assert Indices(p, s) == {};
    } else {
      var front, x := s[..|s| - 1], s[|s| - 1];
      CountIndices(p, front);
      FilterConcat(p, front, [x]);
      assert s == front + [x];
      assert Indices(p, s) == Indices(p, front) + if p(x) then {|front|} else {};
    }
  }

  /** The numbers of an employee are those the program computes. */
  lemma ScoresAre(w: World, b: Board, t: nat, e: Employee, base: real, active: nat, score: real)
    ensures Scores(w, b, t, e.id, base, active, score) <==>
            ScoreOf(w, b, RequirementsOf(w, t), e) == CandidateScore(e.id, e.code, score, base, active)
  {
    SkillSumIsScore(SkillsOf(w, e.id), RequirementsOf(w, t), base);
    LoadIsOnHand(b, e.id);
    ScoreParts(w, b, RequirementsOf(w, t), e);
  }

  lemma ScoreParts(w: World, b: Board, reqs: seq<Requirement>, e: Employee)
    ensures var base, active := SkillScore(SkillsOf(w, e.id), reqs), Load(b, e.id);
      var score := base + (if e.id in w.attendance then w.presenceBonus else -w.unknownPenalty) - Busy(w, active);
      ScoreOf(w, b, reqs, e) == CandidateScore(e.id, e.code, score, base, active)
  {
  }

  lemma CanDoExactly(w: World, t: nat, e: Employee)
    ensures Eligible(w, RequirementsOf(w, t), e) <==> CanDo(w, t, e.id)
  {
  }

  /** The order of a choice: the higher score, then the higher skill sum, then fewer assignments
      on hand, then the smaller code in lower case, then the smaller identifier. */
  ghost predicate Wins(w: World, b: Board, t: nat, e: Employee, d: Employee) {
    forall skillE, skillD, handE, handD, scoreE, scoreD
      | Scores(w, b, t, e.id, skillE, handE, scoreE) && Scores(w, b, t, d.id, skillD, handD, scoreD) ::
      || scoreE > scoreD
      || (scoreE == scoreD && skillE > skillD)
      || (scoreE == scoreD && skillE == skillD && handE < handD)
      || (scoreE == scoreD && skillE == skillD && handE == handD && w.lower(e.code) != w.lower(d.code)
          && TextAtMost(w.lower(e.code), w.lower(d.code)))
      || (scoreE == scoreD && skillE == skillD && handE == handD && w.lower(e.code) == w.lower(d.code) && e.id < d.id)
  }

  /** `e` is an employee who can do the task, and wins against every other one who can. */
  ghost predicate IsChoice(w: World, b: Board, t: nat, e: Employee) {
    && e in w.employees && CanDo(w, t, e.id)
    && forall d :: d in w.employees && d != e && CanDo(w, t, d.id) ==> Wins(w, b, t, e, d)
  }

  lemma BetterWins(w: World, b: Board, t: nat, e: Employee, d: Employee)
    requires var reqs := RequirementsOf(w, t);
      NoWorse(w.lower, ScoreOf(w, b, reqs, e), ScoreOf(w, b, reqs, d)) &&
      !NoWorse(w.lower, ScoreOf(w, b, reqs, d), ScoreOf(w, b, reqs, e))
    ensures Wins(w, b, t, e, d)
  {
    var reqs := RequirementsOf(w, t);
    var x, y := ScoreOf(w, b, reqs, e), ScoreOf(w, b, reqs, d);
    NumbersAre(w, b, t, e, x);
    NumbersAre(w, b, t, d, y);
    BetterNumbers(w.lower, x, y);
  }

  /** The only numbers that an employee scores with. */
  lemma NumbersAre(w: World, b: Board, t: nat, e: Employee, c: CandidateScore)
    requires c == ScoreOf(w, b, RequirementsOf(w, t), e)
    ensures c.employee == e.id && c.code == e.code
    ensures forall base, active, score :: Scores(w, b, t, e.id, base, active, score) ==>
              base == c.base && active == c.active && score == c.score
  {
    forall base, active, score | Scores(w, b, t, e.id, base, active, score)
      ensures base == c.base && active == c.active && score == c.score
    {
      ScoresAre(w, b, t, e, base, active, score);
    }
  }

  lemma BetterNumbers(lower: string -> string, x: CandidateScore, y: CandidateScore)
    requires NoWorse(lower, x, y) && !NoWorse(lower, y, x)
    ensures || x.score > y.score
            || (x.score == y.score && x.base > y.base)
            || (x.score == y.score && x.base == y.base && x.active < y.active)
            || (x.score == y.score && x.base == y.base && x.active == y.active && lower(x.code) != lower(y.code)
                && TextAtMost(lower(x.code), lower(y.code)))
            || (x.score == y.score && x.base == y.base && x.active == y.active && lower(x.code) == lower(y.code)
                && x.employee < y.employee)
  {
  }

  /** A pending task that somebody can do is assigned, with the score, to the listed employee who
      can do it and wins against every other one who can; no other employee has that id. */
  lemma ChosenIsBest(w: World, b: Board, t: nat) returns (e: Employee, base: real, active: nat)
    requires t in b.tasks && DistinctEmployees(w.employees) && b.tasks[t].status == Pending
    requires exists d :: d in w.employees && CanDo(w, t, d.id)
    ensures IsChoice(w, b, t, e)
    ensures var c, n := AssignTask(w, b, t), |b.assignments|;
      && c.tasks == b.tasks[t := b.tasks[t].(status := Assigned)]
      && |c.assignments| == n + 1 && c.assignments[..n] == b.assignments
      && c.assignments[n] == Assignment(t, e.id, true, c.assignments[n].score, false)
      && Scores(w, b, t, e.id, base, active, c.assignments[n].score)
    ensures forall d :: d in w.employees && d.id == e.id ==> d == e
  {
    var reqs := RequirementsOf(w, t);
    var cs := Candidates(w, b, reqs, w.employees);
    CandidatesAreEligible(w, b, reqs, w.employees);
    var able :| able in w.employees && CanDo(w, t, able.id);
    CanDoExactly(w, t, able);
    assert ScoreOf(w, b, reqs, able) in cs;
    var best := Best(w.lower, cs);
    BestIsUnique(w.lower, cs, best);
    e :| e in w.employees && Eligible(w, reqs, e) && best == ScoreOf(w, b, reqs, e);
    base, active := best.base, best.active;
    CanDoExactly(w, t, e);
    ScoresAre(w, b, t, e, base, active, best.score);
    forall d | d in w.employees && d.id == e.id ensures d == e { OneEmployee(w.employees, e, d); }
    forall d | d in w.employees && d != e && CanDo(w, t, d.id) ensures Wins(w, b, t, e, d) {
      CanDoExactly(w, t, d);
      assert ScoreOf(w, b, reqs, d) in cs && ScoreOf(w, b, reqs, d) != best;
      BetterWins(w, b, t, e, d);
    }
  }

  /** A task that is not pending, or that nobody can do, is left as it is; and only such a task. */
  lemma LeftAloneExactly(w: World, b: Board, t: nat)
    requires t in b.tasks && DistinctEmployees(w.employees)
    ensures AssignTask(w, b, t) == b <==>
            b.tasks[t].status != Pending || forall d :: d in w.employees ==> !CanDo(w, t, d.id)
  {
    var reqs := RequirementsOf(w, t);
    CandidatesAreEligible(w, b, reqs, w.employees);
    forall d | d in w.employees ensures Eligible(w, reqs, d) <==> CanDo(w, t, d.id) { CanDoExactly(w, t, d); }
    if b.tasks[t].status == Pending && exists d :: d in w.employees && CanDo(w, t, d.id) {
      var e, base, active := ChosenIsBest(w, b, t);
    }
    var cs := Candidates(w, b, reqs, w.employees);
    if cs != [] { assert cs[0] in cs; }
  }

  /** An assignment of a run, and the moment at which it was made. */
  ghost predicate WasChoice(w: World, b: Board, ts: seq<nat>, i: nat, k: nat)
    requires (forall t :: t in ts ==> t in b.tasks) && k < |ts|
  {
    var before, after := VisitAll(w, b, ts[..k]).board, VisitAll(w, b, ts).board;
    && i == |before.assignments| && i < |after.assignments|
    && after.assignments[i].task == ts[k] && after.assignments[i].auto
    && exists e, base, active :: IsChoice(w, before, ts[k], e) && e.id == after.assignments[i].employee
                              && Scores(w, before, ts[k], e.id, base, active, after.assignments[i].score)
  }

  /** Over a run: every new assignment is automatic and goes to the listed, eligible employee who
      was strictly best when its task came up, with the workloads of that moment. */
  lemma {:induction false} EveryChoiceIsBest(w: World, b: Board, ts: seq<nat>, i: nat) returns (k: nat)
    requires (forall t :: t in ts ==> t in b.tasks) && DistinctEmployees(w.employees)
    requires |b.assignments| <= i < |VisitAll(w, b, ts).board.assignments|
    ensures k < |ts| && WasChoice(w, b, ts, i, k)
  {
    var front, t := ts[..|ts| - 1], ts[|ts| - 1];
    var run, last := VisitAll(w, b, front), VisitAll(w, b, ts).board;
    VisitExtends(w, run, t);
    if i < |run.board.assignments| {
      k := EveryChoiceIsBest(w, b, front, i);
      assert front[..k] == ts[..k];
      assert last.assignments[i] == run.board.assignments[i];
    } else {
      k := |ts| - 1;
      LeftAloneExactly(w, run.board, t);
      var e, base, active := ChosenIsBest(w, run.board, t);
    }
  }

  /** Every visit of a run: a task that is not pending, or has an assignment, is skipped; one that
      nobody can do is counted and left; any other one is assigned. */
  lemma EveryVisitShows(w: World, b: Board, ts: seq<nat>, i: nat)
    requires (forall t :: t in ts ==> t in b.tasks) && DistinctEmployees(w.employees) && i < |ts|
    ensures var before, after := VisitAll(w, b, ts[..i]), VisitAll(w, b, ts[..i + 1]);
      var t, board := ts[i], before.board;
      if board.tasks[t].status != Pending || exists k :: 0 <= k < |board.assignments| && board.assignments[k].task == t
      then after == before.(skipped := before.skipped + 1)
      else if forall e :: e in w.employees ==> !CanDo(w, t, e.id)
      then after == before.(noEligible := before.noEligible + 1)
      else after == Run(AssignTask(w, board, t), before.placed + 1, before.skipped, before.noEligible)
  {
    assert ts[..i + 1][..i] == ts[..i];
    var before := VisitAll(w, b, ts[..i]);
    assert ts[i] in ts;
    LeftAloneExactly(w, before.board, ts[i]);
  }

  lemma OneEmployee(es: seq<Employee>, a: Employee, b: Employee)
    requires DistinctEmployees(es) && a in es && b in es && a.id == b.id
    ensures a == b
  {
  }

  /** What a run changes: it adds automatic assignments at the end, each for a task that had
      none, and makes those tasks assigned; nothing else. */
  ghost predicate Extends(b: Board, c: Board) {
    && b.tasks.Keys == c.tasks.Keys
    && |b.assignments| <= |c.assignments| && c.assignments[..|b.assignments|] == b.assignments
    && (forall t :: t in b.tasks ==>
          if b.tasks[t].status == Pending && c.tasks[t] != b.tasks[t]
          then c.tasks[t] == b.tasks[t].(status := Assigned) && HasAssignment(c, t) && !HasAssignment(b, t)
          else c.tasks[t] == b.tasks[t] && (HasAssignment(c, t) <==> HasAssignment(b, t)))
  }

  lemma VisitExtends(w: World, run: Run, t: nat)
    requires t in run.board.tasks
    ensures Extends(run.board, Visit(w, run, t).board)
  {
    var b, c := run.board, Visit(w, run, t).board;
    if b != c {
      assert c.assignments[|b.assignments|].task == t;
      forall s | s in b.tasks && s != t ensures HasAssignment(c, s) <==> HasAssignment(b, s) {
        if HasAssignment(b, s) {
          var i :| 0 <= i < |b.assignments| && b.assignments[i].task == s;
          assert c.assignments[i].task == s;
        }
      }
    }
  }

  lemma ExtendsTransitive(a: Board, b: Board, c: Board)
    requires Extends(a, b) && Extends(b, c)
    ensures Extends(a, c)
  {
    assert c.assignments[..|a.assignments|] == c.assignments[..|b.assignments|][..|a.assignments|];
  }

  lemma {:induction false} RunExtends(w: World, b: Board, ts: seq<nat>)
    requires forall t :: t in ts ==> t in b.tasks
    ensures Extends(b, VisitAll(w, b, ts).board)
  {
    if ts == [] {
    } else {
      var run := VisitAll(w, b, ts[..|ts| - 1]);
      RunExtends(w, b, ts[..|ts| - 1]);
      VisitExtends(w, run, ts[|ts| - 1]);
      ExtendsTransitive(b, run.board, VisitAll(w, b, ts).board);
    }
  }

  /** No task has two automatic assignments. */
  ghost predicate AutoOnce(b: Board) {
    forall i, j :: 0 <= i < j < |b.assignments| && b.assignments[i].auto && b.assignments[j].auto ==>
      b.assignments[i].task != b.assignments[j].task
  }

  /** Runs never give a task a second automatic assignment. */
  lemma {:induction false} AutoOnceIsKept(w: World, b: Board, ts: seq<nat>)
    requires AutoOnce(b) && forall t :: t in ts ==> t in b.tasks
    ensures AutoOnce(VisitAll(w, b, ts).board)
  {
    if ts == [] {
    } else {
      AutoOnceIsKept(w, b, ts[..|ts| - 1]);
    }
  }

  /** What a run leaves pending, it leaves for a reason that the run does not change. */
  ghost predicate LeftFor(w: World, b: Board, t: nat) {
    HasAssignment(b, t) || Candidates(w, b, RequirementsOf(w, t), w.employees) == []
  }

  lemma {:induction false} LeftPending(w: World, b: Board, ts: seq<nat>, t: nat)
    requires (forall s :: s in ts ==> s in b.tasks) && t in ts && b.tasks[t].status == Pending
    requires VisitAll(w, b, ts).board.tasks[t].status == Pending
    ensures LeftFor(w, VisitAll(w, b, ts).board, t)
  {
    var front, last := ts[..|ts| - 1], ts[|ts| - 1];
    var run := VisitAll(w, b, front);
    assert ts == front + [last];
    RunExtends(w, b, front);
    VisitExtends(w, run, last);
    if t !in front {
    } else {
      LeftPending(w, b, front, t);
    }
    NobodyEligible(w, run.board, VisitAll(w, b, ts).board, RequirementsOf(w, t), w.employees);
  }

  /** A second run over the same world assigns nothing and changes nothing, although the
      first one changed the workloads and so the scores. */
  lemma SecondRunIsIdle(w: World, b: Board, ts: seq<nat>, us: seq<nat>, dayStart: int, dayEnd: int)
    requires PendingTasks(b, dayStart, dayEnd, ts)
    requires PendingTasks(VisitAll(w, b, ts).board, dayStart, dayEnd, us)
    ensures var first := VisitAll(w, b, ts); var second := VisitAll(w, first.board, us);
      second.placed == 0 && second.board == first.board && second.skipped + second.noEligible == |us|
  {
    var c := VisitAll(w, b, ts).board;
    RunExtends(w, b, ts);
    forall t | t in us ensures LeftFor(w, c, t) {
      assert t in c.tasks && IsDue(c.tasks[t], dayStart, dayEnd);
      assert IsDue(b.tasks[t], dayStart, dayEnd);
      LeftPending(w, b, ts, t);
    }
    IdleRun(w, c, us);
  }

  lemma {:induction false} IdleRun(w: World, b: Board, ts: seq<nat>)
    requires forall t :: t in ts ==> t in b.tasks && LeftFor(w, b, t)
    ensures var r := VisitAll(w, b, ts); r.board == b && r.placed == 0 && r.skipped + r.noEligible == |ts|
  {
    if ts == [] {
    } else {
      IdleRun(w, b, ts[..|ts| - 1]);
      assert ts[|ts| - 1] in ts;
    }
  }
}
