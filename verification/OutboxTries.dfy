/** How often one outbox row is tried, over whole runs: committed tries are the ones
    that the table counts, and tries that are rolled back are not counted at all. */
module OutboxTries {
  import opened Wrappers
  import opened Outbox

  /** The batch has handled the row, or broke on it. */
  predicate Tried(b: Batch, id: nat) {
    id in b.claimed[..if b.at < |b.claimed| then b.at else |b.claimed|] || (b.broken && IsNext(b, id))
  }

  /** The step handles the row. */
  predicate HandlesRow(s: Db, step: Step, id: nat) {
    step.Process? && step.worker in s.flight && IsNext(s.flight[step.worker], id)
  }

  /** The step ends a batch that has tried the row. */
  predicate EndsTry(s: Db, worker: nat, id: nat) {
    worker in s.flight && Tried(s.flight[worker], id)
  }

  ghost function Tries(steps: seq<Step>, id: nat): (r: nat)
    requires Legal(steps)
  {
    if steps == [] then 0
    else
      var front, step := steps[..|steps| - 1], steps[|steps| - 1];
      Tries(front, id) + if HandlesRow(After(front), step, id) then 1 else 0
  }

  /** Tries that were committed. */
  ghost function Committed(steps: seq<Step>, id: nat): (r: nat)
    requires Legal(steps)
  {
    if steps == [] then 0
    else
      var front, step := steps[..|steps| - 1], steps[|steps| - 1];
      Committed(front, id) + if step.Commit? && EndsTry(After(front), step.worker, id) then 1 else 0
  }

  /** Tries that were rolled back. */
  ghost function RolledBack(steps: seq<Step>, id: nat): (r: nat)
    requires Legal(steps)
  {
    if steps == [] then 0
    else
      var front, step := steps[..|steps| - 1], steps[|steps| - 1];
      RolledBack(front, id) + if step.Rollback? && EndsTry(After(front), step.worker, id) then 1 else 0
  }

  /** The try of a transaction still in flight, if there is one. */
  ghost function Open(s: Db, id: nat): (r: nat) {
    if exists w :: w in s.flight && Tried(s.flight[w], id) then 1 else 0
  }

  lemma OneTry(s: Db, v: nat, w: nat, id: nat)
    requires Sound(s) && v in s.flight && w in s.flight && v != w && id in s.flight[w].claimed
    ensures !Tried(s.flight[v], id)
  {
  }

  /** The tries still open, without the batch of one worker. */
  ghost predicate OpenElsewhere(s: Db, w: nat, id: nat) {
    exists v :: v in s.flight && v != w && Tried(s.flight[v], id)
  }

  lemma OpenSplits(s: Db, w: nat, id: nat)
    requires w in s.flight
    ensures Open(s, id) == 1 <==> Tried(s.flight[w], id) || OpenElsewhere(s, w, id)
  {
  }

  lemma NotElsewhere(s: Db, w: nat, id: nat)
    requires Sound(s) && w in s.flight && id in s.flight[w].claimed
    ensures !OpenElsewhere(s, w, id)
  {
    forall v | v in s.flight && v != w ensures !Tried(s.flight[v], id) { OneTry(s, v, w, id); }
  }

  lemma OthersUnchanged(s: Db, t: Db, w: nat, id: nat)
    requires s.flight - {w} == t.flight - {w}
    ensures OpenElsewhere(s, w, id) <==> OpenElsewhere(t, w, id)
  {
    assert forall v :: v != w ==> (v in s.flight <==> v in s.flight - {w}) && (v in t.flight <==> v in t.flight - {w});
    assert forall v :: v in s.flight && v != w ==> s.flight[v] == (s.flight - {w})[v];
    assert forall v :: v in t.flight && v != w ==> t.flight[v] == (t.flight - {w})[v];
  }

  /** Handling one row of a batch. */
  lemma TriedStep(s: Db, b: Batch, outcome: Outcome, id: nat)
    requires BatchOk(s, b) && b.at < |b.claimed| && !b.broken
    ensures Tried(Handle(s, b, outcome), id) <==> Tried(b, id) || IsNext(b, id)
    ensures IsNext(b, id) ==> !Tried(b, id)
    ensures Tried(b, id) || IsNext(b, id) ==> id in b.claimed
  {
    assert b.claimed[..b.at + 1] == b.claimed[..b.at] + [b.claimed[b.at]];
    assert IsNext(b, id) ==> forall i :: 0 <= i < b.at ==> b.claimed[i] != id;
  }

  /** One step: a try begins when the row is handled, and ends with its batch. */
  lemma OpenStep(s: Db, step: Step, id: nat)
    requires Sound(s) && Enabled(s, step)
    ensures Open(s, id) + (if HandlesRow(s, step, id) then 1 else 0)
            == Open(Apply(s, step), id)
               + if (step.Commit? || step.Rollback?) && EndsTry(s, step.worker, id) then 1 else 0
  {
    var t := Apply(s, step);
    match step
    case Enqueue(_, _) =>
    case Begin(w, now, _, _, ids) => BeginOpens(s, t, w, id);
    case Process(w, outcome) => HandleOpens(s, t, w, outcome, id);
    case Commit(w) => EndStep(s, t, w, id);
    case Rollback(w) => EndStep(s, t, w, id);
  }

  lemma BeginOpens(s: Db, t: Db, w: nat, id: nat)
    requires w !in s.flight && w in t.flight && t.flight - {w} == s.flight - {w} && !Tried(t.flight[w], id)
    ensures Open(s, id) == Open(t, id)
  {
    OthersUnchanged(s, t, w, id);
    assert Open(s, id) == 1 <==> OpenElsewhere(s, w, id);
    assert Open(t, id) == 1 <==> OpenElsewhere(t, w, id);
  }

  lemma HandleOpens(s: Db, t: Db, w: nat, outcome: Outcome, id: nat)
    requires Sound(s) && Enabled(s, Process(w, outcome)) && t == Apply(s, Process(w, outcome))
    ensures Open(t, id) == Open(s, id) + if IsNext(s.flight[w], id) then 1 else 0
  {
    OthersUnchanged(s, t, w, id);
    OpenSplits(s, w, id);
    OpenSplits(t, w, id);
    assert BatchOk(s, s.flight[w]);
    TriedStep(s, s.flight[w], outcome, id);
    if id in s.flight[w].claimed { NotElsewhere(s, w, id); }
  }

  lemma EndStep(s: Db, t: Db, w: nat, id: nat)
    requires Sound(s) && w in s.flight && t.flight == s.flight - {w}
    ensures Open(s, id) == Open(t, id) + if Tried(s.flight[w], id) then 1 else 0
  {
    OpenSplits(s, w, id);
    OthersUnchanged(s, t, w, id);
    assert BatchOk(s, s.flight[w]);
    if id in s.flight[w].claimed { NotElsewhere(s, w, id); }
  }

  /** Every try of a row is committed, rolled back or still open. */
  lemma {:induction false} EveryTryEnds(steps: seq<Step>, id: nat)
    requires Legal(steps)
    ensures Tries(steps, id) == Committed(steps, id) + RolledBack(steps, id) + Open(After(steps), id)
  {
    if steps == [] {
    } else {
      var front, step := steps[..|steps| - 1], steps[|steps| - 1];
      EveryTryEnds(front, id);
      EveryStateIsSound(front);
      OpenStep(After(front), step, id);
    }
  }

  /** The tries that the table shows. */
  function Shown(rows: seq<OutboxRow>, id: nat): (r: nat) {
    if id >= |rows| then 0 else rows[id].attempts + if rows[id].status == Sent then 1 else 0
  }

  lemma ShownStep(s: Db, step: Step, id: nat)
    requires Sound(s) && Enabled(s, step)
    ensures Shown(Apply(s, step).rows, id)
            == Shown(s.rows, id) + if step.Commit? && EndsTry(s, step.worker, id) then 1 else 0
  {
    if step.Commit? {
      var b := s.flight[step.worker];
      assert BatchOk(s, b) && b.claimed[..b.at] == b.claimed;
      assert id in b.writes <==> Tried(b, id);
      if id in b.writes { WrittenWasPending(s, b, id); }
    }
  }

  /** The committed tries are exactly the attempts that raised and the delivery. */
  lemma {:induction false} CommittedAreShown(steps: seq<Step>, id: nat)
    requires Legal(steps)
    ensures Committed(steps, id) == Shown(After(steps).rows, id)
  {
    if steps == [] {
    } else {
      var front, step := steps[..|steps| - 1], steps[|steps| - 1];
      CommittedAreShown(front, id);
      EveryStateIsSound(front);
      ShownStep(After(front), step, id);
    }
  }

  /** The exact count for every row of every run: the tries are the attempts in the
      table, the delivery, the tries that were rolled back, and one still open. So a
      row is tried at most five times, not counting the tries that were rolled back. */
  lemma TriesOfARow(steps: seq<Step>, id: nat)
    requires Legal(steps)
    ensures Tries(steps, id) == Shown(After(steps).rows, id) + RolledBack(steps, id) + Open(After(steps), id)
    ensures Tries(steps, id) <= 5 + RolledBack(steps, id)
  {
    EveryTryEnds(steps, id);
    CommittedAreShown(steps, id);
    EveryStateIsSound(steps);
    OpenRowIsPending(After(steps), id);
  }

  lemma OpenRowIsPending(s: Db, id: nat)
    requires Sound(s)
    ensures Open(s, id) == 1 ==> id < |s.rows| && s.rows[id].status == Pending
    ensures Shown(s.rows, id) + Open(s, id) <= MAX_ATTEMPTS
  {
    if w :| w in s.flight && Tried(s.flight[w], id) {
      assert BatchOk(s, s.flight[w]);
      assert id in s.flight[w].claimed;
      var i :| 0 <= i < |s.flight[w].claimed| && s.flight[w].claimed[i] == id;
    }
    if id < |s.rows| { assert RowOk(s.rows[id], id in s.notes); }
  }

  lemma {:induction false} NothingRolledBack(steps: seq<Step>, id: nat)
    requires Legal(steps) && forall i :: 0 <= i < |steps| ==> !steps[i].Rollback?
    ensures RolledBack(steps, id) == 0
  {
    if steps == [] {
    } else {
      NothingRolledBack(steps[..|steps| - 1], id);
    }
  }

  /** In a run without a rollback every row is tried at most five times. */
  lemma FiveTriesWithoutRollback(steps: seq<Step>, id: nat)
    requires Legal(steps) && forall i :: 0 <= i < |steps| ==> !steps[i].Rollback?
    ensures Tries(steps, id) <= 5
  {
    NothingRolledBack(steps, id);
    TriesOfARow(steps, id);
  }

  // --------------------------------------------------------------- tried without end

  /** A row is enqueued, and `n` times a worker claims it, breaks on it and rolls back. */
  function BreakingRun(n: nat): (r: seq<Step>) {
    if n == 0 then [Enqueue(true, 0)]
    else BreakingRun(n - 1) + [Begin(0, 0, 0, 1, [0])] + [Process(0, Breaks)] + [Rollback(0)]
  }

  lemma Extend(steps: seq<Step>, step: Step, id: nat)
    requires Legal(steps) && Enabled(After(steps), step)
    ensures Legal(steps + [step]) && After(steps + [step]) == Apply(After(steps), step)
    ensures Tries(steps + [step], id) == Tries(steps, id) + if HandlesRow(After(steps), step, id) then 1 else 0
  {
    assert (steps + [step])[..|steps + [step]| - 1] == steps;
  }

  /** The tables with one row that has never been counted as tried. */
  function Stuck(): (r: Db) {
    Db([OutboxRow(true, Pending, 0, None, 0)], [], map[])
  }

  lemma BreakOnce() returns (t: Db, u: Db)
    ensures Enabled(Stuck(), Begin(0, 0, 0, 1, [0])) && t == Apply(Stuck(), Begin(0, 0, 0, 1, [0]))
    ensures Enabled(t, Process(0, Breaks)) && HandlesRow(t, Process(0, Breaks), 0) && u == Apply(t, Process(0, Breaks))
    ensures Enabled(u, Rollback(0)) && Apply(u, Rollback(0)) == Stuck()
  {
    var s := Stuck();
    assert IsClaim(s, 0, 1, [0]);
    t := Apply(s, Begin(0, 0, 0, 1, [0]));
    u := Apply(t, Process(0, Breaks));
    assert u.flight - {0} == map[];
  }

  lemma BreakAgain(a: seq<Step>)
    requires Legal(a) && After(a) == Stuck()
    ensures var b := a + [Begin(0, 0, 0, 1, [0])] + [Process(0, Breaks)] + [Rollback(0)];
      Legal(b) && After(b) == Stuck() && Tries(b, 0) == Tries(a, 0) + 1
  {
    var t, u := BreakOnce();
    Extend(a, Begin(0, 0, 0, 1, [0]), 0);
    Extend(a + [Begin(0, 0, 0, 1, [0])], Process(0, Breaks), 0);
    Extend(a + [Begin(0, 0, 0, 1, [0])] + [Process(0, Breaks)], Rollback(0), 0);
  }

  lemma EnqueueFirst()
    ensures Legal([Enqueue(true, 0)]) && After([Enqueue(true, 0)]) == Stuck() && Tries([Enqueue(true, 0)], 0) == 0
  {
    assert [] + [Enqueue(true, 0)] == [Enqueue(true, 0)];
    Extend([], Enqueue(true, 0), 0);
  }

  /** There is no bound on the tries of a row: for every `n` a run tries one row `n` times,
      and the row is still pending, with no attempt counted. */
  lemma {:induction false} TriedWithoutEnd(n: nat)
    ensures Legal(BreakingRun(n)) && Tries(BreakingRun(n), 0) == n
    ensures After(BreakingRun(n)) == Db([OutboxRow(true, Pending, 0, None, 0)], [], map[])
  {
    if n == 0 {
      EnqueueFirst();
    } else {
      TriedWithoutEnd(n - 1);
      BreakAgain(BreakingRun(n - 1));
    }
  }

  /** Whatever happens after a batch broke, it stays as it is until its worker rolls back, and
      the rows that it claimed stay as they were: nothing of it ever reaches the tables. */
  lemma {:induction false} BrokenBatchNeverCommits(steps: seq<Step>, n: nat, w: nat)
    requires Legal(steps) && n <= |steps| && Legal(steps[..n])
    requires w in After(steps[..n]).flight && After(steps[..n]).flight[w].broken
    requires forall i :: n <= i < |steps| ==> steps[i] != Rollback(w)
    ensures w in After(steps).flight && After(steps).flight[w] == After(steps[..n]).flight[w]
    ensures ClaimedStay(After(steps[..n]), After(steps), w)
  {
    EveryStateIsSound(steps[..n]);
    if n == |steps| {
      assert steps[..n] == steps;
    } else {
      var front := steps[..|steps| - 1];
      assert front[..n] == steps[..n];
      BrokenBatchNeverCommits(front, n, w);
      EveryStateIsSound(front);
      BrokenStep(After(front), steps[|steps| - 1], w);
    }
  }

  /** The rows that the worker claimed, and their notifications, are in `t` as they are in `s`. */
  ghost predicate ClaimedStay(s: Db, t: Db, w: nat)
    requires w in s.flight
  {
    forall id :: id in s.flight[w].claimed ==>
      id < |s.rows| && id < |t.rows| && t.rows[id] == s.rows[id] && (id in t.notes <==> id in s.notes)
  }

  lemma BrokenStep(s: Db, step: Step, w: nat)
    requires Sound(s) && w in s.flight && s.flight[w].broken && Enabled(s, step) && step != Rollback(w)
    ensures var t := Apply(s, step); w in t.flight && t.flight[w] == s.flight[w] && ClaimedStay(s, t, w)
  {
    BrokenBatchIsUndone(s, w, step);
    forall id | id in s.flight[w].claimed ensures id < |s.rows| { assert BatchOk(s, s.flight[w]); }
    if step.Commit? {
      var v := step.worker;
      forall id | id in s.flight[w].claimed ensures id !in s.flight[v].writes {
        if id in s.flight[v].writes { WrittenWasPending(s, s.flight[v], id); }
      }
    }
  }
}
