/** The notification outbox: workers that claim pending rows under row locks, turn
    them into notifications or schedule a retry, and commit or roll back whole
    batches, in any interleaving. Rows are named by their position in the table. */
module Outbox {
  import opened Wrappers

  const MAX_ATTEMPTS := 5

  datatype RowStatus = Pending | Sent | Failed

  datatype OutboxRow = OutboxRow(inApp: bool, status: RowStatus, attempts: nat, retryAt: Option<int>, created: int)

  /** A transaction in flight: what it claimed, how far it got, and what it has written so far. */
  datatype Batch = Batch(
    now: int, claimed: seq<nat>, at: nat, writes: map<nat, OutboxRow>, inserted: seq<nat>, broken: bool)

  /** The committed tables, and the transactions in flight by worker. A notification is
      named by the outbox row that it came from. */
  datatype Db = Db(rows: seq<OutboxRow>, notes: seq<nat>, flight: map<nat, Batch>)

  const EMPTY := Db([], [], map[])

  // ------------------------------------------------------------------ claiming

  predicate Due(row: OutboxRow, dbNow: int) {
    row.inApp && row.status == Pending && (row.retryAt.Some? ==> row.retryAt.value <= dbNow)
  }

  predicate Locked(s: Db, id: nat) {
    exists w :: w in s.flight && id in s.flight[w].claimed
  }

  predicate Before(rows: seq<OutboxRow>, a: nat, b: nat)
    requires a < |rows| && b < |rows|
  {
    rows[a].created < rows[b].created || (rows[a].created == rows[b].created && a < b)
  }

  /** What the locking query answers: the first due rows that nobody else has locked. */
  ghost predicate IsClaim(s: Db, dbNow: int, limit: nat, ids: seq<nat>) {
    && |ids| <= limit && NoDup(ids)
    && (forall i :: 0 <= i < |ids| ==> ids[i] < |s.rows| && Due(s.rows[ids[i]], dbNow) && !Locked(s, ids[i]))
    && (forall i, j :: 0 <= i < j < |ids| ==> Before(s.rows, ids[i], ids[j]))
    && (forall id :: 0 <= id < |s.rows| && Due(s.rows[id], dbNow) && !Locked(s, id) && id !in ids ==>
          |ids| == limit && forall i :: 0 <= i < |ids| ==> Before(s.rows, ids[i], id))
  }

  // ------------------------------------------------------------------ one row

  /** How handling a row ends: it is delivered, it raises before any statement of its
      own, or it breaks the transaction, so that nothing but a rollback is left. */
  datatype Outcome = Delivers | Raises | Breaks

  function PowerOfTwo(n: nat): (r: nat)
    ensures r > 0
  {
    if n == 0 then 1 else 2 * PowerOfTwo(n - 1)
  }

  /** Seconds until the next try, after `n` attempts. */
  function Delay(n: nat): (r: nat)
    requires n > 0
  {
    var d := 5 * PowerOfTwo(n - 1);
    if d < 60 then d else 60
  }

  /** A row after an attempt that raised. */
  function Retried(row: OutboxRow, now: int): (r: OutboxRow) {
    var n := row.attempts + 1;
    if n >= MAX_ATTEMPTS then row.(attempts := n, retryAt := None, status := Failed)
    else row.(attempts := n, retryAt := Some(now + Delay(n)), status := Pending)
  }

  function Handle(s: Db, b: Batch, outcome: Outcome): (r: Batch)
    requires b.at < |b.claimed| && b.claimed[b.at] < |s.rows|
  {
    var id := b.claimed[b.at];
    var row := s.rows[id];
    match outcome
    case Delivers =>
      b.(at := b.at + 1, writes := b.writes[id := row.(status := Sent)],
         inserted := if id in s.notes || id in b.inserted then b.inserted else b.inserted + [id])
    case Raises => b.(at := b.at + 1, writes := b.writes[id := Retried(row, b.now)])
    case Breaks => b.(broken := true)
  }

  // ---------------------------------------------------------------------- steps

  datatype Step =
    | Enqueue(inApp: bool, created: int)
    | Begin(worker: nat, now: int, dbNow: int, limit: nat, ids: seq<nat>)
    | Process(worker: nat, outcome: Outcome)
    | Commit(worker: nat)
    | Rollback(worker: nat)

  ghost predicate Enabled(s: Db, step: Step) {
    match step
    case Enqueue(_, _) => true
    case Begin(w, _, dbNow, limit, ids) => w !in s.flight && IsClaim(s, dbNow, limit, ids)
    case Process(w, _) =>
      w in s.flight && !s.flight[w].broken && s.flight[w].at < |s.flight[w].claimed|
      && s.flight[w].claimed[s.flight[w].at] < |s.rows|
    case Commit(w) => w in s.flight && !s.flight[w].broken && s.flight[w].at == |s.flight[w].claimed|
    case Rollback(w) => w in s.flight
  }

  function Written(rows: seq<OutboxRow>, writes: map<nat, OutboxRow>): (r: seq<OutboxRow>)
    ensures |r| == |rows| && forall i :: 0 <= i < |r| ==> r[i] == if i in writes then writes[i] else rows[i]
  {
    seq(|rows|, i requires 0 <= i < |rows| => if i in writes then writes[i] else rows[i])
  }

  ghost function Apply(s: Db, step: Step): (r: Db)
    requires Enabled(s, step)
  {
    match step
    case Enqueue(inApp, created) => s.(rows := s.rows + [OutboxRow(inApp, Pending, 0, None, created)])
    case Begin(w, now, _, _, ids) => s.(flight := s.flight[w := Batch(now, ids, 0, map[], [], false)])
    case Process(w, outcome) => s.(flight := s.flight[w := Handle(s, s.flight[w], outcome)])
    case Commit(w) =>
      Db(Written(s.rows, s.flight[w].writes), s.notes + s.flight[w].inserted, s.flight - {w})
    case Rollback(w) => s.(flight := s.flight - {w})
  }

  // ------------------------------------------------------------------ invariant

  predicate RowOk(row: OutboxRow, notified: bool) {
    && (row.status == Pending ==> row.attempts < MAX_ATTEMPTS)
    && (row.status == Failed ==> row.attempts == MAX_ATTEMPTS)
    && (row.status == Sent <==> notified)
    && (row.status == Sent ==> row.attempts < MAX_ATTEMPTS)
  }

  ghost predicate TablesOk(s: Db) {
    && NoDup(s.notes) && (forall id :: id in s.notes ==> id < |s.rows|)
    && (forall id :: 0 <= id < |s.rows| ==> RowOk(s.rows[id], id in s.notes))
  }

  /** A row that a transaction has written: sent with its notification, or tried once more. */
  ghost predicate WriteOk(row: OutboxRow, written: OutboxRow, notified: bool) {
    && RowOk(written, notified)
    && written.attempts == row.attempts + if written.status == Sent then 0 else 1
  }

  ghost predicate BatchOk(s: Db, b: Batch) {
    && NoDup(b.claimed) && b.at <= |b.claimed|
    && (forall i :: 0 <= i < |b.claimed| ==> b.claimed[i] < |s.rows| && s.rows[b.claimed[i]].status == Pending)
    && b.writes.Keys == Elems(b.claimed[..b.at])
    && (forall id :: id in b.writes ==> id < |s.rows| && WriteOk(s.rows[id], b.writes[id], id in b.inserted))
    && NoDup(b.inserted) && (forall id :: id in b.inserted ==> id in b.writes)
  }

  /** Transactions in flight never share a row. */
  ghost predicate Disjoint(s: Db) {
    forall v, w, id :: v in s.flight && w in s.flight && v != w && id in s.flight[v].claimed ==>
      id !in s.flight[w].claimed
  }

  ghost predicate Sound(s: Db) {
    TablesOk(s) && Disjoint(s) && forall w :: w in s.flight ==> BatchOk(s, s.flight[w])
  }

  lemma BeginIsSound(s: Db, w: nat, now: int, dbNow: int, limit: nat, ids: seq<nat>)
    requires Sound(s) && Enabled(s, Begin(w, now, dbNow, limit, ids))
    ensures Sound(Apply(s, Begin(w, now, dbNow, limit, ids)))
  {
    var t := Apply(s, Begin(w, now, dbNow, limit, ids));
    forall v, id | v in s.flight && id in ids ensures id !in s.flight[v].claimed {
      var i :| 0 <= i < |ids| && ids[i] == id;
      assert !Locked(s, ids[i]);
    }
    forall u | u in t.flight ensures BatchOk(t, t.flight[u]) {
      assert u != w ==> t.flight[u] == s.flight[u];
    }
  }

  lemma HandleIsSound(s: Db, b: Batch, outcome: Outcome)
    requires TablesOk(s) && BatchOk(s, b) && b.at < |b.claimed|
    ensures BatchOk(s, Handle(s, b, outcome))
  {
    var id, c := b.claimed[b.at], Handle(s, b, outcome);
    NextIsNew(s, b);
    assert b.claimed[..b.at + 1] == b.claimed[..b.at] + [id];
    if outcome == Delivers {
      OneMoreWrite(s, b, id, s.rows[id].(status := Sent), b.inserted + [id], c);
    } else if outcome == Raises {
      OneMoreWrite(s, b, id, Retried(s.rows[id], b.now), b.inserted, c);
    }
  }

  lemma OneMoreWrite(s: Db, b: Batch, id: nat, row: OutboxRow, inserted: seq<nat>, c: Batch)
    requires BatchOk(s, b) && b.at < |b.claimed| && id == b.claimed[b.at] && id !in b.writes
    requires b.claimed[..b.at + 1] == b.claimed[..b.at] + [id]
    requires NoDup(inserted) && forall k :: k in inserted <==> k in b.inserted || (k == id && row.status == Sent)
    requires WriteOk(s.rows[id], row, id in inserted)
    requires c == b.(at := b.at + 1, writes := b.writes[id := row], inserted := inserted)
    ensures BatchOk(s, c)
  {
    assert c.writes.Keys == Elems(c.claimed[..c.at]);
    forall k | k in c.writes ensures k < |s.rows| && WriteOk(s.rows[k], c.writes[k], k in c.inserted) {
      assert k != id ==> k in b.writes && (k in c.inserted <==> k in b.inserted);
    }
  }

  /** The next row of a batch is still pending, unwritten and not notified. */
  lemma NextIsNew(s: Db, b: Batch)
    requires TablesOk(s) && BatchOk(s, b) && b.at < |b.claimed|
    ensures var id := b.claimed[b.at];
      id !in s.notes && id !in b.inserted && id !in b.writes && RowOk(s.rows[id], false) && s.rows[id].status == Pending
  {
    var id := b.claimed[b.at];
    assert RowOk(s.rows[id], id in s.notes);
    assert forall i :: 0 <= i < b.at ==> b.claimed[i] != id;
    assert id !in Elems(b.claimed[..b.at]);
  }

  lemma ProcessIsSound(s: Db, w: nat, outcome: Outcome)
    requires Sound(s) && Enabled(s, Process(w, outcome))
    ensures Sound(Apply(s, Process(w, outcome)))
  {
    var t := Apply(s, Process(w, outcome));
    HandleIsSound(s, s.flight[w], outcome);
    assert t.flight[w].claimed == s.flight[w].claimed;
    forall u | u in t.flight ensures BatchOk(t, t.flight[u]) {
      assert BatchOk(s, t.flight[u]);
    }
  }

  lemma CommitTables(s: Db, w: nat)
    requires Sound(s) && Enabled(s, Commit(w))
    ensures TablesOk(Apply(s, Commit(w)))
  {
    var b, t := s.flight[w], Apply(s, Commit(w));
    assert forall id :: id in b.inserted ==> id in b.writes && s.rows[id].status == Pending && id !in s.notes by {
      forall id | id in b.inserted ensures id in b.writes && s.rows[id].status == Pending && id !in s.notes {
        WrittenWasPending(s, b, id);
        assert RowOk(s.rows[id], id in s.notes);
      }
    }
    NoDupConcat(s.notes, b.inserted);
    forall id | 0 <= id < |t.rows| ensures RowOk(t.rows[id], id in t.notes) {
      assert RowOk(s.rows[id], id in s.notes);
      if id in b.writes { WrittenWasPending(s, b, id); }
    }
  }

  lemma WrittenWasPending(s: Db, b: Batch, id: nat)
    requires BatchOk(s, b) && id in b.writes
    ensures id < |s.rows| && s.rows[id].status == Pending && id in b.claimed
  {
    assert id in b.claimed[..b.at];
    var i :| 0 <= i < b.at && b.claimed[i] == id;
  }

  lemma CommitIsSound(s: Db, w: nat)
    requires Sound(s) && Enabled(s, Commit(w))
    ensures Sound(Apply(s, Commit(w)))
  {
    var b, t := s.flight[w], Apply(s, Commit(w));
    CommitTables(s, w);
    forall u | u in t.flight ensures BatchOk(t, t.flight[u]) {
      var c := s.flight[u];
      assert BatchOk(s, c);
      forall id | id in c.claimed ensures id !in b.writes {
        if id in b.writes { WrittenWasPending(s, b, id); }
      }
      assert forall i :: 0 <= i < |c.claimed| ==>
        c.claimed[i] in c.claimed && t.rows[c.claimed[i]] == s.rows[c.claimed[i]];
      forall id | id in c.writes ensures t.rows[id] == s.rows[id] { WrittenWasPending(s, c, id); }
    }
  }

  lemma EnqueueIsSound(s: Db, inApp: bool, created: int)
    requires Sound(s)
    ensures Sound(Apply(s, Enqueue(inApp, created)))
  {
    var t := Apply(s, Enqueue(inApp, created));
    assert forall id :: 0 <= id < |s.rows| ==> t.rows[id] == s.rows[id];
    forall u | u in t.flight ensures BatchOk(t, t.flight[u]) {
      assert BatchOk(s, t.flight[u]);
    }
  }

  /** Every step of every worker keeps the tables and the transactions consistent. */
  lemma StepIsSound(s: Db, step: Step)
    requires Sound(s) && Enabled(s, step)
    ensures Sound(Apply(s, step))
  {
    match step
    case Enqueue(inApp, created) => EnqueueIsSound(s, inApp, created);
    case Begin(w, now, dbNow, limit, ids) => BeginIsSound(s, w, now, dbNow, limit, ids);
    case Process(w, outcome) => ProcessIsSound(s, w, outcome);
    case Commit(w) => CommitIsSound(s, w);
    case Rollback(w) =>
      var t := Apply(s, step);
      assert forall u :: u in t.flight ==> BatchOk(s, t.flight[u]);
  }

  // ----------------------------------------------------------------------- runs

  /** Every step is enabled where it is taken. */
  ghost predicate Legal(steps: seq<Step>)
    decreases |steps|, 0
  {
    steps == [] || (Legal(steps[..|steps| - 1]) && Enabled(After(steps[..|steps| - 1]), steps[|steps| - 1]))
  }

  ghost function After(steps: seq<Step>): (r: Db)
    requires Legal(steps)
    decreases |steps|, 1
  {
    if steps == [] then EMPTY else Apply(After(steps[..|steps| - 1]), steps[|steps| - 1])
  }

  lemma {:induction false} EveryStateIsSound(steps: seq<Step>)
    requires Legal(steps)
    ensures Sound(After(steps))
  {
    if steps == [] {
    } else {
      EveryStateIsSound(steps[..|steps| - 1]);
      StepIsSound(After(steps[..|steps| - 1]), steps[|steps| - 1]);
    }
  }

  /** In every reachable state: no row is in two transactions; no outbox row has two
      notifications; a row is sent exactly when it has one; a pending row has been tried
      fewer than five times and a failed one five times. */
  lemma WhatHoldsAlways(steps: seq<Step>)
    requires Legal(steps)
    ensures var s := After(steps);
      && Disjoint(s) && NoDup(s.notes)
      && forall id :: 0 <= id < |s.rows| ==>
           && (s.rows[id].status == Sent <==> id in s.notes)
           && (s.rows[id].status == Pending ==> s.rows[id].attempts < 5)
           && (s.rows[id].status == Failed ==> s.rows[id].attempts == 5)
  {
    EveryStateIsSound(steps);
    var s := After(steps);
    forall id | 0 <= id < |s.rows| ensures RowOk(s.rows[id], id in s.notes) {}
  }

  /** A row that was sent or given up never changes again, and no notification is lost. */
  lemma TerminalRowsStay(s: Db, step: Step, id: nat)
    requires Sound(s) && Enabled(s, step) && id < |s.rows|
    ensures var t := Apply(s, step);
      && (s.rows[id].status != Pending ==> t.rows[id] == s.rows[id])
      && (id in s.notes ==> id in t.notes)
  {
    if step.Commit? {
      var b := s.flight[step.worker];
      if id in b.writes { WrittenWasPending(s, b, id); }
    }
  }

  // ------------------------------------------------------------------- progress

  function Weight(row: OutboxRow): (r: int) {
    if row.status == Pending then MAX_ATTEMPTS - row.attempts else 0
  }

  /** The tries that pending rows have left. */
  function TriesLeft(rows: seq<OutboxRow>): (r: int) {
    if rows == [] then 0 else TriesLeft(rows[..|rows| - 1]) + Weight(rows[|rows| - 1])
  }

  ghost function KeysBelow(writes: map<nat, OutboxRow>, n: nat): (r: set<nat>) {
    set id | id in writes && id < n
  }

  lemma {:induction false} TriesLeftDrop(rows: seq<OutboxRow>, writes: map<nat, OutboxRow>, n: nat)
    requires n <= |rows|
    requires forall id :: id in writes && id < |rows| ==> Weight(writes[id]) < Weight(rows[id])
    ensures TriesLeft(Written(rows, writes)[..n]) + |KeysBelow(writes, n)| <= TriesLeft(rows[..n])
  {
    var t := Written(rows, writes);
    if n == 0 {
      assert KeysBelow(writes, 0) == {};
    } else {
      TriesLeftDrop(rows, writes, n - 1);
      TriesLeftStep(rows, n);
      TriesLeftStep(t, n);
      KeysBelowStep(writes, n);
    }
  }

  lemma TriesLeftStep(rows: seq<OutboxRow>, n: nat)
    requires 0 < n <= |rows|
    ensures TriesLeft(rows[..n]) == TriesLeft(rows[..n - 1]) + Weight(rows[n - 1])
  {
    assert rows[..n][..n - 1] == rows[..n - 1];
  }

  lemma KeysBelowStep(writes: map<nat, OutboxRow>, n: nat)
    requires n > 0
    ensures |KeysBelow(writes, n)| == |KeysBelow(writes, n - 1)| + if n - 1 in writes then 1 else 0
  {
    assert KeysBelow(writes, n) == KeysBelow(writes, n - 1) + if n - 1 in writes then {n - 1} else {};
  }

  /** A committed batch uses up at least one try for every row that it claimed. */
  lemma CommitProgress(s: Db, w: nat)
    requires Sound(s) && Enabled(s, Commit(w))
    ensures TriesLeft(Apply(s, Commit(w)).rows) + |s.flight[w].claimed| <= TriesLeft(s.rows)
  {
    var b := s.flight[w];
    var t := Written(s.rows, b.writes);
    forall id | id in b.writes && id < |s.rows| ensures Weight(b.writes[id]) < Weight(s.rows[id]) {
      WrittenWasPending(s, b, id);
      assert RowOk(s.rows[id], id in s.notes);
    }
    TriesLeftDrop(s.rows, b.writes, |s.rows|);
    assert t[..|s.rows|] == t && s.rows[..|s.rows|] == s.rows;
    assert b.claimed[..b.at] == b.claimed;
    assert KeysBelow(b.writes, |s.rows|) == b.writes.Keys;
    NoDupCardinality(b.claimed);
  }

  /** The rows that the committed batches of a run had claimed, all together. */
  ghost function Handled(steps: seq<Step>): (r: nat)
    requires Legal(steps)
  {
    if steps == [] then 0
    else
      var front, step := steps[..|steps| - 1], steps[|steps| - 1];
      Handled(front) + if step.Commit? then |After(front).flight[step.worker].claimed| else 0
  }

  function Enqueued(steps: seq<Step>): (r: nat) {
    if steps == [] then 0 else Enqueued(steps[..|steps| - 1]) + if steps[|steps| - 1].Enqueue? then 1 else 0
  }

  /** Over any run, however the workers interleave, rows are handled in committed batches
      at most five times as often as rows were enqueued; what is left of that is exactly
      an upper bound for what pending rows can still use. */
  lemma {:induction false} WorkIsBounded(steps: seq<Step>)
    requires Legal(steps)
    ensures Handled(steps) + TriesLeft(After(steps).rows) <= 5 * Enqueued(steps)
    ensures Handled(steps) <= 5 * Enqueued(steps)
  {
    if steps == [] {
    } else {
      var front, step := steps[..|steps| - 1], steps[|steps| - 1];
      var s, t := After(front), After(steps);
      WorkIsBounded(front);
      EveryStateIsSound(front);
      match step
      case Enqueue(_, _) => assert t.rows[..|t.rows| - 1] == s.rows;
      case Commit(w) => CommitProgress(s, w);
      case _ =>
    }
    EveryStateIsSound(steps);
    NoTriesOwed(After(steps), |After(steps).rows|);
    assert After(steps).rows[..|After(steps).rows|] == After(steps).rows;
  }

  lemma {:induction false} NoTriesOwed(s: Db, n: nat)
    requires TablesOk(s) && n <= |s.rows|
    ensures TriesLeft(s.rows[..n]) >= 0
  {
    if n == 0 {
    } else {
      NoTriesOwed(s, n - 1);
      assert s.rows[..n][..n - 1] == s.rows[..n - 1];
      assert RowOk(s.rows[n - 1], n - 1 in s.notes);
    }
  }

  // ---------------------------------------------------------------- broken batches

  /** A batch in which a row broke the transaction can only be rolled back, and that
      leaves the tables as they were: no row of it has an attempt more. */
  lemma BrokenBatchIsUndone(s: Db, w: nat, step: Step)
    requires Sound(s) && w in s.flight && s.flight[w].broken && Enabled(s, step)
    ensures (step.Process? || step.Commit? || step.Begin?) ==> step.worker != w
    ensures step == Rollback(w) ==> Apply(s, step).rows == s.rows && Apply(s, step).notes == s.notes
  {
  }

  /** The limit of five tries only counts attempts that raise: a row that breaks its
      transaction whenever it is handled stays as it was enqueued, however often it is tried. */
  lemma {:induction false} PoisonedRowStays(steps: seq<Step>, n: nat, id: nat)
    requires Legal(steps) && n <= |steps| && Legal(steps[..n])
    requires id < |After(steps[..n]).rows| && After(steps[..n]).rows[id].status == Pending
    requires !Locked(After(steps[..n]), id)
    requires forall i :: n <= i < |steps| ==> Legal(steps[..i]) && OnlyBreaks(After(steps[..i]), steps[i], id)
    ensures id < |After(steps).rows| && After(steps).rows[id] == After(steps[..n]).rows[id]
    ensures forall w :: w in After(steps).flight ==> id !in After(steps).flight[w].writes
  {
    if n == |steps| {
      assert steps[..n] == steps;
      EveryStateIsSound(steps);
      forall w | w in After(steps).flight ensures id !in After(steps).flight[w].writes {
        WrittenIsLocked(After(steps), w, id);
      }
    } else {
      var front := steps[..|steps| - 1];
      assert forall i :: 0 <= i <= |front| ==> front[..i] == steps[..i];
      PoisonedRowStays(front, n, id);
      PoisonedStep(After(front), steps[|steps| - 1], id);
    }
  }

  lemma PoisonedStep(s: Db, step: Step, id: nat)
    requires Enabled(s, step) && id < |s.rows| && OnlyBreaks(s, step, id)
    requires forall w :: w in s.flight ==> id !in s.flight[w].writes
    ensures var t := Apply(s, step);
      id < |t.rows| && t.rows[id] == s.rows[id] && forall w :: w in t.flight ==> id !in t.flight[w].writes
  {
  }

  lemma WrittenIsLocked(s: Db, w: nat, id: nat)
    requires Sound(s) && w in s.flight
    ensures id in s.flight[w].writes ==> Locked(s, id)
  {
    if id in s.flight[w].writes { WrittenWasPending(s, s.flight[w], id); }
  }

  predicate IsNext(b: Batch, id: nat) {
    b.at < |b.claimed| && b.claimed[b.at] == id
  }

  /** If the step handles the row, the row breaks the transaction. */
  ghost predicate OnlyBreaks(s: Db, step: Step, id: nat) {
    step.Process? && step.worker in s.flight && IsNext(s.flight[step.worker], id) ==> step.outcome == Breaks
  }

  /** Waits double from five seconds on; the limit of sixty is never reached, since the
      fifth attempt is the last. */
  lemma WaitsDouble(row: OutboxRow, now: int)
    requires RowOk(row, false) && row.status == Pending
    ensures var next := Retried(row, now);
      if row.attempts == 4 then next.status == Failed && next.retryAt == None
      else next.status == Pending && next.retryAt == Some(now + 5 * PowerOfTwo(row.attempts))
           && 5 * PowerOfTwo(row.attempts) < 60
  {
    assert PowerOfTwo(0) == 1 && PowerOfTwo(1) == 2 && PowerOfTwo(2) == 4 && PowerOfTwo(3) == 8;
  }

  // -------------------------------------------------------------------- one worker

  /** The state after `outcomes` have been met by the rows of a batch, the rest untouched
      once one of them breaks the transaction. */
  ghost function AfterOutcomes(s: Db, w: nat, outcomes: seq<Outcome>): (r: Db)
    requires w in s.flight
    ensures w in r.flight && r.rows == s.rows && r.notes == s.notes && r.flight[w].claimed == s.flight[w].claimed
  {
    if outcomes == [] then s
    else
      var t := AfterOutcomes(s, w, outcomes[..|outcomes| - 1]);
      if Enabled(t, Process(w, outcomes[|outcomes| - 1])) then Apply(t, Process(w, outcomes[|outcomes| - 1])) else t
  }

  function CountOf(outcomes: seq<Outcome>, o: Outcome): (r: nat) {
    if outcomes == [] then 0
    else CountOf(outcomes[..|outcomes| - 1], o) + if outcomes[|outcomes| - 1] == o then 1 else 0
  }

  /** The database, with one worker's calls against it; other workers' transactions may be in flight. */
  class Database {
    var rows: seq<OutboxRow>
    var notes: seq<nat>
    var flight: map<nat, Batch>

    function Snap(): (r: Db)
      reads this
    {
      Db(rows, notes, flight)
    }

    constructor (s: Db)
      ensures Snap() == s
    {
      rows, notes, flight := s.rows, s.notes, s.flight;
    }

    /** The batch loop: it raises when a row breaks the transaction. */
    method ConsumeBatch(w: nat, outcomes: seq<Outcome>) returns (processed: nat, failed: nat, raised: bool)
      requires Sound(Snap()) && w in flight && IsFresh(flight[w]) && |outcomes| == |flight[w].claimed|
      modifies this`flight
      ensures Snap() == AfterOutcomes(old(Snap()), w, outcomes)
      ensures raised <==> Breaks in outcomes
      ensures !raised ==> processed == CountOf(outcomes, Delivers) && failed == CountOf(outcomes, Raises)
    {
      processed, failed := 0, 0;
      ghost var before := Snap();
      for i := 0 to |outcomes|
        invariant Snap() == AfterOutcomes(before, w, outcomes[..i]) && Breaks !in outcomes[..i]
        invariant processed == CountOf(outcomes[..i], Delivers) && failed == CountOf(outcomes[..i], Raises)
      {
        NextOutcome(before, w, outcomes, i);
        NextCounts(outcomes, i);
        flight := flight[w := Handle(Snap(), flight[w], outcomes[i])];
        match outcomes[i]
        case Delivers => processed := processed + 1;
        case Raises => failed := failed + 1;
        case Breaks =>
          BrokenStays(before, w, outcomes, i + 1);
          return processed, failed, true;
      }
      assert outcomes[..|outcomes|] == outcomes;
      return processed, failed, false;
    }

    /** One call of a worker: claim, handle, and commit, or roll back if the batch raised. */
    method ConsumeOnce(w: nat, now: int, dbNow: int, limit: nat, ids: seq<nat>, outcomes: seq<Outcome>)
      returns (processed: nat, failed: nat, raised: bool)
      requires Sound(Snap()) && Enabled(Snap(), Begin(w, now, dbNow, limit, ids)) && |outcomes| == |ids|
      modifies this
      ensures raised <==> Breaks in outcomes
      ensures raised ==> Snap() == old(Snap())
      ensures !raised ==> Snap() == CommitAfter(Begun(old(Snap()), w, now, ids), w, outcomes)
      ensures !raised ==> processed == CountOf(outcomes, Delivers) && failed == CountOf(outcomes, Raises)
    {
      ghost var before := Snap();
      StepIsSound(before, Begin(w, now, dbNow, limit, ids));
      flight := flight[w := Batch(now, ids, 0, map[], [], false)];
      ghost var begun := Snap();
      processed, failed, raised := ConsumeBatch(w, outcomes);
      OthersStay(begun, w, outcomes);
      assert begun.flight - {w} == before.flight;
      if !raised {
        rows := Written(rows, flight[w].writes);
        notes := notes + flight[w].inserted;
      }
      flight := flight - {w};
    }
  }

  function Begun(s: Db, w: nat, now: int, ids: seq<nat>): (r: Db) {
    s.(flight := s.flight[w := Batch(now, ids, 0, map[], [], false)])
  }

  ghost function CommitAfter(s: Db, w: nat, outcomes: seq<Outcome>): (r: Db)
    requires w in s.flight
  {
    var t := AfterOutcomes(s, w, outcomes);
    Db(Written(t.rows, t.flight[w].writes), t.notes + t.flight[w].inserted, t.flight - {w})
  }

  predicate IsFresh(b: Batch) {
    b.at == 0 && !b.broken && b.inserted == []
  }

  lemma CanProcess(s: Db, w: nat)
    requires Sound(s) && w in s.flight && !s.flight[w].broken && s.flight[w].at < |s.flight[w].claimed|
    ensures forall outcome :: Enabled(s, Process(w, outcome))
  {
    assert BatchOk(s, s.flight[w]);
  }

  /** One call that is not rolled back: one new notification for every row delivered,
      every claimed row delivered or tried once more, and a try used up for each. */
  lemma OneCall(s: Db, w: nat, now: int, dbNow: int, limit: nat, ids: seq<nat>, outcomes: seq<Outcome>)
    requires Sound(s) && Enabled(s, Begin(w, now, dbNow, limit, ids)) && |outcomes| == |ids| && Breaks !in outcomes
    ensures var t := CommitAfter(Begun(s, w, now, ids), w, outcomes);
      && Sound(t) && |t.notes| == |s.notes| + CountOf(outcomes, Delivers)
      && CountOf(outcomes, Delivers) + CountOf(outcomes, Raises) == |ids|
      && TriesLeft(t.rows) + |ids| <= TriesLeft(s.rows)
  {
    var begun := Apply(s, Begin(w, now, dbNow, limit, ids));
    StepIsSound(s, Begin(w, now, dbNow, limit, ids));
    UnbrokenSoFar(begun, w, outcomes);
    var t := AfterOutcomes(begun, w, outcomes);
    StepIsSound(t, Commit(w));
    CommitProgress(t, w);
    CountsAddUp(outcomes);
  }

  lemma {:induction false} BrokenStays(s: Db, w: nat, outcomes: seq<Outcome>, n: nat)
    requires w in s.flight && n <= |outcomes| && AfterOutcomes(s, w, outcomes[..n]).flight[w].broken
    ensures AfterOutcomes(s, w, outcomes) == AfterOutcomes(s, w, outcomes[..n])
    decreases |outcomes|
  {
    if n == |outcomes| {
      assert outcomes[..n] == outcomes;
    } else {
      var front := outcomes[..|outcomes| - 1];
      assert front[..n] == outcomes[..n];
      BrokenStays(s, w, front, n);
    }
  }

  lemma {:induction false} OthersStay(s: Db, w: nat, outcomes: seq<Outcome>)
    requires w in s.flight
    ensures AfterOutcomes(s, w, outcomes).flight - {w} == s.flight - {w}
  {
    if outcomes == [] {
    } else {
      OthersStay(s, w, outcomes[..|outcomes| - 1]);
    }
  }

  lemma {:induction false} CountsAddUp(outcomes: seq<Outcome>)
    ensures CountOf(outcomes, Delivers) + CountOf(outcomes, Raises) + CountOf(outcomes, Breaks) == |outcomes|
    ensures Breaks !in outcomes ==> CountOf(outcomes, Breaks) == 0
  {
    if outcomes == [] {
    } else {
      CountsAddUp(outcomes[..|outcomes| - 1]);
    }
  }

  /** A batch that nothing has broken: as many notifications as rows delivered. */
  lemma {:induction false} UnbrokenSoFar(s: Db, w: nat, outcomes: seq<Outcome>)
    requires Sound(s) && w in s.flight && IsFresh(s.flight[w])
    requires |outcomes| <= |s.flight[w].claimed| && Breaks !in outcomes
    ensures var t := AfterOutcomes(s, w, outcomes);
      Sound(t) && !t.flight[w].broken && t.flight[w].at == |outcomes|
      && |t.flight[w].inserted| == CountOf(outcomes, Delivers)
  {
    if outcomes == [] {
    } else {
      var front := outcomes[..|outcomes| - 1];
      UnbrokenSoFar(s, w, front);
      UnbrokenStep(AfterOutcomes(s, w, front), w, outcomes[|outcomes| - 1]);
    }
  }

  lemma UnbrokenStep(t: Db, w: nat, outcome: Outcome)
    requires Sound(t) && w in t.flight && !t.flight[w].broken && t.flight[w].at < |t.flight[w].claimed|
    requires outcome != Breaks
    ensures Enabled(t, Process(w, outcome)) && Sound(Apply(t, Process(w, outcome)))
    ensures var b, c := t.flight[w], Apply(t, Process(w, outcome)).flight[w];
      !c.broken && c.at == b.at + 1 && |c.inserted| == |b.inserted| + if outcome == Delivers then 1 else 0
  {
    CanProcess(t, w);
    StepIsSound(t, Process(w, outcome));
    NextIsNew(t, t.flight[w]);
  }

  /** The loop's step. */
  lemma NextOutcome(s: Db, w: nat, outcomes: seq<Outcome>, i: nat)
    requires Sound(s) && w in s.flight && IsFresh(s.flight[w]) && |outcomes| == |s.flight[w].claimed|
    requires i < |outcomes| && Breaks !in outcomes[..i]
    ensures var t, u := AfterOutcomes(s, w, outcomes[..i]), AfterOutcomes(s, w, outcomes[..i + 1]);
      && t.flight[w].at < |t.flight[w].claimed| && t.flight[w].claimed[t.flight[w].at] < |t.rows|
      && u == t.(flight := t.flight[w := Handle(t, t.flight[w], outcomes[i])])
      && (outcomes[i] == Breaks ==> u.flight[w].broken)
  {
    assert outcomes[..i + 1][..i] == outcomes[..i];
    UnbrokenSoFar(s, w, outcomes[..i]);
    CanProcess(AfterOutcomes(s, w, outcomes[..i]), w);
  }

  lemma NextCounts(outcomes: seq<Outcome>, i: nat)
    requires i < |outcomes|
    ensures outcomes[..i + 1] == outcomes[..i] + [outcomes[i]]
    ensures forall o :: CountOf(outcomes[..i + 1], o) == CountOf(outcomes[..i], o) + if outcomes[i] == o then 1 else 0
  {
    assert outcomes[..i + 1][..i] == outcomes[..i];
  }
}
