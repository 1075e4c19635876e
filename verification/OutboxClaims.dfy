/** What the workers of the outbox claim, over whole runs. */
module OutboxClaims {
  import opened Wrappers
  import opened Outbox

  /** Step `j` began a transaction of a worker at a time, with these rows. */
  ghost predicate BeganAt(steps: seq<Step>, j: int, w: nat, now: int, ids: seq<nat>) {
    0 <= j < |steps| && steps[j].Begin? && steps[j].worker == w && steps[j].now == now && steps[j].ids == ids
  }

  /** Every transaction in flight goes back to the step that began it. */
  ghost predicate BatchesBegan(steps: seq<Step>, s: Db) {
    forall w :: w in s.flight ==> exists j :: BeganAt(steps, j, w, s.flight[w].now, s.flight[w].claimed)
  }

  lemma {:induction false} EveryBatchBegan(steps: seq<Step>)
    requires Legal(steps)
    ensures BatchesBegan(steps, After(steps))
  {
    if steps == [] {
    } else {
      EveryBatchBegan(steps[..|steps| - 1]);
      BatchStep(steps[..|steps| - 1], After(steps[..|steps| - 1]), steps[|steps| - 1], steps);
    }
  }

  lemma BatchStep(front: seq<Step>, s: Db, step: Step, steps: seq<Step>)
    requires Enabled(s, step) && BatchesBegan(front, s) && steps == front + [step]
    ensures BatchesBegan(steps, Apply(s, step))
  {
    var t := Apply(s, step);
    forall w | w in t.flight ensures exists j :: BeganAt(steps, j, w, t.flight[w].now, t.flight[w].claimed) {
      if step.Begin? && step.worker == w {
        assert BeganAt(steps, |front|, w, t.flight[w].now, t.flight[w].claimed);
      } else {
        var j :| BeganAt(front, j, w, s.flight[w].now, s.flight[w].claimed);
        assert BeganAt(steps, j, w, t.flight[w].now, t.flight[w].claimed);
      }
    }
  }

  /** The seconds to wait after so many attempts. */
  function Wait(attempts: nat): (r: nat) {
    if attempts == 1 then 5 else if attempts == 2 then 10 else if attempts == 3 then 20 else 40
  }

  /** What handling makes of a row: it is sent; or it has one attempt more, and after the
      fifth it has failed, before that it waits 5, 10, 20 or 40 seconds. */
  ghost predicate IsResult(row: OutboxRow, now: int, outcome: Outcome, result: OutboxRow) {
    && result.inApp == row.inApp && result.created == row.created
    && (outcome == Delivers ==> result == row.(status := Sent))
    && (outcome == Raises ==>
      && result.attempts == row.attempts + 1
      && (result.attempts == 1 ==> result.status == Pending && result.retryAt == Some(now + 5))
      && (result.attempts == 2 ==> result.status == Pending && result.retryAt == Some(now + 10))
      && (result.attempts == 3 ==> result.status == Pending && result.retryAt == Some(now + 20))
      && (result.attempts == 4 ==> result.status == Pending && result.retryAt == Some(now + 40))
      && (result.attempts >= 5 ==> result.status == Failed && result.retryAt == None))
  }

  lemma RetriedIs(row: OutboxRow, now: int)
    requires RowOk(row, false) && row.status == Pending
    ensures IsResult(row, now, Raises, Retried(row, now))
  {
    assert PowerOfTwo(0) == 1 && PowerOfTwo(1) == 2 && PowerOfTwo(2) == 4 && PowerOfTwo(3) == 8;
  }


  /** A row that waits from a time on. */
  ghost predicate WaitsFrom(row: OutboxRow, now: int) {
    row.attempts > 0 && row.retryAt == Some(now + Wait(row.attempts))
  }

  /** A claimed row that a transaction has handled, and that stays pending, waits from its start. */
  ghost predicate WritesWait(s: Db) {
    forall w, id :: w in s.flight && id in s.flight[w].writes && s.flight[w].writes[id].status == Pending ==>
      WaitsFrom(s.flight[w].writes[id], s.flight[w].now)
  }

  lemma {:induction false} EveryWriteWaits(steps: seq<Step>)
    requires Legal(steps)
    ensures WritesWait(After(steps))
  {
    if steps == [] {
    } else {
      EveryWriteWaits(steps[..|steps| - 1]);
      EveryStateIsSound(steps[..|steps| - 1]);
      WriteStep(After(steps[..|steps| - 1]), steps[|steps| - 1]);
    }
  }

  lemma WriteStep(s: Db, step: Step)
    requires Sound(s) && Enabled(s, step) && WritesWait(s)
    ensures WritesWait(Apply(s, step))
  {
    if step.Process? {
      var b := s.flight[step.worker];
      assert BatchOk(s, b);
      if step.outcome != Breaks { OneMoreResult(s, b, step.outcome); NextIsNew(s, b); }
    }
  }

  /** A transaction of the run that claimed the row began at this time. */
  ghost predicate ClaimedAt(steps: seq<Step>, id: nat, now: int) {
    exists j :: 0 <= j < |steps| && steps[j].Begin? && steps[j].now == now && id in steps[j].ids
  }

  /** Where the row stands: never tried and free to go, or waiting since a claim of it. */
  ghost predicate RowWaits(steps: seq<Step>, row: OutboxRow, id: nat) {
    row.status == Pending ==>
      if row.attempts == 0 then row.retryAt == None else exists now :: ClaimedAt(steps, id, now) && WaitsFrom(row, now)
  }

  lemma {:induction false} EveryRowWaits(steps: seq<Step>, id: nat)
    requires Legal(steps) && id < |After(steps).rows|
    ensures RowWaits(steps, After(steps).rows[id], id)
  {
    if steps == [] {
    } else {
      var front, step := steps[..|steps| - 1], steps[|steps| - 1];
      var s := After(front);
      assert steps == front + [step];
      EveryStateIsSound(front);
      if id < |s.rows| {
        EveryRowWaits(front, id);
        ClaimStays(front, step, s.rows[id], id);
        if step.Commit? && id in s.flight[step.worker].writes {
          EveryBatchBegan(front);
          EveryWriteWaits(front);
          CommittedRowWaits(front, s, step, id);
        }
      }
    }
  }

  lemma ClaimStays(front: seq<Step>, step: Step, row: OutboxRow, id: nat)
    requires RowWaits(front, row, id)
    ensures RowWaits(front + [step], row, id)
  {
    var steps := front + [step];
    forall now | ClaimedAt(front, id, now) ensures ClaimedAt(steps, id, now) {
      var j :| 0 <= j < |front| && front[j].Begin? && front[j].now == now && id in front[j].ids;
      assert steps[j] == front[j];
    }
  }

  lemma CommittedRowWaits(front: seq<Step>, s: Db, step: Step, id: nat)
    requires Sound(s) && Enabled(s, step) && step.Commit? && id < |s.rows| && id in s.flight[step.worker].writes
    requires BatchesBegan(front, s) && WritesWait(s) && RowWaits(front, s.rows[id], id)
    ensures RowWaits(front + [step], s.flight[step.worker].writes[id], id)
  {
    var w := step.worker;
    var b := s.flight[w];
    assert BatchOk(s, b);
    WrittenWasPending(s, b, id);
    var j :| BeganAt(front, j, w, b.now, b.claimed);
    assert (front + [step])[j] == front[j];
    assert ClaimedAt(front + [step], id, b.now);
  }

  // ------------------------------------------------------------------- claims

  lemma {:induction false} PrefixIsLegal(steps: seq<Step>, i: nat)
    requires Legal(steps) && i < |steps|
    ensures Legal(steps[..i]) && Enabled(After(steps[..i]), steps[i])
    decreases |steps|
  {
    var front := steps[..|steps| - 1];
    if i < |front| {
      PrefixIsLegal(front, i);
      assert front[..i] == steps[..i];
    }
  }

  /** A row that could go: it is for the application, pending, in no transaction, and it has never
      been tried, or its wait since the claim that tried it last is over. */
  ghost predicate Ready(steps: seq<Step>, s: Db, id: nat, dbNow: int) {
    && id < |s.rows| && s.rows[id].inApp && s.rows[id].status == Pending && s.rows[id].attempts < 5
    && (forall w :: w in s.flight ==> id !in s.flight[w].claimed)
    && (s.rows[id].attempts > 0 ==> exists now ::
          ClaimedAt(steps, id, now) && WaitsFrom(s.rows[id], now) && now + Wait(s.rows[id].attempts) <= dbNow)
  }

  lemma ReadyExactly(steps: seq<Step>, id: nat, dbNow: int)
    requires Legal(steps) && id < |After(steps).rows|
    ensures Ready(steps, After(steps), id, dbNow) <==> Due(After(steps).rows[id], dbNow) && !Locked(After(steps), id)
  {
    var s := After(steps);
    EveryStateIsSound(steps);
    EveryRowWaits(steps, id);
    assert RowOk(s.rows[id], id in s.notes);
    if Due(s.rows[id], dbNow) && s.rows[id].attempts > 0 {
      var now :| ClaimedAt(steps, id, now) && WaitsFrom(s.rows[id], now);
    }
  }

  /** Every claim of every run: at most the limit, all of them ready, the older before the younger
      and equally old ones by identifier; and a row that is ready is only passed over when the
      limit is reached with rows that come before it. */
  lemma EveryClaim(steps: seq<Step>, i: nat)
    requires Legal(steps) && i < |steps| && steps[i].Begin?
    ensures Legal(steps[..i]) && steps[i].worker !in After(steps[..i]).flight
    ensures var s, ids := After(steps[..i]), steps[i].ids;
      && |ids| <= steps[i].limit
      && (forall a :: 0 <= a < |ids| ==> Ready(steps[..i], s, ids[a], steps[i].dbNow))
      && (forall a, b :: 0 <= a < b < |ids| ==> Older(s.rows, ids[a], ids[b]))
      && (forall id :: Ready(steps[..i], s, id, steps[i].dbNow) && id !in ids ==>
            |ids| == steps[i].limit && forall a :: 0 <= a < |ids| ==> Older(s.rows, ids[a], id))
  {
    PrefixIsLegal(steps, i);
    var s, ids, dbNow := After(steps[..i]), steps[i].ids, steps[i].dbNow;
    forall id: nat | id < |s.rows|
      ensures Ready(steps[..i], s, id, dbNow) <==> Due(s.rows[id], dbNow) && !Locked(s, id)
    {
      ReadyExactly(steps[..i], id, dbNow);
    }
    ClaimIsReady(steps[..i], s, dbNow, steps[i].limit, ids);
  }

  ghost predicate Older(rows: seq<OutboxRow>, a: nat, b: nat) {
    && a < |rows| && b < |rows|
    && (rows[a].created < rows[b].created || (rows[a].created == rows[b].created && a < b))
  }

  lemma ClaimIsReady(steps: seq<Step>, s: Db, dbNow: int, limit: nat, ids: seq<nat>)
    requires IsClaim(s, dbNow, limit, ids)
    requires forall id: nat :: id < |s.rows| ==>
      (Ready(steps, s, id, dbNow) <==> Due(s.rows[id], dbNow) && !Locked(s, id))
    ensures forall a :: 0 <= a < |ids| ==> Ready(steps, s, ids[a], dbNow)
    ensures forall a, b :: 0 <= a < b < |ids| ==> Older(s.rows, ids[a], ids[b])
    ensures forall id :: Ready(steps, s, id, dbNow) && id !in ids ==>
              |ids| == limit && forall a :: 0 <= a < |ids| ==> Older(s.rows, ids[a], id)
  {
  }

  // ------------------------------------------------------------------ one call

  /** The rows with these identifiers, one after the other handled with these outcomes, as a
      transaction has written them, and the notifications it has inserted. */
  ghost predicate ResultsWritten(rows: seq<OutboxRow>, ids: seq<nat>, now: int, outcomes: seq<Outcome>, b: Batch) {
    && |outcomes| <= |ids|
    && (forall i :: 0 <= i < |outcomes| ==> IsWritten(rows, ids[i], now, outcomes[i], b))
    && (forall id :: id in b.inserted <==> DeliveredIn(ids, outcomes, id))
  }

  ghost predicate IsWritten(rows: seq<OutboxRow>, id: nat, now: int, outcome: Outcome, b: Batch) {
    id < |rows| && id in b.writes && IsResult(rows[id], now, outcome, b.writes[id])
  }

  ghost predicate DeliveredIn(ids: seq<nat>, outcomes: seq<Outcome>, id: nat) {
    exists i :: 0 <= i < |outcomes| && i < |ids| && ids[i] == id && outcomes[i] == Delivers
  }

  lemma {:induction false} OutcomesAreWritten(s: Db, w: nat, outcomes: seq<Outcome>)
    requires Sound(s) && w in s.flight && IsFresh(s.flight[w])
    requires |outcomes| <= |s.flight[w].claimed| && Breaks !in outcomes
    ensures var b := AfterOutcomes(s, w, outcomes).flight[w];
      ResultsWritten(s.rows, s.flight[w].claimed, s.flight[w].now, outcomes, b) && b.now == s.flight[w].now
  {
    if outcomes == [] {
    } else {
      var front, last := outcomes[..|outcomes| - 1], outcomes[|outcomes| - 1];
      assert outcomes == front + [last];
      OutcomesAreWritten(s, w, front);
      UnbrokenSoFar(s, w, front);
      OneMoreOutcome(AfterOutcomes(s, w, front), w, s.flight[w].claimed, s.flight[w].now, front, last);
    }
  }

  lemma OneMoreOutcome(t: Db, w: nat, ids: seq<nat>, now: int, front: seq<Outcome>, last: Outcome)
    requires Sound(t) && w in t.flight && !t.flight[w].broken && t.flight[w].at == |front| < |ids| && last != Breaks
    requires t.flight[w].claimed == ids && t.flight[w].now == now
    requires ResultsWritten(t.rows, ids, now, front, t.flight[w])
    ensures Enabled(t, Process(w, last))
    ensures ResultsWritten(t.rows, ids, now, front + [last], Apply(t, Process(w, last)).flight[w])
    ensures Apply(t, Process(w, last)).flight[w].now == now
  {
    UnbrokenStep(t, w, last);
    OneMoreResult(t, t.flight[w], last);
    NextResult(t.rows, ids, now, front, last, t.flight[w], Handle(t, t.flight[w], last));
  }

  /** One more row is written, and nothing else. */
  ghost predicate OneMore(rows: seq<OutboxRow>, id: nat, outcome: Outcome, b: Batch, c: Batch) {
    && id !in b.writes && IsWritten(rows, id, b.now, outcome, c)
    && (forall k :: k in b.writes ==> k in c.writes && c.writes[k] == b.writes[k])
    && (forall k :: k in c.inserted <==> k in b.inserted || (k == id && outcome == Delivers))
    && c.now == b.now
  }

  lemma OneMoreResult(s: Db, b: Batch, outcome: Outcome)
    requires Sound(s) && BatchOk(s, b) && b.at < |b.claimed| && outcome != Breaks
    ensures OneMore(s.rows, b.claimed[b.at], outcome, b, Handle(s, b, outcome))
  {
    NextIsNew(s, b);
    RetriedIs(s.rows[b.claimed[b.at]], b.now);
  }

  lemma NextResult(rows: seq<OutboxRow>, ids: seq<nat>, now: int, front: seq<Outcome>, last: Outcome, b: Batch,
                   c: Batch)
    requires ResultsWritten(rows, ids, now, front, b) && |front| < |ids| && b.now == now
    requires OneMore(rows, ids[|front|], last, b, c)
    ensures ResultsWritten(rows, ids, now, front + [last], c)
  {
    var outcomes := front + [last];
    forall i | 0 <= i < |outcomes| ensures IsWritten(rows, ids[i], now, outcomes[i], c) {
      assert i < |front| ==> IsWritten(rows, ids[i], now, front[i], b);
    }
    forall id
      ensures DeliveredIn(ids, outcomes, id) <==>
              DeliveredIn(ids, front, id) || (id == ids[|front|] && last == Delivers)
    {
      if DeliveredIn(ids, front, id) {
        var i :| 0 <= i < |front| && i < |ids| && ids[i] == id && front[i] == Delivers;
        assert outcomes[i] == Delivers;
      }
      if id == ids[|front|] && last == Delivers { assert outcomes[|front|] == Delivers; }
    }
  }

  /** One call that is not rolled back, row by row: what the claimed rows have become, that the
      others stay, and that the new notifications are those of the rows delivered. */
  lemma OneCallRowByRow(s: Db, w: nat, now: int, dbNow: int, limit: nat, ids: seq<nat>, outcomes: seq<Outcome>)
    requires Sound(s) && Enabled(s, Begin(w, now, dbNow, limit, ids)) && |outcomes| == |ids| && Breaks !in outcomes
    ensures var t := CommitAfter(Begun(s, w, now, ids), w, outcomes);
      && |t.rows| == |s.rows| && (forall id :: 0 <= id < |s.rows| && id !in ids ==> t.rows[id] == s.rows[id])
      && (forall i :: 0 <= i < |ids| ==>
            ids[i] < |s.rows| && IsResult(s.rows[ids[i]], now, outcomes[i], t.rows[ids[i]]))
      && (forall id :: id in t.notes <==> id in s.notes || DeliveredIn(ids, outcomes, id))
  {
    var begun := Apply(s, Begin(w, now, dbNow, limit, ids));
    StepIsSound(s, Begin(w, now, dbNow, limit, ids));
    UnbrokenSoFar(begun, w, outcomes);
    OutcomesAreWritten(begun, w, outcomes);
    var u := AfterOutcomes(begun, w, outcomes);
    CommittedRows(s.rows, s.notes, ids, now, outcomes, u, u.flight[w]);
  }

  lemma CommittedRows(rows: seq<OutboxRow>, notes: seq<nat>, ids: seq<nat>, now: int, outcomes: seq<Outcome>, u: Db,
                      b: Batch)
    requires BatchOk(u, b) && b.claimed == ids && b.at == |ids| == |outcomes| && u.rows == rows
    requires ResultsWritten(rows, ids, now, outcomes, b)
    ensures var t := Written(rows, b.writes);
      && (forall id :: 0 <= id < |rows| && id !in ids ==> t[id] == rows[id])
      && (forall i :: 0 <= i < |ids| ==> ids[i] < |rows| && IsResult(rows[ids[i]], now, outcomes[i], t[ids[i]]))
      && (forall id :: id in notes + b.inserted <==> id in notes || DeliveredIn(ids, outcomes, id))
  {
    WrittenAreClaimed(u, b, ids);
    forall i | 0 <= i < |ids| ensures IsWritten(rows, ids[i], now, outcomes[i], b) {
    }
  }

  lemma WrittenAreClaimed(s: Db, b: Batch, ids: seq<nat>)
    requires BatchOk(s, b) && b.claimed == ids && b.at == |ids|
    ensures forall id :: id in b.writes <==> id in ids
  {
    assert ids[..|ids|] == ids;
  }
}
