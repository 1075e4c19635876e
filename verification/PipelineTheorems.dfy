/** What every run of the pipeline guarantees, between frames and at its end. */
module PipelineTheorems {
  import opened Wrappers
  import opened StableSort
  import opened DoorEngine
  import opened DoorEngineRuns
  import opened Reliability
  import opened TrackKeys
  import opened PipelineSpec
  import opened PipelineViews
  import opened PipelineKeyInvariant
  import opened PipelineCounts
  import opened PipelineRuns

  // ---------------------------------------------------------- pending events

  lemma PendingHere(cfg: Config, now: int, v: View)
    requires LiveInv(cfg, now, v) && v.rt.value.pending != []
    ensures cfg.enablePending && v.rt.value.lastTs.Some? && !Stable(cfg, v.rt.value, v.rt.value.lastTs.value)
    ensures forall pe :: pe in v.rt.value.pending ==> pe.strength != Strong
  {
  }

  /** After any frames, a live track with pending events is not stable at its own
      last sighting, and holds no strong event. */
  lemma PendingIsUnstable(cfg: Config, frames: seq<Frame>, key: string)
    requires LegalFrames(cfg, frames)
    requires key in RunFrames(cfg, frames).runtimes && RunFrames(cfg, frames).runtimes[key].pending != []
    ensures var rt := RunFrames(cfg, frames).runtimes[key];
      && cfg.enablePending && rt.lastTs.Some? && !Stable(cfg, rt, rt.lastTs.value)
      && forall pe :: pe in rt.pending ==> pe.strength != Strong
  {
    var s, now := RunFrames(cfg, frames), LastTime(frames, 0);
    EveryReachableStateIsSound(cfg, frames, 0);
    LiveHere(cfg, now, s, key);
    PendingHere(cfg, now, ViewOf(s, key));
  }

  /** So an end of track, in any sound state, between frames or within one, commits nothing
      that was pending: pending events reach the table only through the live flush. */
  lemma EndsCommitNothingPending(cfg: Config, before: int, s: State, key: string, now: int)
    requires Sound(cfg, before, s) && key in s.runtimes
    ensures var t := SettlePending(cfg, s, key, now);
      && t.table == s.table && t.buffer == s.buffer && t.counts.flushed == s.counts.flushed
      && t.runtimes[key].pending == []
  {
    LiveHere(cfg, before, s, key);
    SettleCommitsNothing(cfg, s, key, before, now);
  }

  lemma SettleCommitsNothing(cfg: Config, s: State, key: string, before: int, now: int)
    requires key in s.runtimes && LiveInv(cfg, before, ViewOf(s, key))
    ensures var t := SettlePending(cfg, s, key, now);
      && t.table == s.table && t.buffer == s.buffer && t.counts.flushed == s.counts.flushed
      && t.runtimes[key].pending == []
      && t.runtimes[key].hold == s.runtimes[key].hold && t.runtimes[key].door == s.runtimes[key].door
  {
    NothingWithoutFlag(cfg, before, ViewOf(s, key));
    if s.runtimes[key].pending != [] {
      PendingHere(cfg, before, ViewOf(s, key));
      NoStrongs(s.runtimes[key].pending);
      assert s.buffer + [] == s.buffer;
    }
  }

  // --------------------------------------------------- each event exactly once

  lemma BalanceHere(cfg: Config, now: int, v: View)
    requires KeyInv(cfg, now, v)
    ensures DoorItems(v.rows) + multiset(if v.rt.Some? then v.rt.value.pending else []) + LostItems(v.lost)
            == Offered(Emitted(cfg.engine, v.log))
    ensures forall l :: l in v.lost ==> l.event.strength != Strong
  {
    assert v == UNSEEN ==> Emitted(cfg.engine, v.log) == [];
  }

  lemma {:induction false} NoStrongLost(ls: seq<Loss>, pe: Pending)
    requires pe.strength == Strong && forall l :: l in ls ==> l.event.strength != Strong
    ensures LostItems(ls)[pe] == 0
  {
    if ls == [] {
    } else {
      assert ls[|ls| - 1] in ls;
      NoStrongLost(ls[..|ls| - 1], pe);
    }
  }

  /** The events the door engine emits for the observations of one key. */
  ghost function EngineEvents(cfg: Config, s: State, key: string): (r: multiset<Pending>) {
    Offered(Emitted(cfg.engine, LogOf(s, key)))
  }

  /** At the end of a run, every event that the engine emitted for a key is one row
      of that key with its own timestamp, or was given up while pending: never both,
      never twice. A strong event is always a row. */
  lemma EveryEventOnce(cfg: Config, frames: seq<Frame>, end: int, key: string)
    requires LegalFrames(cfg, frames) && LastTime(frames, end) <= end
    ensures var s := RunToEnd(cfg, frames, end);
      && DoorItems(RowsOf(s.table, key)) + LostItems(LossesOf(s.lost, key)) == EngineEvents(cfg, s, key)
      && forall pe: Pending :: pe.strength == Strong ==>
           DoorItems(RowsOf(s.table, key))[pe] == EngineEvents(cfg, s, key)[pe]
  {
    var s := RunToEnd(cfg, frames, end);
    ReturnedStateIsSound(cfg, frames, end);
    assert s.table + s.buffer == s.table;
    BalanceHere(cfg, end, ViewOf(s, key));
    forall pe: Pending | pe.strength == Strong
      ensures DoorItems(RowsOf(s.table, key))[pe] == EngineEvents(cfg, s, key)[pe]
    {
      NoStrongLost(LossesOf(s.lost, key), pe);
    }
  }

  /** After any frames: every event of a key that is still live is a row or still pending,
      once each; and every strong event of any key is a row already. */
  lemma EveryEventSoFar(cfg: Config, frames: seq<Frame>, key: string)
    requires LegalFrames(cfg, frames)
    ensures var s := RunFrames(cfg, frames);
      var rows := DoorItems(RowsOf(s.table + s.buffer, key));
      var pending := multiset(if key in s.runtimes then s.runtimes[key].pending else []);
      && rows + pending + LostItems(LossesOf(s.lost, key)) == EngineEvents(cfg, s, key)
      && forall pe: Pending :: pe.strength == Strong ==> rows[pe] == EngineEvents(cfg, s, key)[pe]
  {
    var s, now := RunFrames(cfg, frames), LastTime(frames, 0);
    EveryReachableStateIsSound(cfg, frames, 0);
    BalanceHere(cfg, now, ViewOf(s, key));
    forall pe: Pending | pe.strength == Strong
      ensures DoorItems(RowsOf(s.table + s.buffer, key))[pe] == EngineEvents(cfg, s, key)[pe]
    {
      NoStrongLost(LossesOf(s.lost, key), pe);
      if key in s.runtimes { NoneStrongPending(cfg, now, s, key, pe); }
    }
  }

  lemma NoneStrongPending(cfg: Config, now: int, s: State, key: string, pe: Pending)
    requires Sound(cfg, now, s) && key in s.runtimes && pe.strength == Strong
    ensures multiset(s.runtimes[key].pending)[pe] == 0
  {
    LiveHere(cfg, now, s, key);
    var pes := s.runtimes[key].pending;
    if pes != [] { PendingHere(cfg, now, ViewOf(s, key)); }
    assert pe !in pes;
  }

  lemma {:induction false} DropsExact(ls: seq<Loss>)
    ensures Drops(ls) <= |ls|
    ensures Drops(ls) == |ls| <==> forall i :: 0 <= i < |ls| ==> ls[i].why == Dropped
  {
    if ls == [] {
    } else {
      DropsExact(ls[..|ls| - 1]);
    }
  }

  lemma {:induction false} TotalOfNone(keys: seq<string>)
    ensures PendingTotal(map[], keys) == 0
  {
    if keys == [] {
    } else {
      TotalOfNone(keys[1..]);
    }
  }

  /** The pending counters of the report add up exactly when no pending exit was
      discarded by an unstable end and no identity merge took pending events along. */
  lemma ReportAddsUpExactly(cfg: Config, frames: seq<Frame>, end: int)
    requires LegalFrames(cfg, frames) && LastTime(frames, end) <= end
    ensures var s := RunToEnd(cfg, frames, end);
      s.counts.enqueued == s.counts.flushed + s.counts.dropped <==>
      forall i :: 0 <= i < |s.lost| ==> s.lost[i].why == Dropped
  {
    var s := RunToEnd(cfg, frames, end);
    ReturnedStateIsSound(cfg, frames, end);
    TotalOfNone(s.order);
    DropsExact(s.lost);
  }

  // ------------------------------------------------------------------ identity

  lemma {:induction false} RowIsListed(rows: seq<EventRow>, i: nat)
    requires i < |rows|
    ensures rows[i] in RowsOf(rows, rows[i].key)
  {
    if i == |rows| - 1 {
    } else {
      RowIsListed(rows[..|rows| - 1], i);
    }
  }

  lemma IdentityHere(cfg: Config, now: int, v: View, row: EventRow)
    requires KeyInv(cfg, now, v) && row in v.rows
    ensures if v.rt.Some? then row.employee == v.rt.value.employee
            else |v.tracks| == 1 && row.employee == v.tracks[0].employee
  {
  }

  /** Between frames, every event row, flushed or not, names the employee of the live
      track with its key, or of that key's one summary row. */
  lemma RowsNameTheirTrack(cfg: Config, frames: seq<Frame>, i: nat)
    requires LegalFrames(cfg, frames)
    requires i < |RunFrames(cfg, frames).table + RunFrames(cfg, frames).buffer|
    ensures var s := RunFrames(cfg, frames);
      var row := (s.table + s.buffer)[i];
      if row.key in s.runtimes then row.employee == s.runtimes[row.key].employee
      else |TracksOf(s.tracks, row.key)| == 1 && row.employee == TracksOf(s.tracks, row.key)[0].employee
  {
    var s := RunFrames(cfg, frames);
    EveryReachableStateIsSound(cfg, frames, 0);
    RowIsListed(s.table + s.buffer, i);
    var row := (s.table + s.buffer)[i];
    IdentityHere(cfg, LastTime(frames, 0), ViewOf(s, row.key), row);
  }

  /** At the end of the run: the one summary row. */
  lemma CommittedRowsNameTheirTrack(cfg: Config, frames: seq<Frame>, end: int, i: nat)
    requires LegalFrames(cfg, frames) && LastTime(frames, end) <= end
    requires i < |RunToEnd(cfg, frames, end).table|
    ensures var s := RunToEnd(cfg, frames, end);
      var tracks := TracksOf(s.tracks, s.table[i].key);
      |tracks| == 1 && s.table[i].employee == tracks[0].employee
  {
    var s := RunToEnd(cfg, frames, end);
    ReturnedStateIsSound(cfg, frames, end);
    assert s.table + s.buffer == s.table;
    RowIsListed(s.table, i);
    IdentityHere(cfg, end, ViewOf(s, s.table[i].key), s.table[i]);
  }

  ghost predicate AllClaimed(rows: seq<EventRow>, key: string, e: Employee) {
    forall i :: 0 <= i < |rows| && rows[i].key == key ==> rows[i].employee == Some(e)
  }

  lemma {:induction false} ClaimedAre(rows: seq<EventRow>, key: string, e: Employee)
    ensures |Claimed(rows, key, e)| == |rows|
    ensures forall i :: 0 <= i < |rows| ==> Claimed(rows, key, e)[i] == Claim(rows[i], key, e)
  {
    if rows == [] {
    } else {
      ClaimedAre(rows[1..], key, e);
    }
  }

  /** Why the back-fill is preceded by a flush: with the rows of a key still
      unnamed, the flush makes the back-fill reach all of them, and without it the
      back-fill would do so exactly when none of them is waiting in the session. */
  lemma BackfillNeedsFlush(s: State, key: string, e: Employee)
    requires forall i :: 0 <= i < |s.table + s.buffer| && (s.table + s.buffer)[i].key == key ==>
               (s.table + s.buffer)[i].employee == None
    ensures AllClaimed(Flush(Backfill(Flush(s), key, e)).table, key, e)
    ensures AllClaimed(Flush(Backfill(s, key, e)).table, key, e) <==>
            forall i :: 0 <= i < |s.buffer| ==> s.buffer[i].key != key
  {
    var all := s.table + s.buffer;
    ClaimedAre(all, key, e);
    assert Flush(Backfill(Flush(s), key, e)).table == Claimed(all, key, e) + [] == Claimed(all, key, e);
    assert forall i :: 0 <= i < |s.table| ==> s.table[i] == all[i];
    assert forall i :: 0 <= i < |s.buffer| ==> s.buffer[i] == all[|s.table| + i];
    UnflushedStayUnnamed(s.table, s.buffer, key, e);
    assert Flush(Backfill(s, key, e)).table == Claimed(s.table, key, e) + s.buffer;
  }

  lemma UnflushedStayUnnamed(table: seq<EventRow>, buffer: seq<EventRow>, key: string, e: Employee)
    requires forall i :: 0 <= i < |table| && table[i].key == key ==> table[i].employee == None
    requires forall i :: 0 <= i < |buffer| && buffer[i].key == key ==> buffer[i].employee == None
    ensures AllClaimed(Claimed(table, key, e) + buffer, key, e) <==>
            forall i :: 0 <= i < |buffer| ==> buffer[i].key != key
  {
    ClaimedAre(table, key, e);
    var t := Claimed(table, key, e) + buffer;
    assert forall i :: 0 <= i < |buffer| ==> t[|table| + i] == buffer[i];
    assert forall i :: 0 <= i < |table| ==> t[i] == Claim(table[i], key, e);
  }

  // -------------------------------------------------------------- exit grace

  /** After any frames, the holds that were started are the ones canceled, the ones
      whose exit was committed, and the ones still open. */
  lemma ExitConservation(cfg: Config, frames: seq<Frame>)
    requires LegalFrames(cfg, frames)
    ensures ExitBalance(RunFrames(cfg, frames))
  {
    EveryReachableStateIsSound(cfg, frames, 0);
  }

  /** At the end of the run none is open. */
  lemma EveryHoldIsSettled(cfg: Config, frames: seq<Frame>, end: int)
    requires LegalFrames(cfg, frames) && LastTime(frames, end) <= end
    ensures var s := RunToEnd(cfg, frames, end);
      s.runtimes == map[] && s.counts.started == s.counts.canceled + s.counts.expired
  {
    ReturnedStateIsSound(cfg, frames, end);
    assert Held(RunToEnd(cfg, frames, end).runtimes) == {};
  }

  lemma EndsHere(cfg: Config, now: int, v: View)
    requires KeyInv(cfg, now, v)
    ensures |EndRows(v.rows)| <= 1
    ensures v.rt.Some? ==> EndRows(v.rows) == []
    ensures v.rt.None? && v.retired && v.merged ==> EndRows(v.rows) == []
    ensures v.rt.None? && v.retired && !v.merged ==>
      var last := Finalize(StateAfter(cfg.engine, v.log), cfg.inferExit);
      if last.None? then EndRows(v.rows) == []
      else && |EndRows(v.rows)| == 1 && EndRows(v.rows)[0].ts == last.value.ts
           && EndRows(v.rows)[0].kind == Exit && EndRows(v.rows)[0].inferred
  {
  }

  /** Whether its exit was held, released, forced or never held at all, a finished
      key has the inferred exit of its own observations, once; a merged one has none. */
  lemma OneInferredExitPerKey(cfg: Config, frames: seq<Frame>, end: int, key: string)
    requires LegalFrames(cfg, frames) && LastTime(frames, end) <= end
    requires key in RunToEnd(cfg, frames, end).used
    ensures var s := RunToEnd(cfg, frames, end);
      var rows, last := EndRows(RowsOf(s.table, key)), Finalize(StateAfter(cfg.engine, LogOf(s, key)), cfg.inferExit);
      if key in s.merged || last.None? then rows == []
      else |rows| == 1 && rows[0].ts == last.value.ts && rows[0].kind == Exit && rows[0].inferred
  {
    var s := RunToEnd(cfg, frames, end);
    ReturnedStateIsSound(cfg, frames, end);
    assert s.table + s.buffer == s.table;
    EndsHere(cfg, end, ViewOf(s, key));
  }

  /** In any sound state, between frames or within one: a held track that stays missing is
      finished exactly when the grace is over, which is later than its time to live and
      its grace together after it was last seen; until then nothing of it moves. */
  lemma GraceIsRespected(cfg: Config, before: int, s: State, key: string, now: int)
    requires Sound(cfg, before, s) && key in s.runtimes && s.runtimes[key].hold.Some?
    ensures var rt := s.runtimes[key]; var t := AwaitGrace(cfg, s, key, now);
      && rt.hold.value.started.Some? && rt.lastTs.Some?
      && (key in t.used <==> now - rt.hold.value.started.value >= cfg.grace)
      && (key in t.used ==> now - rt.lastTs.value > cfg.ttl + cfg.grace)
      && (key !in t.used ==> t == s)
  {
    LiveHere(cfg, before, s, key);
    HeldSince(cfg, before, ViewOf(s, key));
    DatingIsIdle(s, key, now);
    assert key !in s.used;
  }

  // -------------------------------------------------------------------- keys

  lemma {:induction false} TwoTracksOfKey(rows: seq<TrackRow>, i: nat, j: nat)
    requires i < j < |rows| && rows[i].key == rows[j].key
    ensures |TracksOf(rows, rows[i].key)| >= 2
  {
    var front := rows[..|rows| - 1];
    if j < |front| {
      TwoTracksOfKey(front, i, j);
    } else {
      OneTrackOfKey(front, i);
    }
  }

  lemma {:induction false} OneTrackOfKey(rows: seq<TrackRow>, i: nat)
    requires i < |rows|
    ensures |TracksOf(rows, rows[i].key)| >= 1
  {
    if i == |rows| - 1 {
    } else {
      OneTrackOfKey(rows[..|rows| - 1], i);
    }
  }

  lemma TracksHere(cfg: Config, now: int, v: View)
    requires KeyInv(cfg, now, v)
    ensures |v.tracks| <= 1
  {
  }

  lemma NoKeyTwice(cfg: Config, now: int, s: State)
    requires Sound(cfg, now, s)
    ensures forall i, j :: 0 <= i < j < |s.tracks| ==> s.tracks[i].key != s.tracks[j].key
  {
    forall i, j | 0 <= i < j < |s.tracks| ensures s.tracks[i].key != s.tracks[j].key {
      TracksHere(cfg, now, ViewOf(s, s.tracks[i].key));
      if s.tracks[i].key == s.tracks[j].key { TwoTracksOfKey(s.tracks, i, j); }
    }
  }

  /** The live keys are exactly the values of an injective map from tracker ids and are
      disjoint from the keys already written; no key is written twice. */
  ghost predicate UniqueKeys(s: State) {
    && (forall k :: k in s.runtimes <==> exists raw :: raw in s.active && s.active[raw] == k)
    && (forall a, b :: a in s.active && b in s.active && s.active[a] == s.active[b] ==> a == b)
    && s.runtimes.Keys !! s.used
    && forall i, j :: 0 <= i < j < |s.tracks| ==> s.tracks[i].key != s.tracks[j].key
  }

  lemma SoundKeysAreUnique(cfg: Config, now: int, s: State)
    requires Sound(cfg, now, s)
    ensures UniqueKeys(s)
  {
    NoKeyTwice(cfg, now, s);
    forall k | k in s.runtimes ensures k !in s.used {
      LiveHere(cfg, now, s, k);
    }
  }

  /** The state within the last frame, when its first `j` detections have been handled. */
  ghost function WithinLast(cfg: Config, frames: seq<Frame>, j: nat): (r: State)
    requires frames != [] && j <= |frames[|frames| - 1].detections|
  {
    var f := frames[|frames| - 1];
    DetectAll(cfg, RunFrames(cfg, frames[..|frames| - 1]), f.ts, f.detections[..j])
  }

  lemma WithinIsSound(cfg: Config, frames: seq<Frame>, j: nat)
    requires LegalFrames(cfg, frames) && frames != [] && j <= |frames[|frames| - 1].detections|
    ensures Sound(cfg, frames[|frames| - 1].ts, WithinLast(cfg, frames, j))
  {
    var front, f := frames[..|frames| - 1], frames[|frames| - 1];
    EveryReachableStateIsSound(cfg, front, f.ts);
    SoundLater(cfg, LastTime(front, f.ts), f.ts, RunFrames(cfg, front));
    DetectAllIsSound(cfg, RunFrames(cfg, front), f.ts, f.detections[..j]);
  }

  /** Keys are unique between frames, and within each after any number of its detections. */
  lemma KeysAreUnique(cfg: Config, frames: seq<Frame>)
    requires LegalFrames(cfg, frames)
    ensures UniqueKeys(RunFrames(cfg, frames))
    ensures forall j :: frames != [] && 0 <= j <= |frames[|frames| - 1].detections| ==>
              UniqueKeys(WithinLast(cfg, frames, j))
  {
    EveryReachableStateIsSound(cfg, frames, 0);
    SoundKeysAreUnique(cfg, LastTime(frames, 0), RunFrames(cfg, frames));
    forall j | frames != [] && 0 <= j <= |frames[|frames| - 1].detections|
      ensures UniqueKeys(WithinLast(cfg, frames, j))
    {
      WithinIsSound(cfg, frames, j);
      SoundKeysAreUnique(cfg, frames[|frames| - 1].ts, WithinLast(cfg, frames, j));
    }
  }

  /** And at return, when every track has been written: no two summary rows share a key. */
  lemma OneSummaryRowPerKey(cfg: Config, frames: seq<Frame>, end: int)
    requires LegalFrames(cfg, frames) && LastTime(frames, end) <= end
    ensures var tracks := RunToEnd(cfg, frames, end).tracks;
      forall i, j :: 0 <= i < j < |tracks| ==> tracks[i].key != tracks[j].key
  {
    ReturnedStateIsSound(cfg, frames, end);
    NoKeyTwice(cfg, end, RunToEnd(cfg, frames, end));
  }

  /** Whenever a key is searched for, after any frames and any detections of the next one,
      the search accepts its first candidate. */
  lemma SearchNeverRetries(cfg: Config, frames: seq<Frame>, j: nat, raw: int)
    requires LegalFrames(cfg, frames) && frames != [] && j <= |frames[|frames| - 1].detections|
    requires raw !in WithinLast(cfg, frames, j).active
    ensures var s := WithinLast(cfg, frames, j);
      && NextUse(s, raw) == (if raw in s.reuse then s.reuse[raw] else 0) + 1
      && KeyOf(s, raw) !in s.runtimes && KeyOf(s, raw) !in s.used
  {
    WithinIsSound(cfg, frames, j);
    FirstCandidateAccepted(WithinLast(cfg, frames, j), raw);
  }

  // ------------------------------------------------------- order of timestamps

  lemma {:induction false} OfferedIsEmitted(es: seq<DoorEvent>, pe: Pending)
    requires pe in Offered(es)
    ensures exists i :: 0 <= i < |es| && pe == ToPending(es[i])
  {
    if pe == ToPending(es[|es| - 1]) {
    } else {
      OfferedIsEmitted(es[..|es| - 1], pe);
    }
  }

  lemma {:induction false} RowIsItem(rows: seq<EventRow>, row: EventRow)
    requires row in rows
    ensures if row.reason == TrackEndedInside then row in EndRows(rows) else Item(row) in DoorItems(rows)
  {
    if row == rows[|rows| - 1] {
    } else {
      RowIsItem(rows[..|rows| - 1], row);
    }
  }

  lemma ExitRowHere(cfg: Config, now: int, v: View, exit: EventRow)
    requires KeyInv(cfg, now, v) && exit in v.rows && exit.reason == TrackEndedInside
    ensures DoneInv(cfg, now, v)
    ensures var last := Finalize(StateAfter(cfg.engine, v.log), cfg.inferExit); last.Some? && exit.ts == last.value.ts
  {
    RowIsItem(v.rows, exit);
    EndsHere(cfg, now, v);
    assert |EndRows(v.rows)| <= 1;
  }

  lemma OfferedIsWithin(cfg: Config, log: seq<Observation>, pe: Pending)
    requires log != [] && TimeOrdered(log) && AllObservable(cfg.engine, log) && pe in Offered(Emitted(cfg.engine, log))
    ensures log[0].ts <= pe.ts <= log[|log| - 1].ts
    ensures var last := Finalize(StateAfter(cfg.engine, log), cfg.inferExit); last.Some? ==> pe.ts <= last.value.ts
  {
    var es := Emitted(cfg.engine, log);
    OfferedIsEmitted(es, pe);
    var i :| 0 <= i < |es| && pe == ToPending(es[i]);
    EveryEventIsWithin(cfg.engine, cfg.inferExit, log);
    assert es[i] in es && es[i] in EmittedToEnd(cfg.engine, cfg.inferExit, log);
  }

  lemma ExitIsWithin(cfg: Config, log: seq<Observation>)
    requires log != [] && TimeOrdered(log) && AllObservable(cfg.engine, log)
    ensures var last := Finalize(StateAfter(cfg.engine, log), cfg.inferExit);
      last.Some? ==> log[0].ts <= last.value.ts <= log[|log| - 1].ts
  {
    EveryEventIsWithin(cfg.engine, cfg.inferExit, log);
    var last, all := Finalize(StateAfter(cfg.engine, log), cfg.inferExit), EmittedToEnd(cfg.engine, cfg.inferExit, log);
    if last.Some? { assert last.value == all[|all| - 1]; }
  }

  /** A row of one key: between its first and its last observation, and no later than its exit. */
  lemma RowDates(cfg: Config, now: int, v: View, row: EventRow)
    requires KeyInv(cfg, now, v) && row in v.rows
    ensures v.log != [] && v.log[0].ts <= row.ts <= v.log[|v.log| - 1].ts
    ensures var last := Finalize(StateAfter(cfg.engine, v.log), cfg.inferExit); last.Some? ==> row.ts <= last.value.ts
  {
    LogHere(cfg, now, v);
    if row.reason == TrackEndedInside {
      ExitRowHere(cfg, now, v, row);
      ExitIsWithin(cfg, v.log);
    } else {
      RowIsItem(v.rows, row);
      BalanceHere(cfg, now, v);
      OfferedIsWithin(cfg, v.log, Item(row));
    }
  }

  lemma LogHere(cfg: Config, now: int, v: View)
    requires KeyInv(cfg, now, v) && v.rows != []
    ensures v.log != [] && TimeOrdered(v.log) && AllObservable(cfg.engine, v.log)
    ensures var first, last := v.log[0].ts, v.log[|v.log| - 1].ts;
      if v.rt.Some? then v.rt.value.firstTs == Some(first) && v.rt.value.lastTs == Some(last)
      else |v.tracks| == 1 && v.tracks[0].firstTs == first && v.tracks[0].lastTs == last
  {
  }

  /** Between frames, every event row, flushed or not, is dated between the first and the last
      sighting of the live track with its key, or of that key's one summary row. */
  lemma RowsAreWithinTheirTrack(cfg: Config, frames: seq<Frame>, i: nat)
    requires LegalFrames(cfg, frames)
    requires i < |RunFrames(cfg, frames).table + RunFrames(cfg, frames).buffer|
    ensures var s := RunFrames(cfg, frames);
      var row := (s.table + s.buffer)[i];
      if row.key in s.runtimes then
        var rt := s.runtimes[row.key];
        rt.firstTs.Some? && rt.lastTs.Some? && rt.firstTs.value <= row.ts <= rt.lastTs.value
      else
        var tracks := TracksOf(s.tracks, row.key);
        |tracks| == 1 && tracks[0].firstTs <= row.ts <= tracks[0].lastTs
  {
    var s, now := RunFrames(cfg, frames), LastTime(frames, 0);
    EveryReachableStateIsSound(cfg, frames, 0);
    RowIsListed(s.table + s.buffer, i);
    var row := (s.table + s.buffer)[i];
    RowDates(cfg, now, ViewOf(s, row.key), row);
    LogHere(cfg, now, ViewOf(s, row.key));
  }

  /** At the end of the run: between the start and the end that the summary row gives its track. */
  lemma CommittedRowsAreWithinTheirTrack(cfg: Config, frames: seq<Frame>, end: int, i: nat)
    requires LegalFrames(cfg, frames) && LastTime(frames, end) <= end
    requires i < |RunToEnd(cfg, frames, end).table|
    ensures var s := RunToEnd(cfg, frames, end);
      var tracks := TracksOf(s.tracks, s.table[i].key);
      |tracks| == 1 && tracks[0].firstTs <= s.table[i].ts <= tracks[0].lastTs
  {
    var s := RunToEnd(cfg, frames, end);
    ReturnedStateIsSound(cfg, frames, end);
    assert s.table + s.buffer == s.table;
    RowIsListed(s.table, i);
    RowDates(cfg, end, ViewOf(s, s.table[i].key), s.table[i]);
    LogHere(cfg, end, ViewOf(s, s.table[i].key));
  }

  /** Under every configuration, a committed inferred exit is dated no earlier than any other
      committed event of its track, although events may be dated back. */
  lemma InferredExitIsLatest(cfg: Config, frames: seq<Frame>, end: int, exit: EventRow, row: EventRow)
    requires LegalFrames(cfg, frames) && LastTime(frames, end) <= end
    requires var rows := RowsOf(RunToEnd(cfg, frames, end).table, row.key); exit in rows && row in rows
    requires exit.reason == TrackEndedInside
    ensures row.ts <= exit.ts
  {
    var s := RunToEnd(cfg, frames, end);
    ReturnedStateIsSound(cfg, frames, end);
    assert s.table + s.buffer == s.table;
    assert KeyInv(cfg, end, ViewOf(s, row.key));
    ExitRowHere(cfg, end, ViewOf(s, row.key), exit);
    RowDates(cfg, end, ViewOf(s, row.key), row);
  }
}
