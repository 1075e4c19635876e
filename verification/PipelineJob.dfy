/** The pipeline as one job object that changes its dictionaries, its database
    session and its counters step by step. Every method is proved to make
    exactly the step of the specification. */
module PipelineJob {
  import opened Wrappers
  import opened StableSort
  import opened DoorEngine
  import opened Reliability
  import opened TrackKeys
  import opened PipelineSpec
  import opened PipelineViews
  import opened PipelineKeyInvariant
  import opened PipelineCounts
  import opened PipelineRuns

  class Job {
    const cfg: Config
    var runtimes: map<string, Runtime>
    var order: seq<string>
    var used: set<string>
    var reuse: map<int, nat>
    var active: map<int, string>
    var table: seq<EventRow>
    var buffer: seq<EventRow>
    var tracks: seq<TrackRow>
    var unsaved: nat
    var counts: Counts
    ghost var log: map<string, seq<Observation>>
    ghost var lost: seq<Loss>
    ghost var merged: set<string>

    ghost function Snap(): (s: State)
      reads this
    {
      State(runtimes, order, used, reuse, active, table, buffer, tracks, unsaved, counts, log, lost, merged)
    }

    constructor (cfg: Config)
      ensures this.cfg == cfg && Snap() == INITIAL
    {
      this.cfg := cfg;
      runtimes, order, used, reuse, active := map[], [], {}, map[], map[];
      table, buffer, tracks, unsaved := [], [], [], 0;
      counts := Counts(0, 0, 0, 0, 0, 0);
      log, lost, merged := map[], [], {};
    }

    // ------------------------------------------------------------- the session

    method AddEvent(row: EventRow)
      modifies this`buffer, this`unsaved
      ensures Snap() == AddEvents(old(Snap()), [row])
    {
      buffer := buffer + [row];
      unsaved := unsaved + 1;
    }

    method FlushSession()
      modifies this`table, this`buffer
      ensures Snap() == Flush(old(Snap()))
    {
      table := table + buffer;
      buffer := [];
    }

    method CommitEvent(key: string, employee: Option<Employee>, pe: Pending, fromPending: bool)
      modifies this`buffer, this`unsaved, this`counts
      ensures buffer == old(buffer) + [PendingRow(key, employee, pe)] && unsaved == old(unsaved) + 1
      ensures counts == if fromPending then old(counts).(flushed := old(counts).flushed + 1) else old(counts)
    {
      AddEvent(PendingRow(key, employee, pe));
      if fromPending {
        counts := counts.(flushed := counts.flushed + 1);
      }
    }

    /** Commits a list of pending events, one after the other. */
    method CommitList(key: string, employee: Option<Employee>, pes: seq<Pending>)
      modifies this`buffer, this`unsaved, this`counts
      ensures Snap() == CommitPending(old(Snap()), key, employee, pes)
    {
      PendingRowsAre(key, employee, pes);
      for i := 0 to |pes|
        invariant buffer == old(buffer) + PendingRows(key, employee, pes[..i])
        invariant unsaved == old(unsaved) + i
        invariant counts == old(counts).(flushed := old(counts).flushed + i)
      {
        TakeNext(pes, i);
        CommitEvent(key, employee, pes[i], true);
      }
      assert pes[..|pes|] == pes;
    }

    method FlushPendingEventsIfReady(key: string, now: int)
      requires key in runtimes
      modifies this`runtimes, this`buffer, this`unsaved, this`counts
      ensures Snap() == FlushIfReady(cfg, old(Snap()), key, now)
    {
      var rt := runtimes[key];
      if !cfg.enablePending || rt.pending == [] { return; }
      if !IsTrackStable(rt.firstTs, now, rt.hits, cfg.minAge, cfg.minHits) { return; }
      CommitList(key, rt.employee, Sort(EarlierPending, rt.pending));
      runtimes := runtimes[key := rt.(pending := [])];
    }

    // ------------------------------------------------------ the end of a track

    /** Writes the summary row and cleans up. The mapping from tracker ids is
        searched in any order and only the first id found is removed: it is the only one. */
    method FinalizeTrackRuntime(key: string, now: int)
      requires key in runtimes
      requires OneIdPerKey(active)
      modifies this`tracks, this`unsaved, this`runtimes, this`order, this`used, this`active
      ensures Snap() == Retire(old(Snap()), key, now)
    {
      var rt := runtimes[key];
      tracks := tracks + [TrackRow(key, rt.firstTs.GetOr(rt.lastTs.GetOr(now)), rt.lastTs.GetOr(now),
                                   rt.employee, rt.confidence, rt.firstZone, rt.lastZone)];
      unsaved := unsaved + 1;
      runtimes := runtimes - {key};
      order := Remove(order, key);
      used := used + {key};
      ForgetKey(key);
    }

    method ForgetKey(key: string)
      requires OneIdPerKey(active)
      modifies this`active
      ensures active == map raw | raw in old(active) && old(active)[raw] != key :: old(active)[raw]
    {
      var ids := active.Keys;
      while ids != {}
        invariant active == old(active) && ids <= active.Keys
        invariant forall raw :: raw in active.Keys && active[raw] == key ==> raw in ids
        decreases ids
      {
        var raw := Pick(ids);
        ids := ids - {raw};
        if active[raw] == key {
          active := active - {raw};
          assert forall r :: r in active.Keys <==> r in old(active).Keys && old(active)[r] != key;
          return;
        }
      }
      assert forall r :: r in active.Keys ==> active[r] != key;
    }

    /** Settles pending events at a track's end: flush if stable, else drop or keep the strong ones. */
    method SettlePendingEvents(key: string, now: int)
      requires key in runtimes
      modifies this`runtimes, this`buffer, this`unsaved, this`counts, this`lost
      ensures Snap() == SettlePending(cfg, old(Snap()), key, now)
    {
      var rt := runtimes[key];
      if !cfg.enablePending || rt.pending == [] { return; }
      if IsTrackStable(rt.firstTs, rt.lastTs.GetOr(now), rt.hits, cfg.minAge, cfg.minHits) {
        CommitList(key, rt.employee, Sort(EarlierPending, rt.pending));
        runtimes := runtimes[key := rt.(pending := [])];
      } else {
        SettleUnstableEvents(key);
      }
    }

    method SettleUnstableEvents(key: string)
      requires key in runtimes
      modifies this`runtimes, this`buffer, this`unsaved, this`counts, this`lost
      ensures Snap() == SettleUnstable(old(Snap()), key)
    {
      var rt := runtimes[key];
      DropOrCommit(key, rt);
      PendingRowsAre(key, rt.employee, Strongs(rt.pending));
      runtimes := runtimes[key := rt.(pending := [])];
    }

    method DropOrCommit(key: string, rt: Runtime)
      modifies this`buffer, this`unsaved, this`counts, this`lost
      ensures Snap() == DropAll(old(Snap()), key, rt.employee, rt.pending)
    {
      var pes := rt.pending;
      ghost var before := Snap();
      DropNone(before, key, rt.employee);
      for i := 0 to |pes|
        invariant Snap() == DropAll(before, key, rt.employee, pes[..i])
      {
        TakeNext(pes, i);
        DropNext(before, key, rt.employee, pes[..i], pes[i], pes[..i + 1]);
        DropOrCommitOne(key, rt.employee, pes[i]);
      }
      assert pes[..|pes|] == pes;
    }

    /** One event still pending when an unstable track ends. */
    method DropOrCommitOne(key: string, employee: Option<Employee>, pe: Pending)
      modifies this`buffer, this`unsaved, this`counts, this`lost
      ensures Snap() == DropOne(old(Snap()), key, employee, pe)
    {
      if ShouldDropOnEnd(pe) {
        counts := counts.(dropped := counts.dropped + 1);
        lost := lost + [Loss(key, pe, Dropped)];
      } else if pe.strength == Strong {
        CommitEvent(key, employee, pe, true);
      } else {
        lost := lost + [Loss(key, pe, Discarded)];
      }
    }

    /** Commits the inferred exit of a held track and finishes the track. */
    method ReleaseHeldExit(key: string, hold: Hold, now: int, mark: Mark)
      requires key in runtimes && OneIdPerKey(active)
      modifies this
      ensures Snap() == ReleaseHeld(cfg, old(Snap()), key, hold, now, mark)
    {
      SettlePendingEvents(key, now);
      CommitHeldExit(key, hold, now, mark);
      FinalizeTrackRuntime(key, now);
    }

    method CommitHeldExit(key: string, hold: Hold, now: int, mark: Mark)
      requires key in runtimes
      modifies this`buffer, this`unsaved, this`counts
      ensures Snap() == Count(AddEvents(old(Snap()), [HeldExitRow(key, runtimes[key], hold, now, mark)]),
                              old(counts).(expired := old(counts).expired + 1))
    {
      var rt := runtimes[key];
      AddEvent(EventRow(key, hold.exitTs.GetOr(rt.lastTs.GetOr(now)), Exit, true, hold.confidence,
                        hold.reason.GetOr(TrackEndedInside), mark, rt.employee));
      counts := counts.(expired := counts.expired + 1);
    }

    /** Commits what the end of a track infers, if anything, and finishes the track. */
    method EndTrack(key: string, end: Option<DoorEvent>, now: int)
      requires key in runtimes && OneIdPerKey(active)
      modifies this
      ensures Snap() == EndNow(old(Snap()), key, end, now)
    {
      if end.Some? {
        var e := end.value;
        AddEvent(EventRow(key, e.ts, e.kind, e.inferred, Some(e.confidence), e.reason, Plain, runtimes[key].employee));
      }
      FinalizeTrackRuntime(key, now);
    }

    /** One track that has been missing for longer than its time to live. */
    method ExpireTrack(key: string, now: int)
      requires key in runtimes && OneIdPerKey(active)
      modifies this
      ensures Snap() == Expire(cfg, old(Snap()), key, now)
    {
      var rt := runtimes[key];
      if cfg.enableExit && rt.hold.Some? {
        WaitForGrace(key, now);
      } else {
        EndOrHoldTrack(key, now);
      }
    }

    method EndOrHoldTrack(key: string, now: int)
      requires key in runtimes && OneIdPerKey(active)
      modifies this
      ensures Snap() == EndOrHold(cfg, old(Snap()), key, now)
    {
      var rt := runtimes[key];
      var end := Finalize(rt.door, cfg.inferExit);
      var wants := cfg.enableExit && end.Some? && end.value.inferred && end.value.reason == TrackEndedInside;
      if !(wants && !IsTrackStable(rt.firstTs, rt.lastTs.GetOr(now), rt.hits, cfg.minAge, cfg.minHits)) {
        SettlePendingEvents(key, now);
      }
      if wants {
        OpenHold(key, end.value, now);
      } else {
        EndTrack(key, end, now);
      }
    }

    /** A held track: its exit is committed when the grace is over. */
    method WaitForGrace(key: string, now: int)
      requires key in runtimes && runtimes[key].hold.Some? && OneIdPerKey(active)
      modifies this
      ensures Snap() == AwaitGrace(cfg, old(Snap()), key, now)
    {
      var rt := runtimes[key];
      var startedAt := rt.hold.value.started.GetOr(now);
      var hold := rt.hold.value.(started := Some(startedAt));
      runtimes := runtimes[key := rt.(hold := Some(hold))];
      if ExitGraceExpired(startedAt, now, cfg.grace) {
        ReleaseHeldExit(key, hold, now, AfterGrace);
      }
    }

    method OpenHold(key: string, end: DoorEvent, now: int)
      requires key in runtimes
      modifies this`runtimes, this`counts
      ensures Snap() == StartHold(old(Snap()), key, end, now)
    {
      var hold := Hold(Some(now), Some(end.ts), Some(end.confidence), Some(end.reason));
      runtimes := runtimes[key := runtimes[key].(hold := Some(hold))];
      counts := counts.(started := counts.started + 1);
    }

    method ConcludeTrack(key: string, now: int)
      requires key in runtimes && OneIdPerKey(active)
      modifies this
      ensures Snap() == Conclude(cfg, old(Snap()), key, now)
    {
      var rt := runtimes[key];
      if cfg.enableExit && rt.hold.Some? {
        ReleaseHeldExit(key, rt.hold.value, now, AtEndOfVideo);
      } else {
        SettlePendingEvents(key, now);
        EndTrack(key, Finalize(rt.door, cfg.inferExit), now);
      }
    }

    // ----------------------------------------------------------- one detection

    /** The key of a detection, allocated on the first sighting of a life-cycle. */
    method AdmitTrack(raw: int) returns (key: string)
      requires KeysOk(Snap())
      modifies this`reuse, this`active, this`runtimes, this`order
      ensures key == KeyOf(old(Snap()), raw) && Snap() == Admit(old(Snap()), raw)
      ensures key in runtimes
    {
      key := NameTrackKey(raw);
      if key !in runtimes {
        runtimes := runtimes[key := FRESH_RUNTIME];
        order := order + [key];
      }
    }

    method NameTrackKey(raw: int) returns (key: string)
      modifies this`reuse, this`active
      ensures key == KeyOf(old(Snap()), raw)
      ensures reuse == if raw in old(active) then old(reuse) else old(reuse)[raw := NextUse(old(Snap()), raw)]
      ensures active == if raw in old(active) then old(active) else old(active)[raw := key]
    {
      if raw in active {
        key := active[raw];
      } else {
        var n;
        key, n := Allocate(used, runtimes.Keys, raw, (if raw in reuse then reuse[raw] else 0) + 1);
        reuse := reuse[raw := n];
        active := active[raw := key];
      }
    }

    /** The sighting itself: cancel a hold, count the hit, advance the door state. */
    method Sight(key: string, o: Observation) returns (event: Option<DoorEvent>)
      requires key in runtimes
      modifies this`runtimes, this`counts, this`log
      ensures Snap() == See(cfg, old(Snap()), key, o)
      ensures event == Observe(cfg.engine, old(runtimes)[key].door, o).1
    {
      log := log[key := LogOf(Snap(), key) + [o]];
      if cfg.enableExit && runtimes[key].hold.Some? {
        counts := counts.(canceled := counts.canceled + 1);
      }
      var rt;
      rt, event := SightRuntime(runtimes[key], o);
      runtimes := runtimes[key := rt];
    }

    method SightRuntime(was: Runtime, o: Observation) returns (rt: Runtime, event: Option<DoorEvent>)
      ensures rt == Sighted(cfg, was, o) && event == Observe(cfg.engine, was.door, o).1
    {
      rt := was;
      if cfg.enableExit { rt := rt.(hold := None); }
      if rt.firstTs.None? { rt := rt.(firstTs := Some(o.ts)); }
      var step := Observe(cfg.engine, rt.door, o);
      event := step.1;
      rt := rt.(lastTs := Some(o.ts), hits := rt.hits + 1, door := step.0);
      if rt.firstZone == Unknown { rt := rt.(firstZone := o.zone); }
      rt := rt.(lastZone := o.zone);
    }

    method OfferEvent(key: string, e: DoorEvent, now: int)
      requires key in runtimes
      modifies this`runtimes, this`buffer, this`unsaved, this`counts
      ensures Snap() == Offer(cfg, old(Snap()), key, ToPending(e), now)
    {
      var rt := runtimes[key];
      var strength := ClassifyStrength(e.reason);
      var pe := Pending(e.kind, e.ts, e.inferred, Some(e.confidence), strength, e.reason);
      if !cfg.enablePending {
        CommitEvent(key, rt.employee, pe, false);
      } else if ShouldCommitEvent(strength, IsTrackStable(rt.firstTs, now, rt.hits, cfg.minAge, cfg.minHits)) {
        CommitEvent(key, rt.employee, pe, false);
      } else {
        runtimes := runtimes[key := rt.(pending := rt.pending + [pe])];
        counts := counts.(enqueued := counts.enqueued + 1);
      }
    }

    /** The held tracks that an identity locked on `key` may continue. */
    method CollectContinued(key: string, now: int) returns (all: seq<string>)
      requires key in runtimes
      ensures all == Continued(cfg, Snap(), order, key, now)
    {
      var rt := runtimes[key];
      all := [];
      for i := 0 to |order|
        invariant all == Continued(cfg, Snap(), order[..i], key, now)
      {
        var k := order[i];
        assert order[..i + 1][..i] == order[..i];
        if k in runtimes && k != key && runtimes[k].hold.Some? && runtimes[k].hold.value.started.Some? {
          if ShouldCancelExit(runtimes[k].employee, runtimes[k].hold.value.started.value, now, cfg.grace,
                              rt.employee, rt.confidence, cfg.minLock, true) {
            all := all + [k];
          }
        }
      }
      assert order[..|order|] == order;
    }

    /** Of several held tracks, the first of the most recently held. */
    method MostRecentlyHeld(all: seq<string>) returns (best: string)
      requires all != [] && forall k :: k in all ==> k in runtimes && runtimes[k].hold.Some?
      ensures best == LatestHeld(Snap(), all)
    {
      best := all[0];
      assert all[..1] == [best];
      for i := 1 to |all|
        invariant best in all[..i] && best == LatestHeld(Snap(), all[..i])
      {
        var k := all[i];
        assert best in all && k in all;
        TakeNext(all, i);
        OneMoreHeld(Snap(), all[..i], k, all[..i + 1]);
        if runtimes[k].hold.value.started.GetOr(0) > runtimes[best].hold.value.started.GetOr(0) {
          best := k;
        }
      }
      assert all[..|all|] == all;
    }

    /** The continuity rule: the only candidate, or, when ambiguity is allowed, the
        most recently held one, is ended without an exit. */
    method CancelHeld(key: string, now: int)
      requires key in runtimes && OneIdPerKey(active)
      modifies this
      ensures Snap() == MergeHeld(cfg, old(Snap()), key, now)
    {
      var all := CollectContinued(key, now);
      if all == [] || (cfg.requireUnique && |all| != 1) { return; }
      var best := MostRecentlyHeld(all);
      CancelByIdentity(best, now);
    }

    /** Attaches a locked identity to its track, to the track's earlier rows, and to
        the held track it continues. */
    method Attach(key: string, now: int, lock: Lock, continuing: bool)
      requires key in runtimes && OneIdPerKey(active)
      modifies this
      ensures Snap() == LockIdentity(cfg, old(Snap()), key, now, lock, continuing)
    {
      NameTrack(key, lock);
      if continuing {
        CancelHeld(key, now);
      }
    }

    /** Names the track, flushes the session, and names the track's rows in the table. */
    method NameTrack(key: string, lock: Lock)
      requires key in runtimes
      modifies this`runtimes, this`table, this`buffer
      ensures Snap() == NameRows(old(Snap()), key, lock)
    {
      runtimes := runtimes[key := runtimes[key].(employee := Some(lock.employee), confidence := lock.confidence)];
      FlushSession();
      table := Claimed(table, key, lock.employee);
    }

    method CancelByIdentity(key: string, now: int)
      requires key in runtimes && OneIdPerKey(active)
      modifies this
      ensures Snap() == MergeAway(old(Snap()), key, now)
    {
      NoteMerge(key);
      FinalizeTrackRuntime(key, now);
    }

    method NoteMerge(key: string)
      requires key in runtimes
      modifies this`counts, this`lost, this`merged
      ensures Snap() == MergeNoted(old(Snap()), key)
    {
      lost := lost + Losses(key, runtimes[key].pending, MergedAway);
      merged := merged + {key};
      counts := counts.(canceled := counts.canceled + 1);
    }

    /** The face probe, when one is due. */
    method ProbeFace(key: string, now: int, d: Detection, hadEvent: bool)
      requires key in runtimes && OneIdPerKey(active)
      modifies this
      ensures Snap() == Identify(cfg, old(Snap()), key, now, d, hadEvent)
    {
      var rt := runtimes[key];
      if cfg.faceEnabled && rt.employee == None && rt.probes < cfg.maxProbes
         && (d.nearDoor || hadEvent)
         && !(rt.lastProbe.Some? && now - rt.lastProbe.value < cfg.probeCooldown) {
        NoteProbe(key, now);
        HandleProbe(key, now, d);
      }
    }

    method NoteProbe(key: string, now: int)
      requires key in runtimes
      modifies this`runtimes
      ensures Snap() == Store(old(Snap()), key, ProbeCounted(old(runtimes)[key], now))
    {
      var rt := runtimes[key];
      runtimes := runtimes[key := rt.(probes := rt.probes + 1, lastProbe := Some(now))];
    }

    method HandleProbe(key: string, now: int, d: Detection)
      requires key in runtimes && OneIdPerKey(active)
      modifies this
      ensures Snap() == AfterProbe(cfg, old(Snap()), key, now, d)
    {
      if d.lock.Some? {
        Attach(key, now, d.lock.value,
               cfg.enableExit && d.zone == Inside && d.nearDoor && d.lock.value.confidence.Some?);
      }
    }

    /** The door logic of one detection. */
    method ProcessDoor(key: string, o: Observation) returns (event: Option<DoorEvent>)
      requires key in runtimes
      modifies this`runtimes, this`counts, this`log, this`buffer, this`unsaved
      ensures Snap() == DoorLogic(cfg, old(Snap()), key, o)
      ensures event == Observe(cfg.engine, old(runtimes)[key].door, o).1
    {
      event := Sight(key, o);
      if event.Some? {
        OfferEvent(key, event.value, o.ts);
      }
      FlushPendingEventsIfReady(key, o.ts);
    }

    method ProcessDetection(now: int, d: Detection) returns (key: string)
      requires Tidy(Snap())
      modifies this
      ensures key == KeyOf(old(Snap()), d.raw) && Snap() == Detect(cfg, old(Snap()), now, d)
    {
      AdmittedStaysOk(Snap(), d.raw);
      key := AdmitTrack(d.raw);
      var event := ProcessDoor(key, Observation(now, d.zone, d.side, d.inGate));
      ProbeFace(key, now, d, event.Some?);
    }

    // -------------------------------------------------------------- whole runs

    method FindMissing(seen: set<string>, now: int) returns (gone: seq<string>)
      ensures gone == Missing(cfg, Snap(), order, seen, now)
    {
      gone := [];
      for i := 0 to |order|
        invariant gone == Missing(cfg, Snap(), order[..i], seen, now)
      {
        var k := order[i];
        assert order[..i + 1][..i] == order[..i];
        if k in runtimes && k !in seen && runtimes[k].lastTs.Some? && now - runtimes[k].lastTs.value > cfg.ttl {
          gone := gone + [k];
        }
      }
      assert order[..|order|] == order;
    }

    /** The end of one detector frame: missing tracks are expired one after the other. */
    method ExpireMissing(seen: set<string>, now: int)
      requires Sound(cfg, now, Snap())
      modifies this
      ensures Snap() == ExpireAll(cfg, old(Snap()), Missing(cfg, old(Snap()), old(order), seen, now), now)
      ensures Sound(cfg, now, Snap())
    {
      ghost var before := Snap();
      var gone := FindMissing(seen, now);
      MissingAreOverdue(cfg, before, order, seen, now);
      ExpireAllIsSound(cfg, before, gone, now);
      for i := 0 to |gone|
        invariant Sound(cfg, now, Snap())
        invariant forall k :: k in gone[i..] ==> Overdue(cfg, Snap(), k, now)
        invariant ExpireAll(cfg, Snap(), gone[i..], now) == ExpireAll(cfg, before, gone, now)
      {
        var key := gone[i];
        ghost var s := Snap();
        assert key in gone[i..] && gone[i..][1..] == gone[i + 1..];
        ExpireIsSound(cfg, s, key, now);
        ExpireTrack(key, now);
        forall k | k in gone[i + 1..] ensures Overdue(cfg, Snap(), k, now) {
          assert k in gone[i..];
          OverdueStays(cfg, s, Snap(), key, k, now);
        }
      }
    }

    /** The detections of one frame, and the keys they were seen under. */
    method ProcessDetections(now: int, ds: seq<Detection>) returns (seen: set<string>)
      requires Sound(cfg, now, Snap())
      requires forall j :: 0 <= j < |ds| ==> Observable(cfg.engine, ObservationOf(now, ds[j]))
      modifies this
      ensures Snap() == DetectAll(cfg, old(Snap()), now, ds) && seen == SeenKeys(cfg, old(Snap()), now, ds)
    {
      ghost var before := Snap();
      seen := {};
      for i := 0 to |ds|
        invariant Tidy(Snap())
        invariant Snap() == DetectAll(cfg, before, now, ds[..i])
        invariant seen == SeenKeys(cfg, before, now, ds[..i])
      {
        TakeNext(ds, i);
        DetectedIsTidy(cfg, before, now, ds, i, DetectAll(cfg, before, now, ds[..i + 1]));
        OneMoreDetection(cfg, before, now, ds[..i], ds[i], ds[..i + 1]);
        var key := ProcessDetection(now, ds[i]);
        seen := seen + {key};
      }
      assert ds[..|ds|] == ds;
    }

    method ProcessFrame(f: Frame)
      requires Sound(cfg, f.ts, Snap())
      requires forall j :: 0 <= j < |f.detections| ==> Observable(cfg.engine, ObservationOf(f.ts, f.detections[j]))
      modifies this
      ensures Snap() == FrameStep(cfg, old(Snap()), f)
    {
      DetectAllIsSound(cfg, Snap(), f.ts, f.detections);
      var seen := ProcessDetections(f.ts, f.detections);
      ExpireMissing(seen, f.ts);
      if unsaved >= CHECKPOINT {
        FlushSession();
        unsaved := 0;
      }
    }

    method ConcludeTracks(keys: seq<string>, now: int)
      requires Sound(cfg, now, Snap()) && NoDup(keys) && forall k :: k in keys ==> k in runtimes
      modifies this
      ensures Snap() == ConcludeAll(cfg, old(Snap()), keys, now)
    {
      ghost var before := Snap();
      for i := 0 to |keys|
        invariant Concludable(cfg, Snap(), keys, i, now)
        invariant ConcludeAll(cfg, Snap(), keys[i..], now) == ConcludeAll(cfg, before, keys, now)
      {
        ConcludeStep(cfg, Snap(), keys, i, now);
        ConcludeTrack(keys[i], now);
      }
    }

    method EndOfVideo(now: int)
      requires Sound(cfg, now, Snap())
      modifies this
      ensures Snap() == Flush(ConcludeAll(cfg, old(Snap()), old(order), now))
    {
      ConcludeTracks(order, now);
      FlushSession();
    }
  }

  lemma DetectedIsTidy(cfg: Config, s: State, now: int, ds: seq<Detection>, i: nat, t: State)
    requires i < |ds| && Sound(cfg, now, s) && t == DetectAll(cfg, s, now, ds[..i + 1])
    requires forall j :: 0 <= j < |ds| ==> Observable(cfg.engine, ObservationOf(now, ds[j]))
    ensures Tidy(t)
  {
    DetectAllIsSound(cfg, s, now, ds[..i + 1]);
  }

  lemma OneMoreDetection(cfg: Config, s: State, now: int, front: seq<Detection>, d: Detection, ds: seq<Detection>)
    requires ds == front + [d]
    ensures DetectAll(cfg, s, now, ds) == Detect(cfg, DetectAll(cfg, s, now, front), now, d)
    ensures SeenKeys(cfg, s, now, ds) ==
            SeenKeys(cfg, s, now, front) + {KeyOf(DetectAll(cfg, s, now, front), d.raw)}
  {
    assert ds[..|ds| - 1] == front;
  }

  /** The keys from position `i` on are still there to be concluded. */
  ghost predicate Concludable(cfg: Config, s: State, keys: seq<string>, i: nat, now: int) {
    i <= |keys| && NoDup(keys) && Sound(cfg, now, s) && forall j :: i <= j < |keys| ==> keys[j] in s.runtimes
  }

  lemma ConcludeStep(cfg: Config, s: State, keys: seq<string>, i: nat, now: int)
    requires i < |keys| && Concludable(cfg, s, keys, i, now)
    ensures Tidy(s) && keys[i] in s.runtimes
    ensures Concludable(cfg, Conclude(cfg, s, keys[i], now), keys, i + 1, now)
    ensures ConcludeAll(cfg, s, keys[i..], now) == ConcludeAll(cfg, Conclude(cfg, s, keys[i], now), keys[i + 1..], now)
  {
    ConcludeIsSound(cfg, s, keys[i], now);
    var t := Conclude(cfg, s, keys[i], now);
    assert keys[i..][1..] == keys[i + 1..];
    forall j | i + 1 <= j < |keys| ensures keys[j] in t.runtimes {
      assert keys[j] in t.runtimes.Keys;
    }
  }

  lemma OneMoreHeld(s: State, front: seq<string>, k: string, all: seq<string>)
    requires all == front + [k] && front != [] && forall j :: j in all ==> j in s.runtimes && s.runtimes[j].hold.Some?
    ensures var best := LatestHeld(s, front);
      LatestHeld(s, all) ==
        if s.runtimes[k].hold.value.started.GetOr(0) > s.runtimes[best].hold.value.started.GetOr(0) then k else best
  {
    assert all[..|all| - 1] == front;
  }

  ghost function DropBy(s: State, rows: seq<EventRow>, drops: nat, losses: seq<Loss>): (t: State) {
    s.(buffer := s.buffer + rows, unsaved := s.unsaved + |rows|, lost := s.lost + losses,
       counts := s.counts.(flushed := s.counts.flushed + |rows|, dropped := s.counts.dropped + drops))
  }

  /** What an unstable end does to the events still pending, all of them and one. */
  ghost function DropAll(s: State, key: string, employee: Option<Employee>, pes: seq<Pending>): (t: State) {
    DropBy(s, PendingRows(key, employee, Strongs(pes)), DropCount(pes), EndLosses(key, pes))
  }

  ghost function DropOne(s: State, key: string, employee: Option<Employee>, pe: Pending): (t: State) {
    if ShouldDropOnEnd(pe) then DropBy(s, [], 1, [Loss(key, pe, Dropped)])
    else if pe.strength == Strong then DropBy(s, [PendingRow(key, employee, pe)], 0, [])
    else DropBy(s, [], 0, [Loss(key, pe, Discarded)])
  }

  lemma DropNone(s: State, key: string, employee: Option<Employee>)
    ensures DropAll(s, key, employee, []) == s
  {
    assert s.buffer + [] == s.buffer && s.lost + [] == s.lost;
  }

  lemma DropOneMore(s: State, key: string, employee: Option<Employee>, rows: seq<EventRow>, drops: nat,
                    losses: seq<Loss>,
                    pe: Pending, more: seq<EventRow>, ls: seq<Loss>)
    requires more == if pe.strength == Strong && !ShouldDropOnEnd(pe) then [PendingRow(key, employee, pe)] else []
    requires ls == if ShouldDropOnEnd(pe) then [Loss(key, pe, Dropped)]
                   else if pe.strength == Strong then [] else [Loss(key, pe, Discarded)]
    ensures DropOne(DropBy(s, rows, drops, losses), key, employee, pe)
            == DropBy(s, rows + more, drops + (if ShouldDropOnEnd(pe) then 1 else 0), losses + ls)
  {
    assert (s.buffer + rows) + more == s.buffer + (rows + more);
    assert (s.lost + losses) + ls == s.lost + (losses + ls);
  }

  lemma DropStep(key: string, employee: Option<Employee>, front: seq<Pending>, pe: Pending, all: seq<Pending>)
    returns (rows: seq<EventRow>, losses: seq<Loss>)
    requires all == front + [pe]
    ensures rows == if pe.strength == Strong && !ShouldDropOnEnd(pe) then [PendingRow(key, employee, pe)] else []
    ensures losses == if ShouldDropOnEnd(pe) then [Loss(key, pe, Dropped)]
                      else if pe.strength == Strong then [] else [Loss(key, pe, Discarded)]
    ensures PendingRows(key, employee, Strongs(all)) == PendingRows(key, employee, Strongs(front)) + rows
    ensures DropCount(all) == DropCount(front) + if ShouldDropOnEnd(pe) then 1 else 0
    ensures EndLosses(key, all) == EndLosses(key, front) + losses
  {
    assert all[..|all| - 1] == front;
    var strongs := Strongs(front);
    rows := if pe.strength == Strong && !ShouldDropOnEnd(pe) then [PendingRow(key, employee, pe)] else [];
    losses := if ShouldDropOnEnd(pe) then [Loss(key, pe, Dropped)]
              else if pe.strength == Strong then [] else [Loss(key, pe, Discarded)];
    assert strongs + [] == strongs && (strongs + [pe])[..|strongs|] == strongs;
  }

  lemma DropNext(s: State, key: string, employee: Option<Employee>, front: seq<Pending>, pe: Pending, all: seq<Pending>)
    requires all == front + [pe]
    ensures DropAll(s, key, employee, all) == DropOne(DropAll(s, key, employee, front), key, employee, pe)
  {
    var more, ls := DropStep(key, employee, front, pe, all);
    DropOneMore(s, key, employee, PendingRows(key, employee, Strongs(front)), DropCount(front),
                EndLosses(key, front), pe, more, ls);
  }

  /** No key is live under two tracker ids. */
  ghost predicate OneIdPerKey(active: map<int, string>) {
    forall a, b :: a in active && b in active && active[a] == active[b] ==> a == b
  }

  /** The key dictionaries are consistent. */
  ghost predicate Tidy(s: State) {
    Ordered(s) && KeysOk(s)
  }

  /** A whole run: all frames, then the end of the video. */
  method ProcessVideo(cfg: Config, frames: seq<Frame>, end: int) returns (job: Job)
    requires LegalFrames(cfg, frames) && LastTime(frames, end) <= end
    ensures job.cfg == cfg && job.Snap() == RunToEnd(cfg, frames, end)
  {
    job := new Job(cfg);
    EmptyIsSound(cfg, if frames == [] then end else frames[0].ts);
    for i := 0 to |frames|
      invariant job.cfg == cfg && fresh(job) && job.Snap() == RunFrames(cfg, frames[..i])
    {
      assert frames[..i + 1][..i] == frames[..i];
      EveryReachableStateIsSound(cfg, frames[..i], frames[i].ts);
      SoundLater(cfg, LastTime(frames[..i], frames[i].ts), frames[i].ts, job.Snap());
      job.ProcessFrame(frames[i]);
    }
    assert frames[..|frames|] == frames;
    EveryReachableStateIsSound(cfg, frames, end);
    SoundLater(cfg, LastTime(frames, end), end, job.Snap());
    job.EndOfVideo(end);
  }
}
