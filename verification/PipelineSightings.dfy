/** What every sighting does with its own track: its runtime, its event rows, what is left
    pending, and the counters. */
module PipelineSightings {
  import opened Wrappers
  import opened StableSort
  import opened DoorEngine
  import opened Reliability
  import opened TrackKeys
  import opened PipelineSpec
  import opened PipelineViews
  import opened PipelineKeyInvariant
  import opened PipelineRuns
  import opened PipelineSpacing
  import opened PipelineTheorems
  import opened PipelineFates
  import opened PipelineIdentity

  // -------------------------------------------------------------- what is promised

  /** An event of the door engine, waiting or about to be written. Only a crossing of the line
      makes it strong. */
  ghost predicate IsPendingOf(pe: Pending, e: DoorEvent) {
    && pe.kind == e.kind && pe.ts == e.ts && pe.inferred == e.inferred && pe.confidence == Some(e.confidence)
    && pe.reason == e.reason
    && (pe.strength == Strong <==> e.reason == LineCrossing || e.reason == LineCrossingFirstStableInside)
  }

  /** The events at hand are those that the engine has just emitted. */
  ghost predicate ArePendingOf(pes: seq<Pending>, es: seq<DoorEvent>) {
    |pes| == |es| <= 1 && forall i :: 0 <= i < |es| ==> IsPendingOf(pes[i], es[i])
  }

  ghost predicate SortedTimes(pes: seq<Pending>) {
    forall i, j :: 0 <= i < j < |pes| ==> pes[i].ts <= pes[j].ts
  }

  /** What becomes of the waiting events and of a new one. Without two-phase commit the new one
      is written. A stable track writes it, and then all that waited, in time order. On an
      unstable one only strong evidence is written, and anything else waits. */
  ghost predicate Decides(cfg: Config, stable: bool, waiting: seq<Pending>, news: seq<Pending>, written: seq<Pending>,
                          left: seq<Pending>) {
    if !cfg.enablePending then written == news && left == waiting
    else if stable then
      && left == []
      && exists flushed :: written == news + flushed && multiset(flushed) == multiset(waiting) && SortedTimes(flushed)
    else if news != [] && news[0].strength == Strong then written == news && left == waiting
    else written == [] && left == waiting + news
  }

  /** The rows of the track: the earlier ones, then one for every event written, all of them
      naming the employee of the track. */
  ghost predicate RowsGrow(key: string, employee: Option<Employee>, before: seq<EventRow>, written: seq<Pending>,
                           after: seq<EventRow>) {
    && |after| == |before| + |written|
    && (forall i :: 0 <= i < |before| ==> after[i] == before[i].(employee := employee))
    && forall i :: 0 <= i < |written| ==> var pe := written[i];
         after[|before| + i] ==
           EventRow(key, pe.ts, pe.kind, pe.inferred, pe.confidence, pe.reason, Plain, employee)
  }

  /** The track after the sighting, but for its identity and what is pending. */
  ghost predicate SightedAs(cfg: Config, before: Runtime, after: Runtime, now: int, zone: Zone) {
    && after.hits == before.hits + 1 && after.lastTs == Some(now)
    && after.firstTs == (if before.firstTs.Some? then before.firstTs else Some(now))
    && after.firstZone == (if before.firstZone != Unknown then before.firstZone else zone) && after.lastZone == zone
    && after.hold == (if cfg.enableExit then None else before.hold)
  }

  /** The counters: an event more that waits, those that waited and are written, and the holds
      that the sighting and its identity have ended. */
  ghost predicate CountsMove(before: Counts, after: Counts, waiting: nat, left: nat, back: bool, gone: bool) {
    && after.enqueued == before.enqueued + (if left > waiting then left - waiting else 0)
    && after.flushed == before.flushed + (if left < waiting then waiting - left else 0)
    && after.canceled == before.canceled + (if back then 1 else 0) + (if gone then 1 else 0)
    && after.dropped == before.dropped && after.started == before.started && after.expired == before.expired
  }

  // ------------------------------------------------------------- the door logic

  lemma SortIsSorted(pes: seq<Pending>)
    ensures multiset(Sort(EarlierPending, pes)) == multiset(pes) && SortedTimes(Sort(EarlierPending, pes))
  {
    SortMultiset(EarlierPending, pes);
    SortSorted(EarlierPending, pes);
    var s := Sort(EarlierPending, pes);
    forall i, j | 0 <= i < j < |s| ensures s[i].ts <= s[j].ts { assert EarlierPending(s[i], s[j]); }
  }

  lemma PendingRowsConcat(key: string, employee: Option<Employee>, a: seq<Pending>, b: seq<Pending>)
    ensures PendingRows(key, employee, a + b) == PendingRows(key, employee, a) + PendingRows(key, employee, b)
  {
    PendingRowsAre(key, employee, a);
    PendingRowsAre(key, employee, b);
    PendingRowsAre(key, employee, a + b);
  }

  /** The event is offered, and the track flushed if it is stable. */
  lemma OfferedAndFlushed(cfg: Config, seen: State, key: string, news: seq<Pending>, now: int, offered: State, u: State)
    returns (written: seq<Pending>)
    requires key in seen.runtimes && |news| <= 1
    requires offered == if news != [] then Offer(cfg, seen, key, news[0], now) else seen
    requires u == FlushIfReady(cfg, offered, key, now)
    ensures var v, w := ViewOf(seen, key), ViewOf(u, key);
      && OnlyKey(seen, u, key) && w.rt.Some?
      && w == v.(rt := Some(v.rt.value.(pending := w.rt.value.pending)),
                 rows := v.rows + PendingRows(key, v.rt.value.employee, written))
      && Decides(cfg, Stable(cfg, v.rt.value, now), v.rt.value.pending, news, written, w.rt.value.pending)
  {
    var v, rt := ViewOf(seen, key), seen.runtimes[key];
    var commits := !cfg.enablePending || (news != [] && ShouldCommitEvent(news[0].strength, Stable(cfg, rt, now)));
    var first := if commits then news else [];
    OfferedRows(cfg, seen, key, news, now, offered, first);
    assert Stable(cfg, offered.runtimes[key], now) == Stable(cfg, rt, now);
    var waits := offered.runtimes[key].pending;
    var flushed := FlushedRows(cfg, offered, key, now, u);
    OnlyKeyTrans(seen, offered, u, key);
    written := first + flushed;
    PendingRowsConcat(key, rt.employee, first, flushed);
    JoinRows(v.rows, PendingRows(key, rt.employee, first), PendingRows(key, rt.employee, flushed));
    Decided(cfg, Stable(cfg, rt, now), rt.pending, news, first, waits, flushed);
  }

  lemma FlushedRows(cfg: Config, s: State, key: string, now: int, u: State) returns (flushed: seq<Pending>)
    requires key in s.runtimes && u == FlushIfReady(cfg, s, key, now)
    ensures var v, rt := ViewOf(s, key), s.runtimes[key];
      && OnlyKey(s, u, key)
      && (if cfg.enablePending && rt.pending != [] && Stable(cfg, rt, now)
          then multiset(flushed) == multiset(rt.pending) && SortedTimes(flushed) else flushed == [])
      && ViewOf(u, key) == v.(rows := v.rows + PendingRows(key, rt.employee, flushed),
                              rt := Some(rt.(pending := if cfg.enablePending && rt.pending != [] && Stable(cfg, rt, now)
                                                        then [] else rt.pending)))
  {
    var v, rt := ViewOf(s, key), s.runtimes[key];
    FlushIfReadyView(cfg, s, key, now);
    SortIsSorted(rt.pending);
    flushed := if cfg.enablePending && rt.pending != [] && Stable(cfg, rt, now) then Sort(EarlierPending, rt.pending)
               else [];
    assert v.rows + [] == v.rows && rt.(pending := rt.pending) == rt;
  }

  lemma JoinRows(a: seq<EventRow>, b: seq<EventRow>, c: seq<EventRow>)
    ensures a + b + c == a + (b + c) && a + [] == a
  {
  }

  lemma OfferedRows(cfg: Config, seen: State, key: string, news: seq<Pending>, now: int, offered: State,
                    first: seq<Pending>)
    requires key in seen.runtimes && |news| <= 1
    requires offered == if news != [] then Offer(cfg, seen, key, news[0], now) else seen
    requires var rt := seen.runtimes[key];
      first == if !cfg.enablePending || (news != [] && ShouldCommitEvent(news[0].strength, Stable(cfg, rt, now)))
               then news else []
    ensures var v, rt := ViewOf(seen, key), seen.runtimes[key];
      && OnlyKey(seen, offered, key) && key in offered.runtimes
      && offered.runtimes[key] == rt.(pending := if |first| == |news| then rt.pending else rt.pending + news)
      && ViewOf(offered, key) == v.(rt := Some(offered.runtimes[key]),
                                    rows := v.rows + PendingRows(key, rt.employee, first))
  {
    if news == [] {
      NothingOffered(seen, key);
    } else {
      assert news == [news[0]];
      OneRow(key, seen.runtimes[key].employee, news[0]);
      OfferView(cfg, seen, key, news[0], now);
      OfferIs(cfg, seen, key, news[0], now, offered);
    }
  }

  lemma NothingOffered(seen: State, key: string)
    requires key in seen.runtimes
    ensures var v, rt := ViewOf(seen, key), seen.runtimes[key];
      && rt.(pending := rt.pending) == rt
      && v == v.(rt := Some(rt), rows := v.rows + PendingRows(key, rt.employee, []))
  {
    var v := ViewOf(seen, key);
    assert v.rows + [] == v.rows;
  }

  lemma OfferIs(cfg: Config, seen: State, key: string, pe: Pending, now: int, offered: State)
    requires key in seen.runtimes && offered == Offer(cfg, seen, key, pe, now)
    ensures var rt := seen.runtimes[key];
      key in offered.runtimes && offered.runtimes[key] ==
        rt.(pending := if !cfg.enablePending || ShouldCommitEvent(pe.strength, Stable(cfg, rt, now)) then rt.pending
                       else rt.pending + [pe])
  {
    assert seen.runtimes[key].(pending := seen.runtimes[key].pending) == seen.runtimes[key];
  }

  lemma Decided(cfg: Config, stable: bool, waiting: seq<Pending>, news: seq<Pending>, first: seq<Pending>,
                waits: seq<Pending>, flushed: seq<Pending>)
    requires |news| <= 1
    requires first == if !cfg.enablePending || (news != [] && ShouldCommitEvent(news[0].strength, stable)) then news
                      else []
    requires waits == if |first| == |news| then waiting else waiting + news
    requires if cfg.enablePending && waits != [] && stable
             then multiset(flushed) == multiset(waits) && SortedTimes(flushed) else flushed == []
    ensures Decides(cfg, stable, waiting, news, first + flushed,
                    if cfg.enablePending && waits != [] && stable then [] else waits)
  {
    assert first + [] == first && [] + flushed == flushed && waiting + [] == waiting;
  }

  /** The door logic of one sighting. */
  lemma DoorLogicDecides(cfg: Config, a: State, key: string, o: Observation, u: State)
    returns (news: seq<Pending>, written: seq<Pending>)
    requires key in a.runtimes && u == DoorLogic(cfg, a, key, o)
    ensures var v, w, rt := ViewOf(a, key), ViewOf(u, key), a.runtimes[key];
      && w.rt.Some? && SightedAs(cfg, rt, w.rt.value, o.ts, o.zone) && w.log == v.log + [o]
      && w.rows == v.rows + PendingRows(key, rt.employee, written) && w.rt.value.employee == rt.employee
      && ArePendingOf(news, Optional(Observe(cfg.engine, rt.door, o).1))
      && Decides(cfg, Stable(cfg, w.rt.value, o.ts), rt.pending, news, written, w.rt.value.pending)
  {
    var rt, event := a.runtimes[key], Observe(cfg.engine, a.runtimes[key].door, o).1;
    var seen := See(cfg, a, key, o);
    SeeView(cfg, a, key, o);
    news := if event.Some? then [ToPending(event.value)] else [];
    NewIsPending(cfg, rt.door, o, news);
    var offered := if event.Some? then Offer(cfg, seen, key, ToPending(event.value), o.ts) else seen;
    written := OfferedAndFlushed(cfg, seen, key, news, o.ts, offered, u);
    StillSighted(cfg, rt, Sighted(cfg, rt, o), ViewOf(u, key).rt.value, o);
  }

  lemma NewIsPending(cfg: Config, door: DoorState, o: Observation, news: seq<Pending>)
    requires var e := Observe(cfg.engine, door, o).1; news == if e.Some? then [ToPending(e.value)] else []
    ensures ArePendingOf(news, Optional(Observe(cfg.engine, door, o).1))
  {
  }

  lemma StillSighted(cfg: Config, before: Runtime, seen: Runtime, after: Runtime, o: Observation)
    requires seen == Sighted(cfg, before, o) && after == seen.(pending := after.pending)
    ensures SightedAs(cfg, before, after, o.ts, o.zone) && Stable(cfg, after, o.ts) == Stable(cfg, seen, o.ts)
    ensures after.employee == before.employee && seen.pending == before.pending && seen.employee == before.employee
  {
  }

  // --------------------------------------------------------------- the identity

  /** A lock names every row of the track that was not named; a probe without one names none. */
  lemma IdentifyRows(cfg: Config, u: State, key: string, now: int, d: Detection, event: bool, t: State)
    requires Sound(cfg, now, u) && key in u.runtimes && t == Identify(cfg, u, key, now, d, event)
    requires key in t.runtimes
    ensures var v, w := ViewOf(u, key), ViewOf(t, key);
      && (exists rt :: w == v.(rt := Some(rt), rows := w.rows))
      && RowsGrow(key, w.rt.value.employee, v.rows, [], w.rows)
    ensures SameButIdentity(u.runtimes[key], t.runtimes[key])
  {
    LiveHere(cfg, now, u, key);
    NamedAlready(cfg, now, key, ViewOf(u, key));
    RowsHaveKey(u.table + u.buffer, key);
    var c := Store(u, key, ProbeCounted(u.runtimes[key], now));
    IdentifyIs(cfg, u, key, now, d, event, c, t);
    if ProbeDue(cfg, u.runtimes[key], now, d, event) {
      StoreView(u, key, ProbeCounted(u.runtimes[key], now));
      if d.lock.Some? {
        LockRows(cfg, c, key, now, d.lock.value, ProbeMayContinue(cfg, d), t);
        ClaimedGrow(key, d.lock.value.employee, ViewOf(u, key).rows);
      }
    }
  }

  predicate SameButIdentity(x: Runtime, y: Runtime) {
    y == x.(employee := y.employee, confidence := y.confidence, probes := y.probes, lastProbe := y.lastProbe)
  }

  lemma NamedAlready(cfg: Config, now: int, key: string, v: View)
    requires LiveInv(cfg, now, v)
    ensures SameEmployee(v.rows, v.rt.value.employee)
    ensures RowsGrow(key, v.rt.value.employee, v.rows, [], v.rows)
  {
    forall i | 0 <= i < |v.rows| ensures v.rows[i] == v.rows[i].(employee := v.rt.value.employee) {
      assert v.rows[i].employee == v.rt.value.employee;
    }
  }

  lemma ClaimedGrow(key: string, e: Employee, rows: seq<EventRow>)
    requires SameEmployee(rows, None) && forall i :: 0 <= i < |rows| ==> rows[i].key == key
    ensures RowsGrow(key, Some(e), rows, [], Claimed(rows, key, e))
  {
    ClaimedAre(rows, key, e);
  }

  lemma LockRows(cfg: Config, c: State, key: string, now: int, lock: Lock, continuing: bool, t: State)
    requires key in c.runtimes && t == LockIdentity(cfg, c, key, now, lock, continuing) && key in t.runtimes
    ensures var v := ViewOf(c, key);
      ViewOf(t, key) == v.(rt := Some(Named(c.runtimes[key], lock)), rows := Claimed(v.rows, key, lock.employee))
  {
    var stored := Store(c, key, Named(c.runtimes[key], lock));
    StoreView(c, key, Named(c.runtimes[key], lock));
    FlushView(stored);
    BackfillView(Flush(stored), key, lock.employee);
    var n := NameRows(c, key, lock);
    if continuing { MergeLeaves(cfg, n, key, now, t); }
  }

  lemma MergeLeaves(cfg: Config, n: State, key: string, now: int, t: State)
    requires key in n.runtimes && t == MergeHeld(cfg, n, key, now)
    ensures ViewOf(t, key) == ViewOf(n, key)
  {
    var found := Continued(cfg, n, n.order, key, now);
    if !(found == [] || (cfg.requireUnique && |found| != 1)) {
      MergeAwayView(n, LatestHeld(n, found), now);
    }
  }

  // --------------------------------------------------------------- the counters

  lemma OfferCounts(cfg: Config, s: State, key: string, pe: Pending, now: int, t: State)
    requires key in s.runtimes && t == Offer(cfg, s, key, pe, now)
    ensures key in t.runtimes && |t.runtimes[key].pending| >= |s.runtimes[key].pending|
    ensures t.counts == s.counts.(
              enqueued := s.counts.enqueued + |t.runtimes[key].pending| - |s.runtimes[key].pending|)
    ensures |t.runtimes[key].pending| > |s.runtimes[key].pending| ==>
              cfg.enablePending && !Stable(cfg, t.runtimes[key], now)
  {
  }

  lemma FlushCounts(cfg: Config, s: State, key: string, now: int, t: State)
    requires key in s.runtimes && t == FlushIfReady(cfg, s, key, now)
    ensures key in t.runtimes && |t.runtimes[key].pending| <= |s.runtimes[key].pending|
    ensures t.counts == s.counts.(
              flushed := s.counts.flushed + |s.runtimes[key].pending| - |t.runtimes[key].pending|)
    ensures cfg.enablePending && !Stable(cfg, s.runtimes[key], now) ==> t == s
  {
    SortMultiset(EarlierPending, s.runtimes[key].pending);
  }

  lemma DoorLogicCounts(cfg: Config, a: State, key: string, o: Observation, u: State)
    requires key in a.runtimes && u == DoorLogic(cfg, a, key, o)
    ensures key in u.runtimes
    ensures CountsMove(a.counts, u.counts, |a.runtimes[key].pending|, |u.runtimes[key].pending|,
                       cfg.enableExit && a.runtimes[key].hold.Some?, false)
  {
    var event, seen := Observe(cfg.engine, a.runtimes[key].door, o).1, See(cfg, a, key, o);
    assert seen.runtimes[key].pending == a.runtimes[key].pending;
    if event.Some? {
      var offered := Offer(cfg, seen, key, ToPending(event.value), o.ts);
      OfferCounts(cfg, seen, key, ToPending(event.value), o.ts, offered);
      FlushCounts(cfg, offered, key, o.ts, u);
    } else {
      FlushCounts(cfg, seen, key, o.ts, u);
    }
  }

  /** A merge is counted, and it is the only thing of an identity that is. */
  lemma IdentifyCounts(cfg: Config, u: State, key: string, now: int, d: Detection, event: bool, t: State)
    requires Sound(cfg, now, u) && key in u.runtimes && t == Identify(cfg, u, key, now, d, event)
    ensures t.counts == u.counts.(canceled := u.counts.canceled + if t.merged != u.merged then 1 else 0)
  {
    var c := Store(u, key, ProbeCounted(u.runtimes[key], now));
    IdentifyIs(cfg, u, key, now, d, event, c, t);
    if ProbeDue(cfg, u.runtimes[key], now, d, event) && d.lock.Some? {
      LockCounts(cfg, u, c, key, now, d.lock.value, ProbeMayContinue(cfg, d), t);
    }
  }

  lemma NameKeeps(c: State, key: string, lock: Lock, n: State)
    requires key in c.runtimes && n == NameRows(c, key, lock)
    ensures n.counts == c.counts && n.merged == c.merged && n.runtimes.Keys == c.runtimes.Keys && key in n.runtimes
  {
  }

  lemma LockCounts(cfg: Config, u: State, c: State, key: string, now: int, lock: Lock, continuing: bool, t: State)
    requires Sound(cfg, now, u) && key in c.runtimes && t == LockIdentity(cfg, c, key, now, lock, continuing)
    requires c.counts == u.counts && c.merged == u.merged && c.runtimes.Keys == u.runtimes.Keys
    ensures t.counts == u.counts.(canceled := u.counts.canceled + if t.merged != u.merged then 1 else 0)
  {
    var n := NameRows(c, key, lock);
    NameKeeps(c, key, lock, n);
    if continuing { MergeCounts(cfg, u, n, key, now, t); }
  }

  lemma MergeCounts(cfg: Config, u: State, n: State, key: string, now: int, t: State)
    requires Sound(cfg, now, u) && key in n.runtimes && t == MergeHeld(cfg, n, key, now)
    requires n.counts == u.counts && n.merged == u.merged && n.runtimes.Keys == u.runtimes.Keys
    ensures t.counts == u.counts.(canceled := u.counts.canceled + if t.merged != u.merged then 1 else 0)
  {
    var found := Continued(cfg, n, n.order, key, now);
    if !(found == [] || (cfg.requireUnique && |found| != 1)) {
      var held := LatestHeld(n, found);
      assert held in n.runtimes.Keys;
      NotMerged(cfg, now, u, held);
    }
  }

  lemma NotMerged(cfg: Config, now: int, u: State, held: string)
    requires Sound(cfg, now, u) && held in u.runtimes
    ensures held !in u.merged
  {
    LiveHere(cfg, now, u, held);
    LiveIsNotMerged(cfg, now, ViewOf(u, held));
  }

  lemma LiveIsNotMerged(cfg: Config, now: int, v: View)
    requires LiveInv(cfg, now, v)
    ensures !v.merged
  {
  }

  // ---------------------------------------------------------------- one detection

  /** Enough sightings, or a long enough time since the first. */
  predicate StableBy(cfg: Config, log: seq<Observation>) {
    log != [] && (|log| >= cfg.minHits || log[|log| - 1].ts - log[0].ts >= cfg.minAge)
  }

  /** What a sighting does with its own track. */
  ghost predicate Sights(cfg: Config, s: State, t: State, key: string, now: int, d: Detection,
                         es: seq<DoorEvent>, news: seq<Pending>, written: seq<Pending>) {
    var before, log := Earlier(s, key), LogOf(t, key);
    && key in t.runtimes
    && log == LogOf(s, key) + [Observation(now, d.zone, d.side, d.inGate)]
    && Emitted(cfg.engine, log) == Emitted(cfg.engine, LogOf(s, key)) + es && ArePendingOf(news, es)
    && SightedAs(cfg, before, t.runtimes[key], now, d.zone)
    && Decides(cfg, StableBy(cfg, log), before.pending, news, written, t.runtimes[key].pending)
    && RowsGrow(key, t.runtimes[key].employee, RowsOf(s.table + s.buffer, key), written,
                RowsOf(t.table + t.buffer, key))
  }

  lemma AdmitKeepsView(cfg: Config, s: State, now: int, raw: int, a: State, key: string)
    requires Sound(cfg, now, s) && a == Admit(s, raw) && key == KeyOf(s, raw)
    ensures key in a.runtimes && a.runtimes[key] == Earlier(s, key) && Sightable(cfg, now, ViewOf(a, key))
    ensures ViewOf(a, key).rows == ViewOf(s, key).rows && LogOf(a, key) == LogOf(s, key) && a.counts == s.counts
  {
    AdmitView(s, raw);
    AdmittedIsSightable(cfg, s, now, raw);
  }

  lemma StableByLog(cfg: Config, now: int, v: View)
    requires LiveInv(cfg, now, v)
    ensures Stable(cfg, v.rt.value, v.log[|v.log| - 1].ts) == StableBy(cfg, v.log)
  {
  }

  lemma SightedRows(a: seq<EventRow>, u: seq<EventRow>, t: seq<EventRow>, key: string, before: Option<Employee>,
                    employee: Option<Employee>, written: seq<Pending>)
    requires u == a + PendingRows(key, before, written) && RowsGrow(key, employee, u, [], t)
    ensures RowsGrow(key, employee, a, written, t)
  {
    PendingRowsAre(key, before, written);
    forall i | 0 <= i < |written|
      ensures var pe := written[i];
        t[|a| + i] == EventRow(key, pe.ts, pe.kind, pe.inferred, pe.confidence, pe.reason, Plain, employee)
    {
      assert u[|a| + i] == PendingRow(key, before, written[i]);
    }
    forall i | 0 <= i < |a| ensures t[i] == a[i].(employee := employee) {
      assert u[i] == a[i];
    }
  }

  /** Before the identity: what the door logic has done with the track. */
  ghost predicate DoorSights(cfg: Config, s: State, u: State, key: string, now: int, d: Detection,
                             es: seq<DoorEvent>, news: seq<Pending>, written: seq<Pending>) {
    var before, log := Earlier(s, key), LogOf(u, key);
    && key in u.runtimes && u.merged == s.merged
    && log == LogOf(s, key) + [Observation(now, d.zone, d.side, d.inGate)]
    && Emitted(cfg.engine, log) == Emitted(cfg.engine, LogOf(s, key)) + es && ArePendingOf(news, es)
    && SightedAs(cfg, before, u.runtimes[key], now, d.zone)
    && Decides(cfg, StableBy(cfg, log), before.pending, news, written, u.runtimes[key].pending)
    && ViewOf(u, key).rows == ViewOf(s, key).rows + PendingRows(key, before.employee, written)
    && CountsMove(s.counts, u.counts, |before.pending|, |u.runtimes[key].pending|, cfg.enableExit && before.hold.Some?,
                  false)
  }

  lemma DoorLogicSights(cfg: Config, s: State, now: int, d: Detection, key: string, a: State, u: State)
    returns (es: seq<DoorEvent>, news: seq<Pending>, written: seq<Pending>)
    requires Sound(cfg, now, s) && Observable(cfg.engine, ObservationOf(now, d)) && key == KeyOf(s, d.raw)
    requires a == Admit(s, d.raw) && key in a.runtimes && u == DoorLogic(cfg, a, key, ObservationOf(now, d))
    ensures Sound(cfg, now, u) && es == Optional(Observe(cfg.engine, a.runtimes[key].door, ObservationOf(now, d)).1)
    ensures DoorSights(cfg, s, u, key, now, d, es, news, written)
  {
    var o := ObservationOf(now, d);
    AdmitKeepsView(cfg, s, now, d.raw, a, key);
    es := Optional(Observe(cfg.engine, a.runtimes[key].door, o).1);
    news, written := DoorLogicDecides(cfg, a, key, o, u);
    DoorLogicCounts(cfg, a, key, o, u);
    DoorLogicShows(cfg, a, key, o, u);
    SightingIsSound(cfg, s, now, d);
    LiveHere(cfg, now, u, key);
    StableByLog(cfg, now, ViewOf(u, key));
    RunStep(cfg.engine, LogOf(s, key), o);
    DoorOfLog(cfg, now, ViewOf(a, key));
  }

  lemma IdentifiedSights(cfg: Config, s: State, u: State, t: State, key: string, now: int, d: Detection,
                         es: seq<DoorEvent>, news: seq<Pending>, written: seq<Pending>)
    requires DoorSights(cfg, s, u, key, now, d, es, news, written) && key in t.runtimes
    requires SameButIdentity(u.runtimes[key], t.runtimes[key]) && LogOf(t, key) == LogOf(u, key)
    requires RowsGrow(key, t.runtimes[key].employee, ViewOf(u, key).rows, [], ViewOf(t, key).rows)
    requires t.counts == u.counts.(canceled := u.counts.canceled + if t.merged != u.merged then 1 else 0)
    ensures Sights(cfg, s, t, key, now, d, es, news, written)
    ensures CountsMove(s.counts, t.counts, |Earlier(s, key).pending|, |t.runtimes[key].pending|,
                       cfg.enableExit && Earlier(s, key).hold.Some?, t.merged != s.merged)
  {
    SightedRows(ViewOf(s, key).rows, ViewOf(u, key).rows, ViewOf(t, key).rows, key, Earlier(s, key).employee,
                t.runtimes[key].employee, written);
  }

  lemma DetectSights(cfg: Config, s: State, now: int, d: Detection, t: State, key: string)
    returns (es: seq<DoorEvent>, news: seq<Pending>, written: seq<Pending>)
    requires Sound(cfg, now, s) && Observable(cfg.engine, ObservationOf(now, d)) && t == Detect(cfg, s, now, d)
    requires key == KeyOf(s, d.raw) && key in t.runtimes
    ensures Sights(cfg, s, t, key, now, d, es, news, written)
    ensures CountsMove(s.counts, t.counts, |Earlier(s, key).pending|, |t.runtimes[key].pending|,
                       cfg.enableExit && Earlier(s, key).hold.Some?, t.merged != s.merged)
  {
    var a, o := Admit(s, d.raw), ObservationOf(now, d);
    AdmitView(s, d.raw);
    var event, u := Observe(cfg.engine, a.runtimes[key].door, o).1.Some?, DoorLogic(cfg, a, key, o);
    es, news, written := DoorLogicSights(cfg, s, now, d, key, a, u);
    IdentifyRows(cfg, u, key, now, d, event, t);
    IdentifyCounts(cfg, u, key, now, d, event, t);
    IdentifiedSights(cfg, s, u, t, key, now, d, es, news, written);
  }

  // ---------------------------------------------------------- all other tracks

  /** A held track whose place another takes: its summary is written, without an exit, and what
      was pending goes with it. */
  ghost predicate TakenAway(key: string, v: View, w: View) {
    && v.rt.Some? && v.log != []
    && exists ls :: LostWith(key, v.rt.value.pending, ls)
         && w == v.(rt := None, retired := true, merged := true, lost := v.lost + ls,
                    tracks := v.tracks + [SummaryOf(key, v.log, v.rt.value)])
  }

  ghost predicate LostWith(key: string, pes: seq<Pending>, ls: seq<Loss>) {
    |ls| == |pes| && forall i :: 0 <= i < |pes| ==> ls[i] == Loss(key, pes[i], MergedAway)
  }

  ghost predicate Leaves(s: State, t: State, key: string, gone: Option<string>) {
    forall k :: k != key ==>
      if gone == Some(k) then TakenAway(k, ViewOf(s, k), ViewOf(t, k)) else ViewOf(t, k) == ViewOf(s, k)
  }

  lemma MergeAwayTakes(cfg: Config, before: int, u: State, n: State, held: string, now: int)
    requires Sound(cfg, before, u) && held in u.runtimes && held in n.runtimes && ViewOf(n, held) == ViewOf(u, held)
    ensures var t := MergeAway(n, held, now); OnlyKey(n, t, held) && TakenAway(held, ViewOf(u, held), ViewOf(t, held))
  {
    LiveHere(cfg, before, u, held);
    LiveFacts(cfg, before, ViewOf(u, held));
    MergeAwayView(n, held, now);
    LossesAre(held, n.runtimes[held].pending, MergedAway);
  }

  lemma MergeHeldLeaves(cfg: Config, now: int, u: State, n: State, key: string, t: State, gone: Option<string>)
    requires Sound(cfg, now, u) && key in n.runtimes && OnlyKey(u, n, key) && n.merged == u.merged
    requires t == MergeHeld(cfg, n, key, now) && t.merged == u.merged + if gone.Some? then {gone.value} else {}
    requires gone.Some? ==> gone.value !in u.merged
    ensures Leaves(u, t, key, gone)
  {
    var found := Continued(cfg, n, n.order, key, now);
    if !(found == [] || (cfg.requireUnique && |found| != 1)) {
      var held := LatestHeld(n, found);
      assert ViewOf(n, held) == ViewOf(u, held) && held in u.runtimes;
      NotMerged(cfg, now, u, held);
      assert held in t.merged;
      MergeAwayTakes(cfg, now, u, n, held, now);
      assert gone == Some(held);
    } else {
      if gone.Some? { assert false; }
    }
  }

  lemma IdentifyLeaves(cfg: Config, u: State, key: string, now: int, d: Detection, event: bool, t: State,
                       gone: Option<string>)
    requires Sound(cfg, now, u) && key in u.runtimes && t == Identify(cfg, u, key, now, d, event)
    requires t.merged == u.merged + if gone.Some? then {gone.value} else {}
    requires gone.Some? ==> gone.value !in u.merged
    ensures Leaves(u, t, key, gone)
  {
    var c := Store(u, key, ProbeCounted(u.runtimes[key], now));
    IdentifyIs(cfg, u, key, now, d, event, c, t);
    StoreView(u, key, ProbeCounted(u.runtimes[key], now));
    if ProbeDue(cfg, u.runtimes[key], now, d, event) && d.lock.Some? {
      var n := NameRows(c, key, d.lock.value);
      NameKeeps(c, key, d.lock.value, n);
      NameLeaves(u, c, key, d.lock.value, n);
      if ProbeMayContinue(cfg, d) {
        MergeHeldLeaves(cfg, now, u, n, key, t, gone);
      } else {
        NobodyGone(u, t, key, gone);
      }
    } else {
      NobodyGone(u, t, key, gone);
    }
  }

  lemma NobodyGone(u: State, t: State, key: string, gone: Option<string>)
    requires OnlyKey(u, t, key) && t.merged == u.merged
    requires t.merged == u.merged + if gone.Some? then {gone.value} else {}
    requires gone.Some? ==> gone.value !in u.merged
    ensures Leaves(u, t, key, gone)
  {
    if gone.Some? { assert false; }
  }

  lemma NameLeaves(u: State, c: State, key: string, lock: Lock, n: State)
    requires key in c.runtimes && OnlyKey(u, c, key) && n == NameRows(c, key, lock)
    ensures OnlyKey(u, n, key)
  {
    var stored := Store(c, key, Named(c.runtimes[key], lock));
    StoreView(c, key, Named(c.runtimes[key], lock));
    FlushView(stored);
    BackfillView(Flush(stored), key, lock.employee);
  }

  lemma DetectLeaves(cfg: Config, s: State, now: int, d: Detection, t: State, key: string, gone: Option<string>)
    requires Sound(cfg, now, s) && Observable(cfg.engine, ObservationOf(now, d)) && t == Detect(cfg, s, now, d)
    requires key == KeyOf(s, d.raw) && OnlyTouches(s, t, key, gone) && (gone.Some? ==> gone.value in s.runtimes)
    ensures Leaves(s, t, key, gone)
  {
    var a, o := Admit(s, d.raw), ObservationOf(now, d);
    AdmitView(s, d.raw);
    AdmittedIsSightable(cfg, s, now, d.raw);
    var event, u := Observe(cfg.engine, a.runtimes[key].door, o).1.Some?, DoorLogic(cfg, a, key, o);
    DoorLogicShows(cfg, a, key, o, u);
    DoorLogicKeeps(cfg, a, key, now, o);
    SightingIsSound(cfg, s, now, d);
    OnlyKeyTrans(s, a, u, key);
    if gone.Some? { NotMerged(cfg, now, s, gone.value); }
    IdentifyLeaves(cfg, u, key, now, d, event, t, gone);
    LeavesThen(s, u, t, key, gone);
  }

  lemma LeavesThen(s: State, u: State, t: State, key: string, gone: Option<string>)
    requires OnlyKey(s, u, key) && Leaves(u, t, key, gone)
    ensures Leaves(s, t, key, gone)
  {
    forall k | k != key
      ensures if gone == Some(k) then TakenAway(k, ViewOf(s, k), ViewOf(t, k)) else ViewOf(t, k) == ViewOf(s, k)
    {
      assert ViewOf(u, k) == ViewOf(s, k);
    }
  }

  /** All of one detection: its own track, all others, and the counters. */
  ghost predicate Shows(cfg: Config, s: State, t: State, now: int, d: Detection, key: string, gone: Option<string>,
                        es: seq<DoorEvent>, news: seq<Pending>, written: seq<Pending>) {
    && d.raw in t.active && t.active[d.raw] == key
    && (if d.raw in s.active then key == s.active[d.raw] else key !in s.runtimes && key !in s.used)
    && Sights(cfg, s, t, key, now, d, es, news, written)
    && Leaves(s, t, key, gone) && (gone.Some? <==> t.merged != s.merged)
    && CountsMove(s.counts, t.counts, |Earlier(s, key).pending|, |t.runtimes[key].pending|,
                  cfg.enableExit && Earlier(s, key).hold.Some?, gone.Some?)
  }

  lemma DetectionShows(cfg: Config, s: State, now: int, d: Detection, t: State)
    returns (key: string, gone: Option<string>, es: seq<DoorEvent>, news: seq<Pending>, written: seq<Pending>)
    requires Sound(cfg, now, s) && Observable(cfg.engine, ObservationOf(now, d)) && t == Detect(cfg, s, now, d)
    ensures Shows(cfg, s, t, now, d, key, gone, es, news, written)
  {
    key, gone := DetectShows(cfg, s, now, d, t);
    es, news, written := DetectSights(cfg, s, now, d, t, key);
    GoneWasLive(cfg, s, key, now, d, gone, |Emitted(cfg.engine, LogOf(t, key))| > |Emitted(cfg.engine, LogOf(s, key))|);
    if gone.Some? { NotMerged(cfg, now, s, gone.value); }
    DetectLeaves(cfg, s, now, d, t, key, gone);
    KeyOfSighting(cfg, now, s, d.raw, key);
  }

  /** A tracker id that is live keeps its key, and any other one gets a key of its own. */
  lemma KeyOfSighting(cfg: Config, now: int, s: State, raw: int, key: string)
    requires Sound(cfg, now, s) && key == KeyOf(s, raw)
    ensures if raw in s.active then key == s.active[raw] else key !in s.runtimes && key !in s.used
  {
    if raw !in s.active { FirstCandidateAccepted(s, raw); }
  }

  lemma GoneWasLive(cfg: Config, s: State, key: string, now: int, d: Detection, gone: Option<string>, event: bool)
    requires TakesBest(cfg, s, key, Earlier(s, key), now, d, event, gone)
    ensures gone.Some? ==> gone.value in s.runtimes
  {
  }

  /** Every sighting of every run, after any frames and any detections before it in its own frame.
      Its track grows by the observation; the events that the engine emits for it are written,
      or wait, as the two-phase commit wants it; the rows of the track name its employee; and
      the counters tell what happened. Every other track stays, but the one whose place it takes. */
  lemma EverySightingShows(cfg: Config, frames: seq<Frame>, j: nat)
    returns (key: string, gone: Option<string>, es: seq<DoorEvent>, news: seq<Pending>, written: seq<Pending>)
    requires LegalFrames(cfg, frames) && frames != [] && j < |frames[|frames| - 1].detections|
    ensures var f := frames[|frames| - 1]; var d := f.detections[j];
      var s, t := WithinLast(cfg, frames, j), WithinLast(cfg, frames, j + 1);
      Shows(cfg, s, t, f.ts, d, key, gone, es, news, written)
  {
    var f := frames[|frames| - 1];
    WithinNext(cfg, frames, j);
    key, gone, es, news, written :=
      DetectionShows(cfg, WithinLast(cfg, frames, j), f.ts, f.detections[j], WithinLast(cfg, frames, j + 1));
  }
}
