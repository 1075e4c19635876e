/** The invariant of one track key, from its first sighting to its summary row,
    and its preservation by every step on that key. */
module PipelineKeyInvariant {
  import opened Wrappers
  import opened StableSort
  import opened DoorEngine
  import opened Reliability
  import opened PipelineSpec
  import opened PipelineViews

  // ----------------------------------------------------------- the accounting

  /** The door event that a row records. */
  function Item(row: EventRow): (r: Pending) {
    Pending(row.kind, row.ts, row.inferred, row.confidence, ClassifyStrength(row.reason), row.reason)
  }

  /** The rows that record observed door events, as events. */
  ghost function DoorItems(rows: seq<EventRow>): (r: multiset<Pending>) {
    if rows == [] then multiset{}
    else DoorItems(rows[..|rows| - 1]) +
         if rows[|rows| - 1].reason == TrackEndedInside then multiset{} else multiset{Item(rows[|rows| - 1])}
  }

  /** The rows that record the inferred end of a track. */
  ghost function EndRows(rows: seq<EventRow>): (r: seq<EventRow>) {
    if rows == [] then []
    else EndRows(rows[..|rows| - 1]) +
         if rows[|rows| - 1].reason == TrackEndedInside then [rows[|rows| - 1]] else []
  }

  ghost function LostItems(ls: seq<Loss>): (r: multiset<Pending>) {
    if ls == [] then multiset{} else LostItems(ls[..|ls| - 1]) + multiset{ls[|ls| - 1].event}
  }

  /** The events the door engine emitted for a key. */
  ghost function Offered(es: seq<DoorEvent>): (r: multiset<Pending>) {
    if es == [] then multiset{} else Offered(es[..|es| - 1]) + multiset{ToPending(es[|es| - 1])}
  }

  lemma {:induction false} ItemsConcat(a: seq<EventRow>, b: seq<EventRow>)
    ensures DoorItems(a + b) == DoorItems(a) + DoorItems(b) && EndRows(a + b) == EndRows(a) + EndRows(b)
  {
    if b == [] {
      assert a + b == a;
    } else {
      assert (a + b)[..|a + b| - 1] == a + b[..|b| - 1];
      ItemsConcat(a, b[..|b| - 1]);
    }
  }

  lemma {:induction false} LostConcat(a: seq<Loss>, b: seq<Loss>)
    ensures LostItems(a + b) == LostItems(a) + LostItems(b)
  {
    if b == [] {
      assert a + b == a;
    } else {
      assert (a + b)[..|a + b| - 1] == a + b[..|b| - 1];
      LostConcat(a, b[..|b| - 1]);
    }
  }

  lemma ItemsAppend(rows: seq<EventRow>, row: EventRow)
    ensures DoorItems(rows + [row]) ==
            DoorItems(rows) + if row.reason == TrackEndedInside then multiset{} else multiset{Item(row)}
    ensures EndRows(rows + [row]) == EndRows(rows) + if row.reason == TrackEndedInside then [row] else []
  {
    assert (rows + [row])[..|rows + [row]| - 1] == rows;
  }

  lemma LostAppend(ls: seq<Loss>, l: Loss)
    ensures LostItems(ls + [l]) == LostItems(ls) + multiset{l.event}
  {
    assert (ls + [l])[..|ls + [l]| - 1] == ls;
  }

  lemma OfferedStep(es: seq<DoorEvent>, e: Option<DoorEvent>)
    ensures Offered(es + Optional(e)) == Offered(es) + if e.Some? then multiset{ToPending(e.value)} else multiset{}
  {
    if e.Some? {
      assert (es + [e.value])[..|es + [e.value]| - 1] == es;
    } else {
      assert es + [] == es;
    }
  }

  /** A pending event as the pipeline makes them: from a sighting, with its own strength. */
  ghost predicate Proper(pe: Pending) {
    pe.strength == ClassifyStrength(pe.reason) && pe.reason != TrackEndedInside
  }

  ghost predicate AllProper(pes: seq<Pending>) {
    forall pe :: pe in pes ==> Proper(pe)
  }

  lemma {:induction false} PendingRowItems(key: string, employee: Option<Employee>, pes: seq<Pending>)
    requires AllProper(pes)
    ensures DoorItems(PendingRows(key, employee, pes)) == multiset(pes)
    ensures EndRows(PendingRows(key, employee, pes)) == []
  {
    if pes == [] {
    } else {
      var front, last := pes[..|pes| - 1], pes[|pes| - 1];
      PendingRowItems(key, employee, front);
      MultisetAppend(pes);
      assert last in pes;
      ItemsAppend(PendingRows(key, employee, front), PendingRow(key, employee, last));
      assert Item(PendingRow(key, employee, last)) == last;
    }
  }

  lemma {:induction false} LossesItems(key: string, pes: seq<Pending>, why: LossReason)
    ensures LostItems(Losses(key, pes, why)) == multiset(pes)
  {
    if pes == [] {
    } else {
      var front, last := pes[..|pes| - 1], pes[|pes| - 1];
      LossesItems(key, front, why);
      LostAppend(Losses(key, front, why), Loss(key, last, why));
      assert pes == front + [last];
    }
  }

  /** On an unstable end, the strong events are committed and all others are lost. */
  lemma {:induction false} EndSplit(key: string, pes: seq<Pending>)
    ensures multiset(Strongs(pes)) + LostItems(EndLosses(key, pes)) == multiset(pes)
    ensures forall l :: l in EndLosses(key, pes) ==> l.event.strength != Strong && l.why != MergedAway
  {
    if pes == [] {
    } else {
      var front, last := pes[..|pes| - 1], pes[|pes| - 1];
      EndSplit(key, front);
      MultisetAppend(pes);
      EndSplitStep(key, front, last, pes);
    }
  }

  lemma EndSplitStep(key: string, front: seq<Pending>, last: Pending, pes: seq<Pending>)
    requires pes != [] && pes[..|pes| - 1] == front && pes[|pes| - 1] == last
    ensures multiset(Strongs(pes)) + LostItems(EndLosses(key, pes)) ==
            multiset(Strongs(front)) + LostItems(EndLosses(key, front)) + multiset{last}
    ensures forall l :: l in EndLosses(key, pes) ==>
              l in EndLosses(key, front) || (l.event.strength != Strong && l.why != MergedAway)
  {
    var strongs, losses := Strongs(front), EndLosses(key, front);
    if last.strength == Strong && !ShouldDropOnEnd(last) {
      assert Strongs(pes) == strongs + [last] && EndLosses(key, pes) == losses + [] == losses;
    } else {
      var l := Loss(key, last, if ShouldDropOnEnd(last) then Dropped else Discarded);
      assert Strongs(pes) == strongs + [] == strongs && EndLosses(key, pes) == losses + [l];
      LostAppend(losses, l);
    }
  }

  lemma {:induction false} NoStrongs(pes: seq<Pending>)
    requires forall pe :: pe in pes ==> pe.strength != Strong
    ensures Strongs(pes) == []
  {
    if pes == [] {
    } else {
      assert pes[|pes| - 1] in pes;
      NoStrongs(pes[..|pes| - 1]);
    }
  }

  // ------------------------------------------------------------ the invariant

  ghost predicate SameEmployee(rows: seq<EventRow>, employee: Option<Employee>) {
    forall i :: 0 <= i < |rows| ==> rows[i].employee == employee
  }

  ghost predicate LogOk(cfg: Config, log: seq<Observation>, now: int) {
    log != [] && TimeOrdered(log) && AllObservable(cfg.engine, log) && log[|log| - 1].ts <= now
  }

  ghost predicate Tentative(pes: seq<Pending>) {
    forall pe :: pe in pes ==> Proper(pe) && pe.strength != Strong
  }

  /** Anything still pending belongs to a track that is not stable at its own
      last sighting, and is not strong evidence. */
  ghost predicate PendingOk(cfg: Config, rt: Runtime) {
    && Tentative(rt.pending)
    && (rt.pending != [] ==> cfg.enablePending && rt.lastTs.Some? && !Stable(cfg, rt, rt.lastTs.value))
  }

  /** A held track keeps the very exit that its door state infers, and has been
      missing for longer than the time to live when its grace starts. */
  ghost predicate HoldOk(cfg: Config, rt: Runtime, now: int) {
    rt.hold.Some? ==>
      var h, end := rt.hold.value, Finalize(rt.door, cfg.inferExit);
      && cfg.enableExit && end.Some? && rt.lastTs.Some?
      && h.exitTs == Some(end.value.ts) && h.confidence == Some(end.value.confidence)
      && h.reason == Some(TrackEndedInside)
      && h.started.Some? && h.started.value - rt.lastTs.value > cfg.ttl && h.started.value <= now
  }

  ghost predicate TracksLog(cfg: Config, rt: Runtime, log: seq<Observation>) {
    && log != []
    && rt.door == StateAfter(cfg.engine, log) && rt.hits == |log|
    && rt.firstTs == Some(log[0].ts) && rt.lastTs == Some(log[|log| - 1].ts)
  }

  /** Every event the engine emitted is a row, pending, or lost: once each, unchanged. */
  ghost predicate Balanced(cfg: Config, v: View, pending: seq<Pending>) {
    AddsUp(v, pending, Offered(Emitted(cfg.engine, v.log)))
  }

  ghost predicate AddsUp(v: View, pending: seq<Pending>, offered: multiset<Pending>) {
    DoorItems(v.rows) + multiset(pending) + LostItems(v.lost) == offered
  }

  /** What holds from the first sighting until the summary row is written. */
  ghost predicate Base(cfg: Config, now: int, v: View) {
    && v.rt.Some? && !v.retired && !v.merged && v.tracks == []
    && LogOk(cfg, v.log, now) && TracksLog(cfg, v.rt.value, v.log)
    && SameEmployee(v.rows, v.rt.value.employee) && EndRows(v.rows) == []
  }

  ghost predicate LiveInv(cfg: Config, now: int, v: View) {
    && Base(cfg, now, v) && v.lost == []
    && PendingOk(cfg, v.rt.value) && HoldOk(cfg, v.rt.value, now)
    && Balanced(cfg, v, v.rt.value.pending)
  }

  /** `Base` does not depend on what is pending or held. */
  lemma BaseSame(cfg: Config, now: int, v: View, w: View)
    requires Base(cfg, now, v)
    requires w.rt.Some? && w == v.(rt := w.rt, rows := w.rows, lost := w.lost)
    requires var a, b := v.rt.value, w.rt.value;
      b.door == a.door && b.hits == a.hits && b.firstTs == a.firstTs && b.lastTs == a.lastTs
    requires SameEmployee(w.rows, w.rt.value.employee) && EndRows(w.rows) == []
    ensures Base(cfg, now, w)
  {
  }

  /** The end rows of a finished key: the exit its observations infer, unless it was merged away. */
  ghost predicate EndsRight(cfg: Config, v: View) {
    EndsAs(v.merged, EndRows(v.rows), Finalize(StateAfter(cfg.engine, v.log), cfg.inferExit))
  }

  ghost predicate EndsAs(merged: bool, rows: seq<EventRow>, end: Option<DoorEvent>) {
    if merged || end.None? then rows == []
    else |rows| == 1 && rows[0].ts == end.value.ts && rows[0].kind == Exit && rows[0].inferred
  }

  ghost predicate LostOk(v: View) {
    forall l :: l in v.lost ==> l.event.strength != Strong && (l.why == MergedAway <==> v.merged)
  }

  ghost predicate DoneInv(cfg: Config, now: int, v: View) {
    && v.rt.None? && v.retired
    && LogOk(cfg, v.log, now)
    && |v.tracks| == 1 && v.tracks[0].firstTs == v.log[0].ts && v.tracks[0].lastTs == v.log[|v.log| - 1].ts
    && SameEmployee(v.rows, v.tracks[0].employee)
    && EndsRight(cfg, v) && LostOk(v)
    && Balanced(cfg, v, [])
  }

  const UNSEEN := View(None, false, false, [], [], [], [])

  ghost predicate KeyInv(cfg: Config, now: int, v: View) {
    v == UNSEEN || LiveInv(cfg, now, v) || DoneInv(cfg, now, v)
  }

  /** Time passing breaks nothing. */
  lemma KeyInvLater(cfg: Config, now: int, later: int, v: View)
    requires KeyInv(cfg, now, v) && now <= later
    ensures KeyInv(cfg, later, v)
  {
  }

  // ------------------------------------------------------- a sighting keeps it

  /** A live key, or one admitted a moment ago and not yet observed. */
  ghost predicate Sightable(cfg: Config, now: int, v: View) {
    LiveInv(cfg, now, v) || v == UNSEEN.(rt := Some(FRESH_RUNTIME))
  }

  /** No sighting is ever reported as the end of a track. */
  lemma ObserveIsProper(cfg: EngineConfig, s: DoorState, o: Observation)
    ensures var e := Observe(cfg, s, o).1; e.Some? ==> Proper(ToPending(e.value))
  {
  }

  /** Right after the sighting: everything holds but the accounting of its event
      and the stability of what is pending. */
  ghost predicate SeenInv(cfg: Config, now: int, v: View, e: Option<DoorEvent>) {
    && Base(cfg, now, v) && v.lost == []
    && v.rt.value.lastTs == Some(now) && v.rt.value.hold == None
    && Tentative(v.rt.value.pending) && (v.rt.value.pending != [] ==> cfg.enablePending)
    && Owing(cfg, v, v.rt.value.pending, e)
  }

  /** The balance, short of one event. */
  ghost predicate Owing(cfg: Config, v: View, pending: seq<Pending>, e: Option<DoorEvent>) {
    DoorItems(v.rows) + multiset(pending) + (if e.Some? then multiset{ToPending(e.value)} else multiset{})
    == Offered(Emitted(cfg.engine, v.log))
  }

  lemma SeeBase(cfg: Config, now: int, v: View, o: Observation)
    requires Sightable(cfg, now, v) && now <= o.ts && Observable(cfg.engine, o)
    ensures Base(cfg, o.ts, v.(rt := Some(Sighted(cfg, v.rt.value, o)), log := v.log + [o]))
  {
    RunStep(cfg.engine, v.log, o);
    SeenLogOk(cfg, now, v.log, o);
    assert (v.log + [o])[|v.log|] == o;
    assert v.log == [] ==> StateAfter(cfg.engine, v.log) == FRESH;
  }

  lemma SeeOwes(cfg: Config, now: int, v: View, log: seq<Observation>, e: Option<DoorEvent>)
    requires Sightable(cfg, now, v)
    requires Emitted(cfg.engine, log) == Emitted(cfg.engine, v.log) + Optional(e)
    ensures Owing(cfg, v.(log := log), v.rt.value.pending, e)
  {
    OfferedStep(Emitted(cfg.engine, v.log), e);
    assert LostItems([]) == multiset{};
    assert v.log == [] ==> Emitted(cfg.engine, v.log) == [];
  }

  lemma SeeKeeps(cfg: Config, now: int, v: View, o: Observation)
    requires Sightable(cfg, now, v) && now <= o.ts && Observable(cfg.engine, o)
    ensures var rt := v.rt.value;
      SeenInv(cfg, o.ts, v.(rt := Some(Sighted(cfg, rt, o)), log := v.log + [o]), Observe(cfg.engine, rt.door, o).1)
  {
    SeeBase(cfg, now, v, o);
    SightedDoor(cfg, now, v);
    RunStep(cfg.engine, v.log, o);
    SeeOwes(cfg, now, v, v.log + [o], Observe(cfg.engine, v.rt.value.door, o).1);
  }

  lemma SightedDoor(cfg: Config, now: int, v: View)
    requires Sightable(cfg, now, v)
    ensures v.rt.value.door == StateAfter(cfg.engine, v.log)
  {
  }

  lemma SeenLogOk(cfg: Config, now: int, log: seq<Observation>, o: Observation)
    requires log == [] || LogOk(cfg, log, now)
    requires now <= o.ts && Observable(cfg.engine, o)
    ensures LogOk(cfg, log + [o], o.ts)
  {
  }

  /** The view after rows for `pes` have been committed. */
  lemma CommitBase(cfg: Config, now: int, key: string, v: View, rt: Runtime, pes: seq<Pending>)
    requires Base(cfg, now, v) && AllProper(pes) && rt == v.rt.value.(pending := rt.pending)
    ensures var rows := v.rows + PendingRows(key, rt.employee, pes);
      && Base(cfg, now, v.(rt := Some(rt), rows := rows))
      && DoorItems(rows) == DoorItems(v.rows) + multiset(pes)
  {
    PendingRowItems(key, rt.employee, pes);
    PendingRowsAre(key, rt.employee, pes);
    ItemsConcat(v.rows, PendingRows(key, rt.employee, pes));
    BaseSame(cfg, now, v, v.(rt := Some(rt), rows := v.rows + PendingRows(key, rt.employee, pes)));
  }

  lemma OfferKeeps(cfg: Config, now: int, key: string, v: View, e: DoorEvent)
    requires SeenInv(cfg, now, v, Some(e)) && Proper(ToPending(e))
    ensures var rt, pe := v.rt.value, ToPending(e);
      SeenInv(cfg, now,
        if !cfg.enablePending || ShouldCommitEvent(pe.strength, Stable(cfg, rt, now))
        then v.(rows := v.rows + [PendingRow(key, rt.employee, pe)])
        else v.(rt := Some(rt.(pending := rt.pending + [pe]))), None)
  {
    var rt, pe := v.rt.value, ToPending(e);
    if !cfg.enablePending || ShouldCommitEvent(pe.strength, Stable(cfg, rt, now)) {
      CommitSeen(cfg, now, key, v, e);
    } else {
      KeepPending(cfg, now, v, e);
    }
  }

  lemma CommitSeen(cfg: Config, now: int, key: string, v: View, e: DoorEvent)
    requires SeenInv(cfg, now, v, Some(e)) && Proper(ToPending(e))
    ensures SeenInv(cfg, now, v.(rows := v.rows + [PendingRow(key, v.rt.value.employee, ToPending(e))]), None)
  {
    var rt := v.rt.value;
    OneRow(key, rt.employee, ToPending(e));
    assert v.(rt := Some(rt)) == v;
    CommitBase(cfg, now, key, v, rt, [ToPending(e)]);
    Paid(cfg, v, v.rows + [PendingRow(key, rt.employee, ToPending(e))], rt.pending, e);
  }

  lemma Paid(cfg: Config, v: View, rows: seq<EventRow>, pending: seq<Pending>, e: DoorEvent)
    requires Owing(cfg, v, pending, Some(e)) && DoorItems(rows) == DoorItems(v.rows) + multiset([ToPending(e)])
    ensures Owing(cfg, v.(rows := rows), pending, None)
  {
  }

  lemma OneRow(key: string, employee: Option<Employee>, pe: Pending)
    ensures PendingRows(key, employee, [pe]) == [PendingRow(key, employee, pe)]
  {
    assert [pe][..0] == [];
  }

  lemma KeepPending(cfg: Config, now: int, v: View, e: DoorEvent)
    requires SeenInv(cfg, now, v, Some(e)) && Proper(ToPending(e)) && cfg.enablePending
    requires ToPending(e).strength != Strong
    ensures var rt := v.rt.value; SeenInv(cfg, now, v.(rt := Some(rt.(pending := rt.pending + [ToPending(e)]))), None)
  {
    var rt, pe := v.rt.value, ToPending(e);
    BaseSame(cfg, now, v, v.(rt := Some(rt.(pending := rt.pending + [pe]))));
    MultisetAppend(rt.pending + [pe]);
    assert (rt.pending + [pe])[..|rt.pending|] == rt.pending;
  }

  lemma FlushKeeps(cfg: Config, now: int, key: string, v: View)
    requires SeenInv(cfg, now, v, None)
    ensures var rt := v.rt.value;
      LiveInv(cfg, now,
        if !cfg.enablePending || rt.pending == [] || !Stable(cfg, rt, now) then v
        else v.(rt := Some(rt.(pending := [])),
                rows := v.rows + PendingRows(key, rt.employee, Sort(EarlierPending, rt.pending))))
  {
    var rt := v.rt.value;
    assert LostItems([]) == multiset{};
    if cfg.enablePending && rt.pending != [] && Stable(cfg, rt, now) {
      SortMultiset(EarlierPending, rt.pending);
      SortElems(EarlierPending, rt.pending);
      FlushedKeeps(cfg, now, key, v, Sort(EarlierPending, rt.pending));
    }
  }

  /** All pending events committed, in any order. */
  lemma FlushedKeeps(cfg: Config, now: int, key: string, v: View, pes: seq<Pending>)
    requires SeenInv(cfg, now, v, None) && multiset(pes) == multiset(v.rt.value.pending)
    requires forall pe :: pe in pes ==> pe in v.rt.value.pending
    ensures var rt := v.rt.value;
      LiveInv(cfg, now, v.(rt := Some(rt.(pending := [])), rows := v.rows + PendingRows(key, rt.employee, pes)))
  {
    assert LostItems([]) == multiset{};
    CommitBase(cfg, now, key, v, v.rt.value.(pending := []), pes);
  }

  /** What follows the sighting: the event is committed or kept, and the track flushed if stable. */
  lemma AfterSightKeeps(cfg: Config, seen: State, key: string, now: int, event: Option<DoorEvent>)
    requires key in seen.runtimes && SeenInv(cfg, now, ViewOf(seen, key), event)
    requires event.Some? ==> Proper(ToPending(event.value))
    ensures var offered := if event.Some? then Offer(cfg, seen, key, ToPending(event.value), now) else seen;
      var t := FlushIfReady(cfg, offered, key, now);
      LiveInv(cfg, now, ViewOf(t, key)) && OnlyKey(seen, t, key)
  {
    var offered := seen;
    if event.Some? {
      offered := Offer(cfg, seen, key, ToPending(event.value), now);
      OfferView(cfg, seen, key, ToPending(event.value), now);
      OfferKeeps(cfg, now, key, ViewOf(seen, key), event.value);
    }
    FlushIfReadyView(cfg, offered, key, now);
    FlushKeeps(cfg, now, key, ViewOf(offered, key));
    OnlyKeyTrans(seen, offered, FlushIfReady(cfg, offered, key, now), key);
  }

  /** The door logic of one detection. */
  lemma DoorLogicKeeps(cfg: Config, s: State, key: string, now: int, o: Observation)
    requires key in s.runtimes && Sightable(cfg, now, ViewOf(s, key))
    requires now <= o.ts && Observable(cfg.engine, o)
    ensures LiveInv(cfg, o.ts, ViewOf(DoorLogic(cfg, s, key, o), key))
    ensures OnlyKey(s, DoorLogic(cfg, s, key, o), key)
  {
    var event := Observe(cfg.engine, s.runtimes[key].door, o).1;
    var seen := See(cfg, s, key, o);
    SeeView(cfg, s, key, o);
    SeeKeeps(cfg, now, ViewOf(s, key), o);
    ObserveIsProper(cfg.engine, s.runtimes[key].door, o);
    AfterSightKeeps(cfg, seen, key, o.ts, event);
    OnlyKeyTrans(s, seen, DoorLogic(cfg, s, key, o), key);
  }

  // ------------------------------------------------------- an identity keeps it

  lemma ClaimOne(row: EventRow, key: string, e: Employee)
    ensures DoorItems([Claim(row, key, e)]) == DoorItems([row])
    ensures EndRows([row]) == [] ==> EndRows([Claim(row, key, e)]) == []
  {
    var c := Claim(row, key, e);
    assert [] + [row] == [row] && [] + [c] == [c];
    ItemsAppend([], row);
    ItemsAppend([], c);
  }

  lemma {:induction false} ClaimedItems(rows: seq<EventRow>, key: string, e: Employee)
    ensures DoorItems(Claimed(rows, key, e)) == DoorItems(rows)
    ensures EndRows(rows) == [] ==> EndRows(Claimed(rows, key, e)) == []
  {
    if rows == [] {
    } else {
      ClaimedItems(rows[1..], key, e);
      ItemsConcat([rows[0]], rows[1..]);
      ItemsConcat([Claim(rows[0], key, e)], Claimed(rows[1..], key, e));
      assert rows == [rows[0]] + rows[1..];
      ClaimOne(rows[0], key, e);
    }
  }

  lemma {:induction false} ClaimedAll(rows: seq<EventRow>, key: string, e: Employee)
    requires SameEmployee(rows, None) && forall i :: 0 <= i < |rows| ==> rows[i].key == key
    ensures SameEmployee(Claimed(rows, key, e), Some(e))
  {
    if rows == [] {
    } else {
      ClaimedAll(rows[1..], key, e);
    }
  }

  lemma {:induction false} RowsHaveKey(rows: seq<EventRow>, key: string)
    ensures forall i :: 0 <= i < |RowsOf(rows, key)| ==> RowsOf(rows, key)[i].key == key
  {
    if rows == [] {
    } else {
      RowsHaveKey(rows[..|rows| - 1], key);
    }
  }

  /** A lock back-fills every earlier row of its key, the ones of the same frame
      included: they are flushed first. */
  lemma LockKeeps(cfg: Config, s: State, key: string, now: int, rt: Runtime, e: Employee)
    requires key in s.runtimes && LiveInv(cfg, now, ViewOf(s, key))
    requires s.runtimes[key].employee == None && rt.employee == Some(e)
    requires rt == s.runtimes[key].(employee := rt.employee, confidence := rt.confidence, probes := rt.probes,
                                    lastProbe := rt.lastProbe)
    ensures var t := Backfill(Flush(Store(s, key, rt)), key, e);
      LiveInv(cfg, now, ViewOf(t, key)) && OnlyKey(s, t, key)
  {
    var a := Store(s, key, rt);
    StoreView(s, key, rt);
    FlushView(a);
    BackfillView(Flush(a), key, e);
    OnlyKeyTrans(s, a, Flush(a), key);
    OnlyKeyTrans(s, Flush(a), Backfill(Flush(a), key, e), key);
    RowsHaveKey(s.table + s.buffer, key);
    LockedView(cfg, key, now, ViewOf(s, key), rt, e);
  }

  lemma LockedView(cfg: Config, key: string, now: int, v: View, rt: Runtime, e: Employee)
    requires LiveInv(cfg, now, v) && v.rt.value.employee == None && rt.employee == Some(e)
    requires rt == v.rt.value.(employee := rt.employee, confidence := rt.confidence, probes := rt.probes,
                               lastProbe := rt.lastProbe)
    requires forall i :: 0 <= i < |v.rows| ==> v.rows[i].key == key
    ensures LiveInv(cfg, now, v.(rt := Some(rt), rows := Claimed(v.rows, key, e)))
  {
    ClaimedAll(v.rows, key, e);
    ClaimedItems(v.rows, key, e);
    BaseSame(cfg, now, v, v.(rt := Some(rt), rows := Claimed(v.rows, key, e)));
  }

  /** A probe without a lock only counts. */
  lemma ProbeKeeps(cfg: Config, s: State, key: string, now: int, rt: Runtime)
    requires key in s.runtimes && LiveInv(cfg, now, ViewOf(s, key))
    requires rt == s.runtimes[key].(probes := rt.probes, lastProbe := rt.lastProbe)
    ensures LiveInv(cfg, now, ViewOf(Store(s, key, rt), key)) && OnlyKey(s, Store(s, key, rt), key)
  {
    StoreView(s, key, rt);
    ProbedView(cfg, now, ViewOf(s, key), rt);
  }

  lemma ProbedView(cfg: Config, now: int, v: View, rt: Runtime)
    requires LiveInv(cfg, now, v) && rt == v.rt.value.(probes := rt.probes, lastProbe := rt.lastProbe)
    ensures LiveInv(cfg, now, v.(rt := Some(rt)))
  {
    BaseSame(cfg, now, v, v.(rt := Some(rt)));
  }

  /** A merge ends the held key without an exit row; nothing strong is lost with it. */
  lemma MergeAwayKeeps(cfg: Config, s: State, key: string, now: int)
    requires key in s.runtimes && LiveInv(cfg, now, ViewOf(s, key))
    ensures DoneInv(cfg, now, ViewOf(MergeAway(s, key, now), key)) && OnlyKey(s, MergeAway(s, key, now), key)
  {
    MergeAwayView(s, key, now);
    MergedView(cfg, key, now, ViewOf(s, key));
  }

  /** What is left to check when the summary row has been written. */
  lemma DoneFrom(cfg: Config, now: int, key: string, v: View, w: View)
    requires Base(cfg, now, v)
    requires w == v.(rt := None, retired := true, merged := w.merged, rows := w.rows, lost := w.lost,
                     tracks := v.tracks + [TrackRowOf(key, v.rt.value, now)])
    requires SameEmployee(w.rows, v.rt.value.employee) && EndsRight(cfg, w) && LostOk(w) && Balanced(cfg, w, [])
    ensures DoneInv(cfg, now, w)
  {
  }

  lemma MergedView(cfg: Config, key: string, now: int, v: View)
    requires LiveInv(cfg, now, v)
    ensures var rt := v.rt.value;
      DoneInv(cfg, now, v.(rt := None, retired := true, merged := true,
                           tracks := v.tracks + [TrackRowOf(key, rt, now)],
                           lost := v.lost + Losses(key, rt.pending, MergedAway)))
  {
    var rt := v.rt.value;
    var w := v.(rt := None, retired := true, merged := true,
                tracks := v.tracks + [TrackRowOf(key, rt, now)],
                lost := v.lost + Losses(key, rt.pending, MergedAway));
    MergedLosses(key, v, w, Offered(Emitted(cfg.engine, v.log)));
    DoneFrom(cfg, now, key, v, w);
  }

  lemma MergedLosses(key: string, v: View, w: View, offered: multiset<Pending>)
    requires v.rt.Some? && v.lost == [] && Tentative(v.rt.value.pending) && AddsUp(v, v.rt.value.pending, offered)
    requires w.rows == v.rows && w.log == v.log && w.merged
    requires w.lost == [] + Losses(key, v.rt.value.pending, MergedAway)
    ensures LostOk(w) && AddsUp(w, [], offered)
  {
    var pes := v.rt.value.pending;
    LossesItems(key, pes, MergedAway);
    LossesAre(key, pes, MergedAway);
    assert w.lost == Losses(key, pes, MergedAway);
    assert LostItems([]) == multiset{};
    forall l | l in w.lost ensures l.event.strength != Strong && l.why == MergedAway {
      var i :| 0 <= i < |w.lost| && w.lost[i] == l;
      assert l.event == pes[i] && pes[i] in pes;
    }
  }

  // ------------------------------------------------------------ an end keeps it

  /** A track whose pending events are settled: what is left is to end it or hold it. */
  ghost predicate SettledInv(cfg: Config, now: int, v: View) {
    Base(cfg, now, v) && LostOk(v) && Balanced(cfg, v, [])
  }

  /** At the end of a track the commits of a stable end and of strong events never
      happen: everything pending is lost, and none of it is strong. */
  lemma EndCommitsNeverFire(cfg: Config, now: int, v: View)
    requires LiveInv(cfg, now, v) && v.rt.value.pending != []
    ensures !Stable(cfg, v.rt.value, v.rt.value.lastTs.GetOr(now)) && Strongs(v.rt.value.pending) == []
  {
    NoStrongs(v.rt.value.pending);
  }

  lemma SettleKeeps(cfg: Config, s: State, key: string, now: int)
    requires key in s.runtimes && LiveInv(cfg, now, ViewOf(s, key))
    ensures SettledInv(cfg, now, ViewOf(SettlePending(cfg, s, key, now), key))
    ensures OnlyKey(s, SettlePending(cfg, s, key, now), key)
  {
    var v, rt := ViewOf(s, key), s.runtimes[key];
    SettlePendingView(cfg, s, key, now);
    if rt.pending != [] {
      EndCommitsNeverFire(cfg, now, v);
      SettledView(cfg, key, now, v);
    }
  }

  lemma SettledView(cfg: Config, key: string, now: int, v: View)
    requires LiveInv(cfg, now, v)
    ensures var rt := v.rt.value;
      SettledInv(cfg, now, v.(rt := Some(rt.(pending := [])),
                              rows := v.rows + PendingRows(key, rt.employee, Strongs(rt.pending)),
                              lost := v.lost + EndLosses(key, rt.pending)))
  {
    var rt := v.rt.value;
    NoStrongs(rt.pending);
    assert v.rows + [] == v.rows;
    var w := v.(rt := Some(rt.(pending := [])), lost := v.lost + EndLosses(key, rt.pending));
    BaseSame(cfg, now, v, w);
    SettledLosses(key, v, w, Offered(Emitted(cfg.engine, v.log)));
  }

  lemma SettledLosses(key: string, v: View, w: View, offered: multiset<Pending>)
    requires v.rt.Some? && v.lost == [] && Tentative(v.rt.value.pending) && AddsUp(v, v.rt.value.pending, offered)
    requires w.rows == v.rows && w.log == v.log && !w.merged
    requires w.lost == [] + EndLosses(key, v.rt.value.pending)
    ensures LostOk(w) && AddsUp(w, [], offered)
  {
    var pes := v.rt.value.pending;
    assert w.lost == EndLosses(key, pes);
    NoStrongs(pes);
    EndSplit(key, pes);
    assert multiset(Strongs(pes)) == multiset{};
    assert LostItems(w.lost) == multiset(pes) && LostItems(v.lost) == multiset{};
  }

  /** The row of an inferred end, whichever way it is written. */
  ghost predicate IsEndRow(end: DoorEvent, employee: Option<Employee>, row: EventRow) {
    && row.ts == end.ts && row.kind == Exit && row.inferred
    && row.reason == TrackEndedInside && row.employee == employee
  }

  ghost predicate AreEndRows(end: Option<DoorEvent>, employee: Option<Employee>, rows: seq<EventRow>) {
    if end.None? then rows == [] else |rows| == 1 && IsEndRow(end.value, employee, rows[0])
  }

  lemma EndedInv(cfg: Config, now: int, key: string, v: View, rows: seq<EventRow>)
    requires SettledInv(cfg, now, v)
    requires AreEndRows(Finalize(StateAfter(cfg.engine, v.log), cfg.inferExit), v.rt.value.employee, rows)
    ensures DoneInv(cfg, now, v.(rt := None, retired := true, rows := v.rows + rows,
                                 tracks := v.tracks + [TrackRowOf(key, v.rt.value, now)]))
  {
    var w := v.(rt := None, retired := true, rows := v.rows + rows,
                tracks := v.tracks + [TrackRowOf(key, v.rt.value, now)]);
    EndedRows(v, w, rows, Finalize(StateAfter(cfg.engine, v.log), cfg.inferExit), Offered(Emitted(cfg.engine, v.log)));
    DoneFrom(cfg, now, key, v, w);
  }

  lemma EndedRows(v: View, w: View, rows: seq<EventRow>, end: Option<DoorEvent>, offered: multiset<Pending>)
    requires EndRows(v.rows) == [] && v.rt.Some? && SameEmployee(v.rows, v.rt.value.employee) && AddsUp(v, [], offered)
    requires w.rows == v.rows + rows && w.log == v.log && w.lost == v.lost && !w.merged
    requires AreEndRows(end, v.rt.value.employee, rows)
    ensures EndsAs(w.merged, EndRows(w.rows), end) && AddsUp(w, [], offered)
    ensures SameEmployee(w.rows, v.rt.value.employee)
  {
    if rows == [] {
      assert v.rows + rows == v.rows;
    } else {
      assert rows == [rows[0]];
      ItemsAppend(v.rows, rows[0]);
    }
  }

  lemma EndNowKeeps(cfg: Config, s: State, key: string, now: int)
    requires key in s.runtimes && SettledInv(cfg, now, ViewOf(s, key))
    ensures var t := EndNow(s, key, Finalize(s.runtimes[key].door, cfg.inferExit), now);
      DoneInv(cfg, now, ViewOf(t, key)) && OnlyKey(s, t, key)
  {
    var end := Finalize(s.runtimes[key].door, cfg.inferExit);
    EndNowView(s, key, end, now);
    EndedInv(cfg, now, key, ViewOf(s, key), if end.Some? then [EndRow(key, s.runtimes[key], end.value)] else []);
  }

  lemma ReleaseHeldKeeps(cfg: Config, s: State, key: string, now: int, mark: Mark)
    requires key in s.runtimes && LiveInv(cfg, now, ViewOf(s, key)) && s.runtimes[key].hold.Some?
    ensures var t := ReleaseHeld(cfg, s, key, s.runtimes[key].hold.value, now, mark);
      DoneInv(cfg, now, ViewOf(t, key)) && OnlyKey(s, t, key)
  {
    var hold, p := s.runtimes[key].hold.value, SettlePending(cfg, s, key, now);
    SettleKeeps(cfg, s, key, now);
    ReleaseHeldView(cfg, s, key, hold, now, mark);
    EndedInv(cfg, now, key, ViewOf(p, key), [HeldExitRow(key, p.runtimes[key], hold, now, mark)]);
  }

  lemma StartHoldKeeps(cfg: Config, now: int, v: View, end: DoorEvent)
    requires LiveInv(cfg, now, v) && cfg.enableExit
    requires Finalize(v.rt.value.door, cfg.inferExit) == Some(end) && end.reason == TrackEndedInside
    requires now - v.rt.value.lastTs.GetOr(now) > cfg.ttl
    ensures LiveInv(cfg, now, v.(rt := Some(v.rt.value.(
      hold := Some(Hold(Some(now), Some(end.ts), Some(end.confidence), Some(end.reason)))))))
  {
    var rt := v.rt.value.(hold := Some(Hold(Some(now), Some(end.ts), Some(end.confidence), Some(end.reason))));
    BaseSame(cfg, now, v, v.(rt := Some(rt)));
  }

  /** One missing track, on one frame: held, still held, or finished. */
  lemma ExpireKeeps(cfg: Config, s: State, key: string, now: int)
    requires key in s.runtimes && LiveInv(cfg, now, ViewOf(s, key))
    requires now - s.runtimes[key].lastTs.GetOr(now) > cfg.ttl
    ensures var t := Expire(cfg, s, key, now);
      OnlyKey(s, t, key) && (LiveInv(cfg, now, ViewOf(t, key)) || DoneInv(cfg, now, ViewOf(t, key)))
  {
    var rt := s.runtimes[key];
    if cfg.enableExit && rt.hold.Some? {
      AwaitGraceKeeps(cfg, s, key, now);
    } else {
      EndOrHoldKeeps(cfg, s, key, now);
    }
  }

  lemma AwaitGraceKeeps(cfg: Config, s: State, key: string, now: int)
    requires key in s.runtimes && LiveInv(cfg, now, ViewOf(s, key)) && s.runtimes[key].hold.Some?
    ensures var t := AwaitGrace(cfg, s, key, now);
      OnlyKey(s, t, key) && (LiveInv(cfg, now, ViewOf(t, key)) || DoneInv(cfg, now, ViewOf(t, key)))
  {
    var rt := s.runtimes[key];
    var started := rt.hold.value.started.GetOr(now);
    assert rt.hold.value.(started := Some(started)) == rt.hold.value;
    assert rt.(hold := Some(rt.hold.value)) == rt;
    StoreView(s, key, rt);
    if ExitGraceExpired(started, now, cfg.grace) {
      ReleaseHeldKeeps(cfg, Store(s, key, rt), key, now, AfterGrace);
      OnlyKeyTrans(s, Store(s, key, rt), AwaitGrace(cfg, s, key, now), key);
    }
  }

  lemma EndOrHoldKeeps(cfg: Config, s: State, key: string, now: int)
    requires key in s.runtimes && LiveInv(cfg, now, ViewOf(s, key)) && !(cfg.enableExit && s.runtimes[key].hold.Some?)
    requires now - s.runtimes[key].lastTs.GetOr(now) > cfg.ttl
    ensures var t := EndOrHold(cfg, s, key, now);
      OnlyKey(s, t, key) && (LiveInv(cfg, now, ViewOf(t, key)) || DoneInv(cfg, now, ViewOf(t, key)))
  {
    var rt, v := s.runtimes[key], ViewOf(s, key);
    var end := Finalize(rt.door, cfg.inferExit);
    if WantsHold(cfg, end) {
      if rt.pending != [] { EndCommitsNeverFire(cfg, now, v); }
      assert rt.pending == [] ==> SettlePending(cfg, s, key, now) == s;
      StartHoldState(cfg, s, key, now, end.value);
    } else {
      var p := SettlePending(cfg, s, key, now);
      SettleKeeps(cfg, s, key, now);
      EndNowKeeps(cfg, p, key, now);
      OnlyKeyTrans(s, p, EndOrHold(cfg, s, key, now), key);
    }
  }

  lemma StartHoldState(cfg: Config, s: State, key: string, now: int, end: DoorEvent)
    requires key in s.runtimes && LiveInv(cfg, now, ViewOf(s, key)) && cfg.enableExit
    requires Finalize(s.runtimes[key].door, cfg.inferExit) == Some(end) && end.reason == TrackEndedInside
    requires now - s.runtimes[key].lastTs.GetOr(now) > cfg.ttl
    ensures var t := StartHold(s, key, end, now); LiveInv(cfg, now, ViewOf(t, key)) && OnlyKey(s, t, key)
  {
    var held := s.runtimes[key].(hold := Some(Hold(Some(now), Some(end.ts), Some(end.confidence), Some(end.reason))));
    StartHoldKeeps(cfg, now, ViewOf(s, key), end);
    StoreView(s, key, held);
    CountView(Store(s, key, held), s.counts.(started := s.counts.started + 1));
    OnlyKeyTrans(s, Store(s, key, held), StartHold(s, key, end, now), key);
  }
}
