/** The rows that runs write at the end of tracks: what the ends of tracks commit, and
    when the exits of held tracks reach the database. */
module PipelineGrace {
  import opened Wrappers
  import opened StableSort
  import opened DoorEngine
  import opened Reliability
  import opened TrackKeys
  import opened PipelineSpec
  import opened PipelineViews
  import opened PipelineKeyInvariant
  import opened PipelineCounts
  import opened PipelineRuns
  import opened PipelineSpacing
  import opened PipelineTheorems

  /** The event rows of the session, flushed or not. */
  function AllRows(s: State): (r: seq<EventRow>) {
    s.table + s.buffer
  }

  // ------------------------------------------- what the end of a track commits

  /** Nothing that was pending is committed, and no row of an observed event is written. */
  ghost predicate CommitsNothing(s: State, t: State) {
    t.counts.flushed == s.counts.flushed && DoorItems(AllRows(t)) == DoorItems(AllRows(s))
  }

  lemma OneMoreRow(s: State, t: State, row: EventRow)
    requires t.table == s.table && t.buffer == s.buffer + [row] && t.counts.flushed == s.counts.flushed
    requires row.reason == TrackEndedInside
    ensures CommitsNothing(s, t) && AllRows(t) == AllRows(s) + [row]
  {
    assert AllRows(t) == AllRows(s) + [row];
    ItemsAppend(AllRows(s), row);
  }

  /** The rows of releasing a hold: the inferred exit, and nothing else. */
  lemma ReleasedRows(cfg: Config, s: State, key: string, now: int, mark: Mark, before: int)
    requires key in s.runtimes && LiveInv(cfg, before, ViewOf(s, key)) && s.runtimes[key].hold.Some?
    ensures var t := ReleaseHeld(cfg, s, key, s.runtimes[key].hold.value, now, mark);
      && CommitsNothing(s, t) && |AllRows(t)| == |AllRows(s)| + 1 && AllRows(t)[..|AllRows(s)|] == AllRows(s)
      && AllRows(t)[|AllRows(s)|].key == key && AllRows(t)[|AllRows(s)|].mark == mark
  {
    var hold := s.runtimes[key].hold.value;
    SettleCommitsNothing(cfg, s, key, before, now);
    HoldReason(cfg, before, ViewOf(s, key));
    var p := SettlePending(cfg, s, key, now);
    OneMoreRow(s, ReleaseHeld(cfg, s, key, hold, now, mark), HeldExitRow(key, p.runtimes[key], hold, now, mark));
  }

  lemma HoldReason(cfg: Config, now: int, v: View)
    requires LiveInv(cfg, now, v) && v.rt.value.hold.Some?
    ensures v.rt.value.hold.value.reason == Some(TrackEndedInside)
  {
  }

  /** The rows of an end without a hold. */
  lemma EndedPlainRows(cfg: Config, s: State, key: string, now: int, before: int)
    requires key in s.runtimes && LiveInv(cfg, before, ViewOf(s, key))
    ensures var end := Finalize(s.runtimes[key].door, cfg.inferExit);
      var t := EndNow(SettlePending(cfg, s, key, now), key, end, now);
      && CommitsNothing(s, t)
      && (if end.None? then AllRows(t) == AllRows(s)
          else && |AllRows(t)| == |AllRows(s)| + 1 && AllRows(t)[..|AllRows(s)|] == AllRows(s)
               && AllRows(t)[|AllRows(s)|].key == key && AllRows(t)[|AllRows(s)|].mark == Plain)
  {
    var end := Finalize(s.runtimes[key].door, cfg.inferExit);
    SettleCommitsNothing(cfg, s, key, before, now);
    var p := SettlePending(cfg, s, key, now);
    if end.Some? {
      OneMoreRow(s, EndNow(p, key, end, now), EndRow(key, p.runtimes[key], end.value));
    }
  }

  lemma AwaitCommitsNothing(cfg: Config, s: State, key: string, now: int)
    requires key in s.runtimes && LiveInv(cfg, now, ViewOf(s, key)) && s.runtimes[key].hold.Some?
    ensures CommitsNothing(s, AwaitGrace(cfg, s, key, now))
  {
    HeldSince(cfg, now, ViewOf(s, key));
    DatingIsIdle(s, key, now);
    ReleasedRows(cfg, s, key, now, AfterGrace, now);
  }

  lemma EndOrHoldCommitsNothing(cfg: Config, s: State, key: string, now: int)
    requires key in s.runtimes && LiveInv(cfg, now, ViewOf(s, key))
    ensures CommitsNothing(s, EndOrHold(cfg, s, key, now))
  {
    EndedPlainRows(cfg, s, key, now, now);
    SettleCommitsNothing(cfg, s, key, now, now);
  }

  lemma ExpireCommitsNothing(cfg: Config, s: State, key: string, now: int)
    requires Sound(cfg, now, s) && key in s.runtimes
    ensures CommitsNothing(s, Expire(cfg, s, key, now))
  {
    LiveHere(cfg, now, s, key);
    if cfg.enableExit && s.runtimes[key].hold.Some? {
      AwaitCommitsNothing(cfg, s, key, now);
    } else {
      EndOrHoldCommitsNothing(cfg, s, key, now);
    }
  }

  lemma ConcludeCommitsNothing(cfg: Config, s: State, key: string, now: int)
    requires Sound(cfg, now, s) && key in s.runtimes
    ensures CommitsNothing(s, Conclude(cfg, s, key, now))
  {
    LiveHere(cfg, now, s, key);
    if s.runtimes[key].hold.Some? {
      ReleasedRows(cfg, s, key, now, AtEndOfVideo, now);
    } else {
      EndedPlainRows(cfg, s, key, now, now);
    }
  }

  lemma {:induction false} ExpireAllCommitsNothing(cfg: Config, s: State, keys: seq<string>, now: int)
    requires Sound(cfg, now, s) && NoDup(keys) && forall k :: k in keys ==> Overdue(cfg, s, k, now)
    ensures CommitsNothing(s, ExpireAll(cfg, s, keys, now))
    decreases keys
  {
    if keys == [] {
    } else {
      assert Overdue(cfg, s, keys[0], now);
      var t := Expire(cfg, s, keys[0], now);
      ExpireCommitsNothing(cfg, s, keys[0], now);
      ExpireIsSound(cfg, s, keys[0], now);
      forall k | k in keys[1..] ensures Overdue(cfg, t, k, now) { OverdueStays(cfg, s, t, keys[0], k, now); }
      ExpireAllCommitsNothing(cfg, t, keys[1..], now);
    }
  }

  lemma {:induction false} ConcludeAllCommitsNothing(cfg: Config, s: State, keys: seq<string>, now: int)
    requires Sound(cfg, now, s) && NoDup(keys) && forall k :: k in keys ==> k in s.runtimes
    ensures CommitsNothing(s, ConcludeAll(cfg, s, keys, now))
    decreases keys
  {
    if keys == [] {
    } else {
      ConcludeCommitsNothing(cfg, s, keys[0], now);
      ConcludeIsSound(cfg, s, keys[0], now);
      ConcludeRemoves(cfg, s, keys, now);
      ConcludeAllCommitsNothing(cfg, Conclude(cfg, s, keys[0], now), keys[1..], now);
    }
  }

  /** Over the last frame of any run: everything pending that it commits, it commits with
      its detections. The ends of tracks after them, whether missing, held or released,
      commit nothing that was pending, and write no row but inferred exits. */
  lemma FrameEndsCommitNothing(cfg: Config, frames: seq<Frame>)
    requires LegalFrames(cfg, frames) && frames != []
    ensures var front, f := frames[..|frames| - 1], frames[|frames| - 1];
      CommitsNothing(DetectAll(cfg, RunFrames(cfg, front), f.ts, f.detections), RunFrames(cfg, frames))
  {
    var s, f := RunFrames(cfg, frames[..|frames| - 1]), frames[|frames| - 1];
    DecodedFront(cfg, frames, false);
    FrameBegins(cfg, frames, false, s);
    EndsOfFrame(cfg, s, f);
  }

  lemma EndsOfFrame(cfg: Config, s: State, f: Frame)
    requires Sound(cfg, f.ts, s)
    requires forall j :: 0 <= j < |f.detections| ==> Observable(cfg.engine, ObservationOf(f.ts, f.detections[j]))
    ensures CommitsNothing(DetectAll(cfg, s, f.ts, f.detections), FrameStep(cfg, s, f))
  {
    DetectAllIsSound(cfg, s, f.ts, f.detections);
    var t := DetectAll(cfg, s, f.ts, f.detections);
    var gone := Missing(cfg, t, t.order, SeenKeys(cfg, s, f.ts, f.detections), f.ts);
    MissingAreOverdue(cfg, t, t.order, SeenKeys(cfg, s, f.ts, f.detections), f.ts);
    ExpireAllCommitsNothing(cfg, t, gone, f.ts);
    var u := ExpireAll(cfg, t, gone, f.ts);
    assert AllRows(Checkpoint(u)) == AllRows(u);
  }

  /** The same for the end of the video. */
  lemma VideoEndCommitsNothing(cfg: Config, frames: seq<Frame>, end: int)
    requires LegalFrames(cfg, frames) && LastTime(frames, end) <= end
    ensures CommitsNothing(RunFrames(cfg, frames), RunToEnd(cfg, frames, end))
  {
    var s := RunFrames(cfg, frames);
    EveryReachableStateIsSound(cfg, frames, end);
    SoundLater(cfg, LastTime(frames, end), end, s);
    ConcludeAllCommitsNothing(cfg, s, s.order, end);
    var u := ConcludeAll(cfg, s, s.order, end);
    assert AllRows(Flush(u)) == AllRows(u);
  }

  // ------------------------------------------------------------------ the grace

  /** The key has ended, and was last seen longer ago than time to live and grace together. */
  ghost predicate LongGone(cfg: Config, now: int, s: State, key: string) {
    var log := LogOf(s, key);
    key !in s.runtimes && key in s.used && log != [] && now - log[|log| - 1].ts > cfg.ttl + cfg.grace
  }

  /** An exit that was held, or would have been, is a row only after its grace. */
  ghost predicate Graced(cfg: Config, now: int, s: State, row: EventRow) {
    && row.mark != AtEndOfVideo
    && (row.mark == AfterGrace || (cfg.enableExit && row.reason == TrackEndedInside) ==>
          row.mark == AfterGrace && LongGone(cfg, now, s, row.key))
  }

  ghost predicate AllGraced(cfg: Config, now: int, s: State) {
    forall i :: 0 <= i < |AllRows(s)| ==> Graced(cfg, now, s, AllRows(s)[i])
  }

  /** A row that is not about a held exit. */
  predicate Ordinary(cfg: Config, row: EventRow) {
    row.mark == Plain && !(cfg.enableExit && row.reason == TrackEndedInside)
  }

  /** The rows of `b` are those of `a`, perhaps with employees, and ordinary ones after them. */
  ghost predicate GrowsFrom(cfg: Config, a: seq<EventRow>, b: seq<EventRow>) {
    && |a| <= |b|
    && (forall i :: 0 <= i < |a| ==> b[i] == a[i].(employee := b[i].employee))
    && (forall i :: |a| <= i < |b| ==> Ordinary(cfg, b[i]))
  }

  lemma LongGoneStays(cfg: Config, now: int, s: State, t: State, key: string, k: string)
    requires OnlyKey(s, t, key) && (key in s.runtimes || key !in s.used) && LongGone(cfg, now, s, k)
    ensures LongGone(cfg, now, t, k)
  {
    assert ViewOf(t, k) == ViewOf(s, k);
    assert ViewOf(s, k).rt == None && ViewOf(s, k).retired;
  }

  /** A step on a key that is not long gone, with ordinary rows only. */
  lemma GracedStep(cfg: Config, now: int, s: State, t: State, key: string)
    requires AllGraced(cfg, now, s) && GrowsFrom(cfg, AllRows(s), AllRows(t))
    requires OnlyKey(s, t, key) && (key in s.runtimes || key !in s.used)
    ensures AllGraced(cfg, now, t)
  {
    var a, b := AllRows(s), AllRows(t);
    forall i | 0 <= i < |b| ensures Graced(cfg, now, t, b[i]) {
      if i < |a| {
        assert Graced(cfg, now, s, a[i]);
        if LongGone(cfg, now, s, a[i].key) { LongGoneStays(cfg, now, s, t, key, a[i].key); }
      } else {
        assert Ordinary(cfg, b[i]);
      }
    }
  }

  lemma {:induction false} PendingRowsOrdinary(cfg: Config, key: string, employee: Option<Employee>, pes: seq<Pending>)
    requires AllProper(pes)
    ensures forall i :: 0 <= i < |PendingRows(key, employee, pes)| ==> Ordinary(cfg, PendingRows(key, employee, pes)[i])
  {
    if pes == [] {
    } else {
      assert pes[|pes| - 1] in pes;
      PendingRowsOrdinary(cfg, key, employee, pes[..|pes| - 1]);
    }
  }

  lemma {:induction false} ClaimedLength(rows: seq<EventRow>, key: string, e: Employee)
    ensures |Claimed(rows, key, e)| == |rows|
  {
    if rows == [] {
    } else {
      ClaimedLength(rows[1..], key, e);
    }
  }

  lemma {:induction false} ClaimedContinue(cfg: Config, rows: seq<EventRow>, key: string, e: Employee)
    ensures GrowsFrom(cfg, rows, Claimed(rows, key, e))
  {
    if rows == [] {
    } else {
      ClaimedContinue(cfg, rows[1..], key, e);
      var b, rest := Claimed(rows, key, e), Claimed(rows[1..], key, e);
      assert b == [Claim(rows[0], key, e)] + rest && rows == [rows[0]] + rows[1..];
      assert |rest| == |rows| - 1 by { ClaimedLength(rows[1..], key, e); }
      forall i | 0 <= i < |rows| ensures b[i] == rows[i].(employee := b[i].employee) {
        if i > 0 { assert b[i] == rest[i - 1] && rows[i] == rows[1..][i - 1]; }
      }
    }
  }

  lemma GrowsTransitive(cfg: Config, a: seq<EventRow>, b: seq<EventRow>, c: seq<EventRow>)
    requires GrowsFrom(cfg, a, b) && GrowsFrom(cfg, b, c)
    ensures GrowsFrom(cfg, a, c)
  {
    forall i | 0 <= i < |c| ensures if i < |a| then c[i] == a[i].(employee := c[i].employee) else Ordinary(cfg, c[i]) {
      if i < |b| {
        assert c[i] == b[i].(employee := c[i].employee);
        assert i < |a| ==> b[i] == a[i].(employee := b[i].employee);
        assert i >= |a| ==> Ordinary(cfg, b[i]);
      } else {
        assert Ordinary(cfg, c[i]);
      }
    }
  }

  lemma GrowsBy(cfg: Config, a: seq<EventRow>, rows: seq<EventRow>)
    requires forall i :: 0 <= i < |rows| ==> Ordinary(cfg, rows[i])
    ensures GrowsFrom(cfg, a, a + rows)
  {
    forall i | |a| <= i < |a + rows| ensures Ordinary(cfg, (a + rows)[i]) {
      assert (a + rows)[i] == rows[i - |a|];
    }
  }

  // The door logic of one detection.

  lemma OfferRows(cfg: Config, s: State, key: string, pe: Pending, now: int)
    requires key in s.runtimes && Proper(pe) && AllProper(s.runtimes[key].pending)
    ensures var t := Offer(cfg, s, key, pe, now);
      GrowsFrom(cfg, AllRows(s), AllRows(t)) && AllProper(t.runtimes[key].pending)
  {
    var t, row := Offer(cfg, s, key, pe, now), PendingRow(key, s.runtimes[key].employee, pe);
    if AllRows(t) != AllRows(s) {
      assert AllRows(t) == AllRows(s) + [row];
      GrowsBy(cfg, AllRows(s), [row]);
    }
  }

  lemma FlushRows(cfg: Config, s: State, key: string, now: int)
    requires key in s.runtimes && AllProper(s.runtimes[key].pending)
    ensures GrowsFrom(cfg, AllRows(s), AllRows(FlushIfReady(cfg, s, key, now)))
  {
    var t, rt := FlushIfReady(cfg, s, key, now), s.runtimes[key];
    var sorted := Sort(EarlierPending, rt.pending);
    SortElems(EarlierPending, rt.pending);
    if AllRows(t) != AllRows(s) {
      var rows := PendingRows(key, rt.employee, sorted);
      assert AllRows(t) == AllRows(s) + rows;
      PendingRowsOrdinary(cfg, key, rt.employee, sorted);
      GrowsBy(cfg, AllRows(s), rows);
    }
  }

  lemma DoorLogicRows(cfg: Config, s: State, key: string, now: int, o: Observation)
    requires key in s.runtimes && Sightable(cfg, now, ViewOf(s, key))
    ensures GrowsFrom(cfg, AllRows(s), AllRows(DoorLogic(cfg, s, key, o)))
  {
    var event := Observe(cfg.engine, s.runtimes[key].door, o).1;
    var seen := See(cfg, s, key, o);
    PendingIsProper(cfg, now, ViewOf(s, key));
    assert seen.runtimes[key].pending == s.runtimes[key].pending;
    if event.Some? {
      ObserveIsProper(cfg.engine, s.runtimes[key].door, o);
      var offered := Offer(cfg, seen, key, ToPending(event.value), o.ts);
      OfferRows(cfg, seen, key, ToPending(event.value), o.ts);
      FlushRows(cfg, offered, key, o.ts);
      GrowsTransitive(cfg, AllRows(s), AllRows(offered), AllRows(DoorLogic(cfg, s, key, o)));
    } else {
      FlushRows(cfg, seen, key, o.ts);
    }
  }

  lemma PendingIsProper(cfg: Config, now: int, v: View)
    requires Sightable(cfg, now, v)
    ensures AllProper(v.rt.value.pending)
  {
  }

  lemma SightingIsGraced(cfg: Config, s: State, now: int, d: Detection)
    requires Sound(cfg, now, s) && Observable(cfg.engine, ObservationOf(now, d)) && AllGraced(cfg, now, s)
    ensures var key, a := KeyOf(s, d.raw), Admit(s, d.raw);
      key in a.runtimes && AllGraced(cfg, now, DoorLogic(cfg, a, key, ObservationOf(now, d)))
  {
    var key, a, o := KeyOf(s, d.raw), Admit(s, d.raw), ObservationOf(now, d);
    var t := DoorLogic(cfg, a, key, o);
    AdmitView(s, d.raw);
    AdmittedIsSightable(cfg, s, now, d.raw);
    DoorLogicKeeps(cfg, a, key, now, o);
    DoorLogicRows(cfg, a, key, now, o);
    assert AllRows(a) == AllRows(s);
    OnlyKeyTrans(s, a, t, key);
    if key !in s.runtimes { FreshIsUnused(cfg, s, now, d.raw); }
    GracedStep(cfg, now, s, t, key);
  }

  lemma FreshIsUnused(cfg: Config, s: State, now: int, raw: int)
    requires Sound(cfg, now, s) && KeyOf(s, raw) !in s.runtimes
    ensures KeyOf(s, raw) !in s.used
  {
    AdmittedStaysOk(s, raw);
  }

  // The face probe.

  lemma SameRowsGraced(cfg: Config, now: int, s: State, t: State, key: string)
    requires AllGraced(cfg, now, s) && AllRows(t) == AllRows(s) && OnlyKey(s, t, key) && key in s.runtimes
    ensures AllGraced(cfg, now, t)
  {
    GracedStep(cfg, now, s, t, key);
  }

  lemma NameRowsGraced(cfg: Config, s: State, key: string, now: int, lock: Lock)
    requires Sound(cfg, now, s) && key in s.runtimes && s.runtimes[key].employee == None && AllGraced(cfg, now, s)
    ensures AllGraced(cfg, now, NameRows(s, key, lock))
  {
    var t := NameRows(s, key, lock);
    LiveHere(cfg, now, s, key);
    LockKeeps(cfg, s, key, now, Named(s.runtimes[key], lock), lock.employee);
    ClaimedContinue(cfg, AllRows(s), key, lock.employee);
    assert AllRows(t) == Claimed(AllRows(s), key, lock.employee) + [];
    GracedStep(cfg, now, s, t, key);
  }

  lemma MergeGraced(cfg: Config, s: State, key: string, now: int)
    requires Sound(cfg, now, s) && key in s.runtimes && AllGraced(cfg, now, s)
    ensures AllGraced(cfg, now, MergeHeld(cfg, s, key, now))
  {
    var found := Continued(cfg, s, s.order, key, now);
    if !(found == [] || (cfg.requireUnique && |found| != 1)) {
      var held := LatestHeld(s, found);
      LiveHere(cfg, now, s, held);
      MergeAwayKeeps(cfg, s, held, now);
      SameRowsGraced(cfg, now, s, MergeAway(s, held, now), held);
    }
  }

  lemma AfterProbeGraced(cfg: Config, s: State, key: string, now: int, d: Detection)
    requires Sound(cfg, now, s) && key in s.runtimes && s.runtimes[key].employee == None && AllGraced(cfg, now, s)
    ensures AllGraced(cfg, now, AfterProbe(cfg, s, key, now, d))
  {
    if d.lock.Some? {
      NameRowsGraced(cfg, s, key, now, d.lock.value);
      LockIsSound(cfg, s, key, now, Named(s.runtimes[key], d.lock.value), d.lock.value.employee);
      if ProbeMayContinue(cfg, d) { MergeGraced(cfg, NameRows(s, key, d.lock.value), key, now); }
    }
  }

  lemma CountedGraced(cfg: Config, s: State, key: string, now: int, rt: Runtime, c: State)
    requires Sound(cfg, now, s) && key in s.runtimes && AllGraced(cfg, now, s)
    requires rt == s.runtimes[key].(probes := rt.probes, lastProbe := rt.lastProbe) && c == Store(s, key, rt)
    ensures Sound(cfg, now, c) && AllGraced(cfg, now, c)
  {
    StoreIsSound(cfg, s, key, now, rt, c);
    StoreView(s, key, rt);
    SameRowsGraced(cfg, now, s, c, key);
  }

  lemma IdentifyGraced(cfg: Config, s: State, key: string, now: int, d: Detection, hadEvent: bool, t: State)
    requires Sound(cfg, now, s) && key in s.runtimes && t == Identify(cfg, s, key, now, d, hadEvent)
    requires AllGraced(cfg, now, s)
    ensures AllGraced(cfg, now, t)
  {
    if Probes(cfg, s.runtimes[key], now, d, hadEvent) {
      var rt := ProbeCounted(s.runtimes[key], now);
      var c := Store(s, key, rt);
      CountedGraced(cfg, s, key, now, rt, c);
      AfterProbeGraced(cfg, c, key, now, d);
    }
  }

  lemma DetectGraced(cfg: Config, s: State, now: int, d: Detection, t: State)
    requires Sound(cfg, now, s) && Observable(cfg.engine, ObservationOf(now, d)) && AllGraced(cfg, now, s)
    requires t == Detect(cfg, s, now, d)
    ensures AllGraced(cfg, now, t)
  {
    var key, a, o := KeyOf(s, d.raw), Admit(s, d.raw), ObservationOf(now, d);
    SightingIsSound(cfg, s, now, d);
    SightingIsGraced(cfg, s, now, d);
    IdentifyGraced(cfg, DoorLogic(cfg, a, key, o), key, now, d,
                   Observe(cfg.engine, a.runtimes[key].door, o).1.Some?, t);
  }

  lemma {:induction false} DetectAllGraced(cfg: Config, s: State, now: int, ds: seq<Detection>)
    requires Sound(cfg, now, s) && AllGraced(cfg, now, s)
    requires forall j :: 0 <= j < |ds| ==> Observable(cfg.engine, ObservationOf(now, ds[j]))
    ensures AllGraced(cfg, now, DetectAll(cfg, s, now, ds))
  {
    if ds == [] {
    } else {
      var front, d := ds[..|ds| - 1], ds[|ds| - 1];
      DetectAllGraced(cfg, s, now, front);
      DetectAllIsSound(cfg, s, now, front);
      DetectGraced(cfg, DetectAll(cfg, s, now, front), now, d, DetectAll(cfg, s, now, ds));
    }
  }

  // The ends of tracks.

  lemma AwaitGraced(cfg: Config, s: State, key: string, now: int)
    requires Sound(cfg, now, s) && key in s.runtimes && s.runtimes[key].hold.Some? && AllGraced(cfg, now, s)
    ensures AllGraced(cfg, now, AwaitGrace(cfg, s, key, now))
  {
    LiveHere(cfg, now, s, key);
    HeldSince(cfg, now, ViewOf(s, key));
    DatingIsIdle(s, key, now);
    if ExitGraceExpired(s.runtimes[key].hold.value.started.value, now, cfg.grace) {
      var t := ReleaseHeld(cfg, s, key, s.runtimes[key].hold.value, now, AfterGrace);
      ReleasedRows(cfg, s, key, now, AfterGrace, now);
      ReleaseHeldKeeps(cfg, s, key, now, AfterGrace);
      ReleasedLog(cfg, s, key, now);
      ReleasedGraced(cfg, now, s, t, key);
    }
  }

  /** The key of a released hold is long gone. */
  lemma ReleasedLog(cfg: Config, s: State, key: string, now: int)
    requires key in s.runtimes && LiveInv(cfg, now, ViewOf(s, key)) && s.runtimes[key].hold.Some?
    requires s.runtimes[key].hold.value.started.Some?
    requires ExitGraceExpired(s.runtimes[key].hold.value.started.value, now, cfg.grace)
    ensures var t := ReleaseHeld(cfg, s, key, s.runtimes[key].hold.value, now, AfterGrace); LongGone(cfg, now, t, key)
  {
    var t := ReleaseHeld(cfg, s, key, s.runtimes[key].hold.value, now, AfterGrace);
    HeldLog(cfg, now, ViewOf(s, key));
    SettleKeepsHistory(cfg, s, key, now);
    assert t.log == s.log && key in t.used && key !in t.runtimes;
  }

  lemma HeldLog(cfg: Config, now: int, v: View)
    requires LiveInv(cfg, now, v) && v.rt.value.hold.Some? && v.rt.value.hold.value.started.Some?
    ensures v.log != [] && v.rt.value.hold.value.started.value - v.log[|v.log| - 1].ts > cfg.ttl
  {
  }

  lemma ReleasedGraced(cfg: Config, now: int, s: State, t: State, key: string)
    requires AllGraced(cfg, now, s) && OnlyKey(s, t, key) && key in s.runtimes && LongGone(cfg, now, t, key)
    requires |AllRows(t)| == |AllRows(s)| + 1 && AllRows(t)[..|AllRows(s)|] == AllRows(s)
    requires AllRows(t)[|AllRows(s)|].key == key && AllRows(t)[|AllRows(s)|].mark == AfterGrace
    ensures AllGraced(cfg, now, t)
  {
    var a, b := AllRows(s), AllRows(t);
    forall i | 0 <= i < |b| ensures Graced(cfg, now, t, b[i]) {
      if i < |a| {
        assert b[i] == b[..|a|][i] == a[i] && Graced(cfg, now, s, a[i]);
        if LongGone(cfg, now, s, a[i].key) { LongGoneStays(cfg, now, s, t, key, a[i].key); }
      }
    }
  }

  lemma HoldRows(cfg: Config, s: State, key: string, now: int, end: DoorEvent)
    requires key in s.runtimes && LiveInv(cfg, now, ViewOf(s, key))
    ensures AllRows(StartHold(s, key, end, now)) == AllRows(s)
    ensures AllRows(StartHold(SettlePending(cfg, s, key, now), key, end, now)) == AllRows(s)
  {
    SettleCommitsNothing(cfg, s, key, now, now);
  }

  lemma PlainEndRows(cfg: Config, s: State, key: string, now: int, t: State)
    requires key in s.runtimes && LiveInv(cfg, now, ViewOf(s, key))
    requires var end := Finalize(s.runtimes[key].door, cfg.inferExit);
      !WantsHold(cfg, end) && t == EndNow(SettlePending(cfg, s, key, now), key, end, now)
    ensures GrowsFrom(cfg, AllRows(s), AllRows(t))
  {
    EndedPlainRows(cfg, s, key, now, now);
    EndIsInferred(s.runtimes[key].door, cfg.inferExit);
    if AllRows(t) == AllRows(s) {
      GrowsByNone(cfg, AllRows(s));
    } else {
      GrowsByOne(cfg, AllRows(s), AllRows(t));
    }
  }

  lemma GrowsByNone(cfg: Config, a: seq<EventRow>)
    ensures GrowsFrom(cfg, a, a)
  {
  }

  lemma GrowsByOne(cfg: Config, a: seq<EventRow>, b: seq<EventRow>)
    requires |b| == |a| + 1 && b[..|a|] == a && Ordinary(cfg, b[|a|])
    ensures GrowsFrom(cfg, a, b)
  {
    forall i | 0 <= i < |a| ensures b[i] == a[i] { assert b[..|a|][i] == b[i]; }
  }

  lemma EndIsInferred(door: DoorState, inferExit: bool)
    ensures var end := Finalize(door, inferExit);
      end.Some? ==> end.value.inferred && end.value.reason == TrackEndedInside
  {
  }

  /** An end without an exit grace writes ordinary rows only. */
  lemma EndOrHoldRows(cfg: Config, s: State, key: string, now: int)
    requires key in s.runtimes && LiveInv(cfg, now, ViewOf(s, key))
    ensures GrowsFrom(cfg, AllRows(s), AllRows(EndOrHold(cfg, s, key, now)))
  {
    var end := Finalize(s.runtimes[key].door, cfg.inferExit);
    if WantsHold(cfg, end) {
      HoldRows(cfg, s, key, now, end.value);
    } else {
      PlainEndRows(cfg, s, key, now, EndOrHold(cfg, s, key, now));
    }
  }

  lemma EndOrHoldGraced(cfg: Config, s: State, key: string, now: int)
    requires Sound(cfg, now, s) && Overdue(cfg, s, key, now) && !s.runtimes[key].hold.Some? && AllGraced(cfg, now, s)
    ensures AllGraced(cfg, now, EndOrHold(cfg, s, key, now))
  {
    LiveHere(cfg, now, s, key);
    EndOrHoldKeeps(cfg, s, key, now);
    EndOrHoldRows(cfg, s, key, now);
    GracedStep(cfg, now, s, EndOrHold(cfg, s, key, now), key);
  }

  lemma ExpireGraced(cfg: Config, s: State, key: string, now: int)
    requires Sound(cfg, now, s) && Overdue(cfg, s, key, now) && AllGraced(cfg, now, s)
    ensures AllGraced(cfg, now, Expire(cfg, s, key, now))
  {
    LiveHere(cfg, now, s, key);
    if s.runtimes[key].hold.Some? {
      AwaitGraced(cfg, s, key, now);
    } else {
      EndOrHoldGraced(cfg, s, key, now);
    }
  }

  lemma {:induction false} ExpireAllGraced(cfg: Config, s: State, keys: seq<string>, now: int)
    requires Sound(cfg, now, s) && NoDup(keys) && (forall k :: k in keys ==> Overdue(cfg, s, k, now))
    requires AllGraced(cfg, now, s)
    ensures AllGraced(cfg, now, ExpireAll(cfg, s, keys, now))
    decreases keys
  {
    if keys == [] {
    } else {
      assert Overdue(cfg, s, keys[0], now);
      var t := Expire(cfg, s, keys[0], now);
      ExpireGraced(cfg, s, keys[0], now);
      ExpireIsSound(cfg, s, keys[0], now);
      forall k | k in keys[1..] ensures Overdue(cfg, t, k, now) { OverdueStays(cfg, s, t, keys[0], k, now); }
      ExpireAllGraced(cfg, t, keys[1..], now);
    }
  }

  // Whole runs.

  lemma GracedLater(cfg: Config, now: int, later: int, s: State)
    requires AllGraced(cfg, now, s) && now <= later
    ensures AllGraced(cfg, later, s)
  {
    forall i | 0 <= i < |AllRows(s)| ensures Graced(cfg, later, s, AllRows(s)[i]) {
      assert Graced(cfg, now, s, AllRows(s)[i]);
    }
  }

  lemma FrameGraced(cfg: Config, s: State, now: int, f: Frame)
    requires Sound(cfg, now, s) && now <= f.ts && AllGraced(cfg, now, s)
    requires forall j :: 0 <= j < |f.detections| ==> Observable(cfg.engine, ObservationOf(f.ts, f.detections[j]))
    ensures AllGraced(cfg, f.ts, FrameStep(cfg, s, f))
  {
    SoundLater(cfg, now, f.ts, s);
    GracedLater(cfg, now, f.ts, s);
    DetectAllIsSound(cfg, s, f.ts, f.detections);
    DetectAllGraced(cfg, s, f.ts, f.detections);
    var t, seen := DetectAll(cfg, s, f.ts, f.detections), SeenKeys(cfg, s, f.ts, f.detections);
    MissingAreOverdue(cfg, t, t.order, seen, f.ts);
    ExpireAllGraced(cfg, t, Missing(cfg, t, t.order, seen, f.ts), f.ts);
    CheckpointGraced(cfg, f.ts, ExpireAll(cfg, t, Missing(cfg, t, t.order, seen, f.ts), f.ts));
  }

  lemma CheckpointGraced(cfg: Config, now: int, s: State)
    requires AllGraced(cfg, now, s)
    ensures AllGraced(cfg, now, Checkpoint(s))
  {
    var c := Checkpoint(s);
    assert AllRows(c) == AllRows(s);
    forall i | 0 <= i < |AllRows(c)| ensures Graced(cfg, now, c, AllRows(c)[i]) {
      assert Graced(cfg, now, s, AllRows(s)[i]);
    }
  }

  lemma {:induction false} EveryRowIsGraced(cfg: Config, frames: seq<Frame>, none: int)
    requires LegalFrames(cfg, frames)
    ensures AllGraced(cfg, LastTime(frames, none), RunFrames(cfg, frames))
  {
    if frames == [] {
    } else {
      var front, f := frames[..|frames| - 1], frames[|frames| - 1];
      DecodedFront(cfg, frames, false);
      EveryRowIsGraced(cfg, front, f.ts);
      EveryReachableStateIsSound(cfg, front, f.ts);
      FrameGraced(cfg, RunFrames(cfg, front), LastTime(front, f.ts), f);
    }
  }

  /** Over any frames: a row that was committed after a grace, and with the grace window on
      any inferred end of a track, belongs to a track that has ended and was last seen
      longer ago than time to live and grace together. A track that is still live, held or
      not, has no such row. */
  lemma ExitsAwaitTheirGrace(cfg: Config, frames: seq<Frame>, i: nat)
    requires LegalFrames(cfg, frames)
    requires i < |RunFrames(cfg, frames).table + RunFrames(cfg, frames).buffer|
    ensures var s, now := RunFrames(cfg, frames), LastTime(frames, 0);
      var row := (s.table + s.buffer)[i]; var log := LogOf(s, row.key);
      && row.mark != AtEndOfVideo
      && (row.mark == AfterGrace || (cfg.enableExit && row.reason == TrackEndedInside) ==>
            && row.mark == AfterGrace && row.key !in s.runtimes
            && log != [] && now - log[|log| - 1].ts > cfg.ttl + cfg.grace)
      && (row.key in s.runtimes ==> row.reason != TrackEndedInside)
  {
    var s, now := RunFrames(cfg, frames), LastTime(frames, 0);
    EveryRowIsGraced(cfg, frames, 0);
    EveryReachableStateIsSound(cfg, frames, 0);
    var row := AllRows(s)[i];
    assert Graced(cfg, now, s, row);
    if row.key in s.runtimes {
      LiveHere(cfg, now, s, row.key);
      RowIsListed(AllRows(s), i);
      NoEndYet(cfg, now, ViewOf(s, row.key), row);
    }
  }

  lemma NoEndYet(cfg: Config, now: int, v: View, row: EventRow)
    requires LiveInv(cfg, now, v) && row in v.rows
    ensures row.reason != TrackEndedInside
  {
    RowIsItem(v.rows, row);
  }
}
