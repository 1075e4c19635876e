/** What the end of every frame, and the end of the video, does with every track. */
module PipelineFates {
  import opened Wrappers
  import opened StableSort
  import opened DoorEngine
  import DoorEngineHistory
  import opened Reliability
  import opened TrackKeys
  import opened PipelineSpec
  import opened PipelineViews
  import opened PipelineKeyInvariant
  import opened PipelineRuns
  import opened PipelineSpacing
  import opened PipelineTheorems

  // -------------------------------------------------------------- what is promised

  /** The inferred exit of a track with these observations, as the row of its end. */
  ghost predicate ExitRows(cfg: Config, key: string, log: seq<Observation>, employee: Option<Employee>, mark: Mark,
                           rows: seq<EventRow>) {
    var end := Finalize(StateAfter(cfg.engine, log), cfg.inferExit);
    rows == if end.None? then []
            else [EventRow(key, end.value.ts, Exit, true, Some(end.value.confidence), TrackEndedInside, mark, employee)]
  }

  /** What was pending is given up: entries are dropped, exits discarded. */
  ghost predicate GivenUp(key: string, pes: seq<Pending>, ls: seq<Loss>) {
    && |ls| == |pes|
    && forall i :: 0 <= i < |pes| ==> ls[i] == Loss(key, pes[i], if pes[i].kind == Entry then Dropped else Discarded)
  }

  /** The track is finished: its exit, if it ended inside, and its summary are written, and its
      pending events are given up. */
  ghost predicate Ended(cfg: Config, key: string, v: View, w: View, mark: Mark) {
    && v.rt.Some? && v.log != []
    && (exists rows, ls ::
         && ExitRows(cfg, key, v.log, v.rt.value.employee, mark, rows) && GivenUp(key, v.rt.value.pending, ls)
         && w == v.(rt := None, retired := true, rows := v.rows + rows, lost := v.lost + ls,
                    tracks := v.tracks + [SummaryOf(key, v.log, v.rt.value)]))
  }

  ghost function SummaryOf(key: string, log: seq<Observation>, rt: Runtime): (r: TrackRow)
    requires log != []
  {
    TrackRow(key, log[0].ts, log[|log| - 1].ts, rt.employee, rt.confidence, rt.firstZone, rt.lastZone)
  }

  /** The track is held from now on with the exit that its observations infer. */
  ghost predicate HeldFrom(cfg: Config, v: View, w: View, now: int) {
    var end := Finalize(StateAfter(cfg.engine, v.log), cfg.inferExit);
    && v.rt.Some? && end.Some?
    && w == v.(rt := Some(v.rt.value.(
         hold := Some(Hold(Some(now), Some(end.value.ts), Some(end.value.confidence), Some(TrackEndedInside))))))
  }

  /** What becomes of a track that has been missing for longer than its time to live: while it
      is held it waits for its grace to be over; otherwise it is held if it ended inside and
      there is a grace, and else finished. */
  ghost predicate Fate(cfg: Config, key: string, v: View, w: View, now: int) {
    && v.rt.Some?
    && if v.rt.value.hold.Some? then
         && v.rt.value.hold.value.started.Some?
         && if now >= v.rt.value.hold.value.started.value + cfg.grace then Ended(cfg, key, v, w, AfterGrace) else w == v
       else if cfg.enableExit && cfg.inferExit && StateAfter(cfg.engine, v.log).stable == Inside
       then HeldFrom(cfg, v, w, now)
       else Ended(cfg, key, v, w, Plain)
  }

  /** The track was not seen in the frame, and its last sighting is too long ago. */
  ghost predicate MissingAt(cfg: Config, before: View, v: View, now: int) {
    v.rt.Some? && v.log != [] && v.log == before.log && now > v.log[|v.log| - 1].ts + cfg.ttl
  }

  // ---------------------------------------------------------------- one track

  lemma {:induction false} EndLossesGiveUp(key: string, pes: seq<Pending>)
    requires forall pe :: pe in pes ==> pe.strength != Strong
    ensures GivenUp(key, pes, EndLosses(key, pes))
  {
    if pes == [] {
    } else {
      assert pes[|pes| - 1] in pes;
      EndLossesGiveUp(key, pes[..|pes| - 1]);
    }
  }

  /** Settling gives up everything that is pending. */
  lemma SettleGivesUp(cfg: Config, s: State, key: string, now: int, before: int) returns (ls: seq<Loss>)
    requires key in s.runtimes && LiveInv(cfg, before, ViewOf(s, key))
    ensures var v, p := ViewOf(s, key), SettlePending(cfg, s, key, now);
      && OnlyKey(s, p, key) && GivenUp(key, v.rt.value.pending, ls)
      && ViewOf(p, key) == v.(rt := Some(v.rt.value.(pending := [])), lost := v.lost + ls)
  {
    var v, rt := ViewOf(s, key), s.runtimes[key];
    SettlePendingView(cfg, s, key, now);
    ls := EndLosses(key, rt.pending);
    EndLossesGiveUp(key, rt.pending);
    if rt.pending == [] {
      assert v.lost + ls == v.lost && rt.(pending := []) == rt;
    } else {
      EndCommitsNeverFire(cfg, before, v);
      PendingNeedsFlag(cfg, before, v);
      LastTsKnown(cfg, before, v, now);
      assert v.rows + [] == v.rows;
    }
  }

  lemma PendingNeedsFlag(cfg: Config, now: int, v: View)
    requires LiveInv(cfg, now, v) && v.rt.value.pending != []
    ensures cfg.enablePending
  {
  }

  lemma LastTsKnown(cfg: Config, before: int, v: View, now: int)
    requires LiveInv(cfg, before, v)
    ensures v.rt.value.lastTs.GetOr(now) == v.rt.value.lastTs.GetOr(before)
  {
  }

  lemma LiveFacts(cfg: Config, now: int, v: View)
    requires LiveInv(cfg, now, v)
    ensures v.log != [] && v.rt.value.door == StateAfter(cfg.engine, v.log)
    ensures v.rt.value.firstTs == Some(v.log[0].ts) && v.rt.value.lastTs == Some(v.log[|v.log| - 1].ts)
  {
  }

  lemma HoldFacts(cfg: Config, now: int, v: View)
    requires LiveInv(cfg, now, v) && v.rt.value.hold.Some?
    ensures var h, end := v.rt.value.hold.value, Finalize(StateAfter(cfg.engine, v.log), cfg.inferExit);
      && cfg.enableExit && h.started.Some? && end.Some?
      && h.exitTs == Some(end.value.ts) && h.confidence == Some(end.value.confidence)
      && h.reason == Some(TrackEndedInside)
  {
  }

  lemma EndedBy(cfg: Config, key: string, v: View, p: View, w: View, mark: Mark, ls: seq<Loss>, rows: seq<EventRow>)
    requires v.rt.Some? && v.log != [] && GivenUp(key, v.rt.value.pending, ls)
    requires p == v.(rt := Some(v.rt.value.(pending := [])), lost := v.lost + ls)
    requires ExitRows(cfg, key, v.log, v.rt.value.employee, mark, rows)
    requires w == p.(rt := None, retired := true, rows := p.rows + rows,
                     tracks := p.tracks + [SummaryOf(key, v.log, v.rt.value)])
    ensures Ended(cfg, key, v, w, mark)
  {
    assert w == v.(rt := None, retired := true, rows := v.rows + rows, lost := v.lost + ls,
                   tracks := v.tracks + [SummaryOf(key, v.log, v.rt.value)]);
  }

  lemma ReleaseEnds(cfg: Config, s: State, key: string, now: int, mark: Mark, before: int)
    requires key in s.runtimes && LiveInv(cfg, before, ViewOf(s, key)) && s.runtimes[key].hold.Some?
    ensures var t := ReleaseHeld(cfg, s, key, s.runtimes[key].hold.value, now, mark);
      OnlyKey(s, t, key) && Ended(cfg, key, ViewOf(s, key), ViewOf(t, key), mark)
  {
    var v, rt, p := ViewOf(s, key), s.runtimes[key], SettlePending(cfg, s, key, now);
    LiveFacts(cfg, before, v);
    HoldFacts(cfg, before, v);
    var ls := SettleGivesUp(cfg, s, key, now, before);
    ReleaseHeldView(cfg, s, key, rt.hold.value, now, mark);
    var t := ReleaseHeld(cfg, s, key, rt.hold.value, now, mark);
    EndedBy(cfg, key, v, ViewOf(p, key), ViewOf(t, key), mark, ls,
            [HeldExitRow(key, p.runtimes[key], rt.hold.value, now, mark)]);
  }

  lemma PlainEnds(cfg: Config, s: State, key: string, now: int, before: int)
    requires key in s.runtimes && LiveInv(cfg, before, ViewOf(s, key))
    ensures var t := EndNow(SettlePending(cfg, s, key, now), key, Finalize(s.runtimes[key].door, cfg.inferExit), now);
      OnlyKey(s, t, key) && Ended(cfg, key, ViewOf(s, key), ViewOf(t, key), Plain)
  {
    var p, end := SettlePending(cfg, s, key, now), Finalize(s.runtimes[key].door, cfg.inferExit);
    LiveFacts(cfg, before, ViewOf(s, key));
    EndsInside(cfg, LogOf(s, key));
    var ls := SettleGivesUp(cfg, s, key, now, before);
    SettledEnds(cfg, ViewOf(s, key), p, key, end, now, ls);
    OnlyKeyTrans(s, p, EndNow(p, key, end, now), key);
  }

  lemma SettledEnds(cfg: Config, v: View, p: State, key: string, end: Option<DoorEvent>, now: int, ls: seq<Loss>)
    requires key in p.runtimes && v.rt.Some? && v.log != [] && GivenUp(key, v.rt.value.pending, ls)
    requires v.rt.value.firstTs == Some(v.log[0].ts) && v.rt.value.lastTs == Some(v.log[|v.log| - 1].ts)
    requires end == Finalize(StateAfter(cfg.engine, v.log), cfg.inferExit)
    requires end.Some? ==> end.value.inferred && end.value.reason == TrackEndedInside && end.value.kind == Exit
    requires ViewOf(p, key) == v.(rt := Some(v.rt.value.(pending := [])), lost := v.lost + ls)
    ensures var t := EndNow(p, key, end, now); OnlyKey(p, t, key) && Ended(cfg, key, v, ViewOf(t, key), Plain)
  {
    EndNowView(p, key, end, now);
    EndedBy(cfg, key, v, ViewOf(p, key), ViewOf(EndNow(p, key, end, now), key), Plain, ls,
            if end.Some? then [EndRow(key, p.runtimes[key], end.value)] else []);
  }

  lemma ExpireShows(cfg: Config, s: State, key: string, now: int)
    requires key in s.runtimes && LiveInv(cfg, now, ViewOf(s, key))
    ensures var t := Expire(cfg, s, key, now);
      OnlyKey(s, t, key) && Fate(cfg, key, ViewOf(s, key), ViewOf(t, key), now)
  {
    if s.runtimes[key].hold.Some? {
      AwaitGraceShows(cfg, s, key, now);
    } else {
      EndOrHoldShows(cfg, s, key, now);
    }
  }

  lemma AwaitGraceShows(cfg: Config, s: State, key: string, now: int)
    requires key in s.runtimes && LiveInv(cfg, now, ViewOf(s, key)) && s.runtimes[key].hold.Some?
    ensures var t := Expire(cfg, s, key, now);
      OnlyKey(s, t, key) && Fate(cfg, key, ViewOf(s, key), ViewOf(t, key), now)
  {
    AwaitGraceIs(cfg, s, key, now);
    if now >= s.runtimes[key].hold.value.started.value + cfg.grace {
      ReleaseEnds(cfg, s, key, now, AfterGrace, now);
    }
  }

  lemma AwaitGraceIs(cfg: Config, s: State, key: string, now: int)
    requires key in s.runtimes && LiveInv(cfg, now, ViewOf(s, key)) && s.runtimes[key].hold.Some?
    ensures var hold := s.runtimes[key].hold.value;
      && hold.started.Some?
      && Expire(cfg, s, key, now) == if now >= hold.started.value + cfg.grace
                                     then ReleaseHeld(cfg, s, key, hold, now, AfterGrace) else s
  {
    HoldFacts(cfg, now, ViewOf(s, key));
    DatingIsIdle(s, key, now);
  }

  lemma EndOrHoldShows(cfg: Config, s: State, key: string, now: int)
    requires key in s.runtimes && LiveInv(cfg, now, ViewOf(s, key)) && s.runtimes[key].hold.None?
    ensures var t := EndOrHold(cfg, s, key, now);
      OnlyKey(s, t, key) && Fate(cfg, key, ViewOf(s, key), ViewOf(t, key), now)
  {
    var v, rt := ViewOf(s, key), s.runtimes[key];
    var end := Finalize(rt.door, cfg.inferExit);
    LiveFacts(cfg, now, v);
    EndsInside(cfg, v.log);
    EndOrHoldIs(cfg, s, key, now);
    if WantsHold(cfg, end) {
      HoldStarts(cfg, s, key, end.value, now);
    } else {
      PlainEnds(cfg, s, key, now, now);
    }
  }

  /** A track that is to be held keeps what is pending; any other one settles it. */
  lemma EndOrHoldIs(cfg: Config, s: State, key: string, now: int)
    requires key in s.runtimes && LiveInv(cfg, now, ViewOf(s, key))
    ensures var end := Finalize(s.runtimes[key].door, cfg.inferExit);
      EndOrHold(cfg, s, key, now) == if WantsHold(cfg, end) then StartHold(s, key, end.value, now)
                                     else EndNow(SettlePending(cfg, s, key, now), key, end, now)
  {
    var rt := s.runtimes[key];
    if rt.pending != [] { EndCommitsNeverFire(cfg, now, ViewOf(s, key)); }
  }

  lemma HoldStarts(cfg: Config, s: State, key: string, end: DoorEvent, now: int)
    requires key in s.runtimes && Finalize(StateAfter(cfg.engine, LogOf(s, key)), cfg.inferExit) == Some(end)
    requires end.reason == TrackEndedInside
    ensures var t := StartHold(s, key, end, now);
      OnlyKey(s, t, key) && HeldFrom(cfg, ViewOf(s, key), ViewOf(t, key), now)
  {
    var held := s.runtimes[key].(hold := Some(Hold(Some(now), Some(end.ts), Some(end.confidence), Some(end.reason))));
    StoreView(s, key, held);
    CountView(Store(s, key, held), s.counts.(started := s.counts.started + 1));
  }

  /** An exit is inferred exactly for a track that ended inside. */
  lemma EndsInside(cfg: Config, log: seq<Observation>)
    ensures var s := StateAfter(cfg.engine, log); var end := Finalize(s, cfg.inferExit);
      && (end.Some? <==> cfg.inferExit && s.stable == Inside)
      && (end.Some? ==> end.value.inferred && end.value.reason == TrackEndedInside && end.value.kind == Exit)
  {
    DoorEngineHistory.InsideHasBeen(cfg.engine, log);
  }

  lemma ConcludeShows(cfg: Config, s: State, key: string, now: int, before: int)
    requires key in s.runtimes && LiveInv(cfg, before, ViewOf(s, key))
    ensures var t, mark := Conclude(cfg, s, key, now), if s.runtimes[key].hold.Some? then AtEndOfVideo else Plain;
      OnlyKey(s, t, key) && Ended(cfg, key, ViewOf(s, key), ViewOf(t, key), mark)
  {
    LiveHolds(cfg, before, ViewOf(s, key));
    if s.runtimes[key].hold.Some? {
      ReleaseEnds(cfg, s, key, now, AtEndOfVideo, before);
    } else {
      PlainEnds(cfg, s, key, now, before);
    }
  }

  // ------------------------------------------------------------- all of a frame

  lemma FirstAndRest(keys: seq<string>, k: string)
    requires keys != [] && NoDup(keys)
    ensures keys[0] !in keys[1..] && (k in keys <==> k == keys[0] || k in keys[1..]) && NoDup(keys[1..])
  {
    assert keys == [keys[0]] + keys[1..];
  }

  /** Missing tracks expire one by one: before its turn and after it a key is left alone. */
  lemma {:induction false} ExpireElsewhere(cfg: Config, s: State, keys: seq<string>, now: int, k: string)
    requires Sound(cfg, now, s) && NoDup(keys) && forall key :: key in keys ==> Overdue(cfg, s, key, now)
    requires k !in keys
    ensures ViewOf(ExpireAll(cfg, s, keys, now), k) == ViewOf(s, k)
    decreases keys
  {
    if keys == [] {
    } else {
      FirstAndRest(keys, k);
      var t := ExpireFirst(cfg, s, keys, now);
      ExpireElsewhere(cfg, t, keys[1..], now, k);
      assert ViewOf(t, k) == ViewOf(s, k);
    }
  }

  lemma ExpireFirst(cfg: Config, s: State, keys: seq<string>, now: int) returns (t: State)
    requires Sound(cfg, now, s) && NoDup(keys) && keys != [] && forall key :: key in keys ==> Overdue(cfg, s, key, now)
    ensures keys[0] in s.runtimes && t == Expire(cfg, s, keys[0], now)
    ensures Sound(cfg, now, t) && OnlyKey(s, t, keys[0])
    ensures forall j :: j in keys[1..] ==> Overdue(cfg, t, j, now)
  {
    var key := keys[0];
    assert Overdue(cfg, s, key, now);
    t := Expire(cfg, s, key, now);
    ExpireIsSound(cfg, s, key, now);
    forall j | j in keys[1..] ensures Overdue(cfg, t, j, now) {
      FirstAndRest(keys, j);
      OverdueStays(cfg, s, t, key, j, now);
    }
  }

  lemma {:induction false} ExpireAtItsTurn(cfg: Config, s: State, keys: seq<string>, now: int, k: string)
    returns (t: State)
    requires Sound(cfg, now, s) && NoDup(keys) && forall key :: key in keys ==> Overdue(cfg, s, key, now)
    requires k in keys
    ensures k in t.runtimes && Sound(cfg, now, t) && ViewOf(t, k) == ViewOf(s, k)
    ensures ViewOf(ExpireAll(cfg, s, keys, now), k) == ViewOf(Expire(cfg, t, k, now), k)
    decreases keys
  {
    FirstAndRest(keys, k);
    var u := ExpireFirst(cfg, s, keys, now);
    if k == keys[0] {
      t := s;
      ExpireElsewhere(cfg, u, keys[1..], now, k);
    } else {
      t := ExpireAtItsTurn(cfg, u, keys[1..], now, k);
      assert ViewOf(u, k) == ViewOf(s, k);
    }
  }

  lemma ExpireAllShows(cfg: Config, s: State, keys: seq<string>, now: int, k: string)
    requires Sound(cfg, now, s) && NoDup(keys) && forall key :: key in keys ==> Overdue(cfg, s, key, now)
    ensures var v, w := ViewOf(s, k), ViewOf(ExpireAll(cfg, s, keys, now), k);
      if k in keys then Fate(cfg, k, v, w, now) else w == v
  {
    if k in keys {
      var t := ExpireAtItsTurn(cfg, s, keys, now, k);
      LiveHere(cfg, now, t, k);
      ExpireShows(cfg, t, k, now);
    } else {
      ExpireElsewhere(cfg, s, keys, now, k);
    }
  }

  lemma {:induction false} ConcludeElsewhere(cfg: Config, s: State, keys: seq<string>, now: int, k: string)
    requires Sound(cfg, now, s) && NoDup(keys) && forall key :: key in keys ==> key in s.runtimes
    requires k !in keys
    ensures ViewOf(ConcludeAll(cfg, s, keys, now), k) == ViewOf(s, k)
    decreases keys
  {
    if keys == [] {
    } else {
      FirstAndRest(keys, k);
      var t := ConcludeFirst(cfg, s, keys, now);
      ConcludeElsewhere(cfg, t, keys[1..], now, k);
      assert ViewOf(t, k) == ViewOf(s, k);
    }
  }

  lemma ConcludeFirst(cfg: Config, s: State, keys: seq<string>, now: int) returns (t: State)
    requires Sound(cfg, now, s) && NoDup(keys) && keys != [] && forall key :: key in keys ==> key in s.runtimes
    ensures keys[0] in s.runtimes && t == Conclude(cfg, s, keys[0], now)
    ensures Sound(cfg, now, t) && OnlyKey(s, t, keys[0])
    ensures forall j :: j in keys[1..] ==> j in t.runtimes
  {
    var key := keys[0];
    assert key in s.runtimes;
    t := Conclude(cfg, s, key, now);
    ConcludeIsSound(cfg, s, key, now);
    ConcludeRemoves(cfg, s, keys, now);
    LiveHere(cfg, now, s, key);
    ConcludeShows(cfg, s, key, now, now);
  }

  lemma {:induction false} ConcludeAtItsTurn(cfg: Config, s: State, keys: seq<string>, now: int, k: string)
    returns (t: State)
    requires Sound(cfg, now, s) && NoDup(keys) && forall key :: key in keys ==> key in s.runtimes
    requires k in keys
    ensures k in t.runtimes && Sound(cfg, now, t) && ViewOf(t, k) == ViewOf(s, k)
    ensures ViewOf(ConcludeAll(cfg, s, keys, now), k) == ViewOf(Conclude(cfg, t, k, now), k)
    decreases keys
  {
    FirstAndRest(keys, k);
    var u := ConcludeFirst(cfg, s, keys, now);
    if k == keys[0] {
      t := s;
      ConcludeElsewhere(cfg, u, keys[1..], now, k);
    } else {
      t := ConcludeAtItsTurn(cfg, u, keys[1..], now, k);
      assert ViewOf(u, k) == ViewOf(s, k);
    }
  }

  /** How the end of the video marks the exit of a track. */
  function LastMark(v: View): (r: Mark) {
    if v.rt.Some? && v.rt.value.hold.Some? then AtEndOfVideo else Plain
  }

  lemma ConcludeAllShows(cfg: Config, s: State, keys: seq<string>, now: int, k: string)
    requires Sound(cfg, now, s) && NoDup(keys) && forall key :: key in keys ==> key in s.runtimes
    ensures var v, w := ViewOf(s, k), ViewOf(ConcludeAll(cfg, s, keys, now), k);
      if k in keys then Ended(cfg, k, v, w, LastMark(v)) else w == v
  {
    if k in keys {
      var t := ConcludeAtItsTurn(cfg, s, keys, now, k);
      LiveHere(cfg, now, t, k);
      ConcludeShows(cfg, t, k, now, now);
    } else {
      ConcludeElsewhere(cfg, s, keys, now, k);
    }
  }

  lemma {:induction false} MissingAre(cfg: Config, s: State, keys: seq<string>, seen: set<string>, now: int, k: string)
    ensures k in Missing(cfg, s, keys, seen, now) <==> k in keys && k !in seen && Overdue(cfg, s, k, now)
  {
    if keys == [] {
    } else {
      MissingAre(cfg, s, keys[..|keys| - 1], seen, now, k);
      assert keys == keys[..|keys| - 1] + [keys[|keys| - 1]];
    }
  }

  /** A key is seen in a frame exactly when its observations have grown. */
  lemma {:induction false} SeenIsLogged(cfg: Config, s: State, now: int, ds: seq<Detection>, k: string)
    ensures var d := DetectAll(cfg, s, now, ds);
      if k in SeenKeys(cfg, s, now, ds) then |LogOf(d, k)| > |LogOf(s, k)| else LogOf(d, k) == LogOf(s, k)
  {
    if ds == [] {
    } else {
      var front, last := ds[..|ds| - 1], ds[|ds| - 1];
      SeenIsLogged(cfg, s, now, front, k);
      var u := DetectAll(cfg, s, now, front);
      AdmitAdds(u, last.raw, now, Admit(u, last.raw));
      DetectAdds(cfg, u, now, last, KeyOf(u, last.raw), Admit(u, last.raw), Detect(cfg, u, now, last));
    }
  }

  lemma OverdueByLog(cfg: Config, now: int, s: State, k: string)
    requires Sound(cfg, now, s)
    ensures k in s.runtimes ==> LogOf(s, k) != []
    ensures Overdue(cfg, s, k, now) <==> k in s.runtimes && now > LogOf(s, k)[|LogOf(s, k)| - 1].ts + cfg.ttl
    ensures k in s.order <==> k in s.runtimes
  {
    if k in s.runtimes {
      LiveHere(cfg, now, s, k);
      LiveFacts(cfg, now, ViewOf(s, k));
    }
  }

  lemma FrameEndShows(cfg: Config, s: State, f: Frame, d: State, t: State, k: string)
    requires d == DetectAll(cfg, s, f.ts, f.detections) && Sound(cfg, f.ts, d) && t == FrameStep(cfg, s, f)
    ensures var v, w := ViewOf(d, k), ViewOf(t, k);
      if MissingAt(cfg, ViewOf(s, k), v, f.ts) then Fate(cfg, k, v, w, f.ts) else w == v
    ensures t.unsaved < 200
  {
    var seen := SeenKeys(cfg, s, f.ts, f.detections);
    var gone := Missing(cfg, d, d.order, seen, f.ts);
    MissingAreOverdue(cfg, d, d.order, seen, f.ts);
    GoneAreMissing(cfg, s, f, d, k);
    ExpireAllShows(cfg, d, gone, f.ts, k);
    CheckpointShows(ExpireAll(cfg, d, gone, f.ts), k);
  }

  lemma GoneAreMissing(cfg: Config, s: State, f: Frame, d: State, k: string)
    requires d == DetectAll(cfg, s, f.ts, f.detections) && Sound(cfg, f.ts, d)
    ensures k in Missing(cfg, d, d.order, SeenKeys(cfg, s, f.ts, f.detections), f.ts) <==>
            MissingAt(cfg, ViewOf(s, k), ViewOf(d, k), f.ts)
  {
    MissingAre(cfg, d, d.order, SeenKeys(cfg, s, f.ts, f.detections), f.ts, k);
    SeenIsLogged(cfg, s, f.ts, f.detections, k);
    OverdueByLog(cfg, f.ts, d, k);
  }

  /** The end of every frame of every run, for every key: a track that was not seen in it and
      whose last sighting is longer ago than its time to live meets its fate; every other key
      is left as it is. And never are two hundred writes left uncommitted. */
  lemma EveryFrameEndShows(cfg: Config, frames: seq<Frame>, k: string)
    requires LegalFrames(cfg, frames) && frames != []
    ensures var f := frames[|frames| - 1];
      var s, d := RunFrames(cfg, frames[..|frames| - 1]), WithinLast(cfg, frames, |f.detections|);
      var v, w := ViewOf(d, k), ViewOf(RunFrames(cfg, frames), k);
      if MissingAt(cfg, ViewOf(s, k), v, f.ts) then Fate(cfg, k, v, w, f.ts) else w == v
    ensures RunFrames(cfg, frames).unsaved < 200
  {
    var f := frames[|frames| - 1];
    var d := WithinLast(cfg, frames, |f.detections|);
    assert f.detections[..|f.detections|] == f.detections;
    WithinIsSound(cfg, frames, |f.detections|);
    FrameEndShows(cfg, RunFrames(cfg, frames[..|frames| - 1]), f, d, RunFrames(cfg, frames), k);
  }

  lemma CheckpointShows(u: State, k: string)
    ensures ViewOf(Checkpoint(u), k) == ViewOf(u, k) && Checkpoint(u).unsaved < 200
  {
    FlushView(u);
    var t := Flush(u);
    assert ViewOf(t.(unsaved := 0), k) == ViewOf(t, k);
  }

  /** The end of the video, for every key: a live track is finished, a held one with its exit
      marked; every other key is left as it is, and all rows are in the table. */
  lemma EveryVideoEndShows(cfg: Config, frames: seq<Frame>, end: int, k: string)
    requires LegalFrames(cfg, frames) && LastTime(frames, end) <= end
    ensures var v, w := ViewOf(RunFrames(cfg, frames), k), ViewOf(RunToEnd(cfg, frames, end), k);
      if v.rt.Some? then Ended(cfg, k, v, w, LastMark(v)) else w == v
    ensures RunToEnd(cfg, frames, end).buffer == []
  {
    var s := RunFrames(cfg, frames);
    EveryReachableStateIsSound(cfg, frames, end);
    SoundLater(cfg, LastTime(frames, end), end, s);
    OverdueByLog(cfg, end, s, k);
    ConcludeAllShows(cfg, s, s.order, end, k);
    FlushView(ConcludeAll(cfg, s, s.order, end));
  }
}
