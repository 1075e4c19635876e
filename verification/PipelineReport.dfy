/** When the counters of pending events add up: the configurations under which no run
    ever gives up a pending event without counting it. */
module PipelineReport {
  import opened Wrappers
  import opened StableSort
  import opened DoorEngine
  import opened DoorEngineRuns
  import opened Reliability
  import opened TrackKeys
  import opened PipelineSpec
  import opened PipelineViews
  import opened PipelineKeyInvariant
  import opened PipelineCounts
  import opened PipelineRuns
  import opened PipelineSpacing

  // ------------------------------------------------------------ the configurations

  /** A change between inside and outside can be reported without strong evidence. */
  predicate WeakTransitions(cfg: EngineConfig) {
    !cfg.lineConfigured || (cfg.inferTransitions && cfg.window >= 0)
  }

  /** Some event can wait for its track to become stable. */
  predicate EventMayWait(cfg: Config, ticking: bool) {
    var n := SettleCount(cfg.engine);
    && cfg.enablePending
    && (|| (cfg.engine.inferEntry && n < cfg.minHits && Span(n, ticking) < cfg.minAge)
        || (WeakTransitions(cfg.engine) && 2 * n < cfg.minHits && Span(2 * n, ticking) < cfg.minAge))
  }

  /** An exit can: soon after an entry the cooldown has to be short, and without an
      entry before it the track has to come from outside across a line. */
  predicate ExitMayWait(cfg: Config, ticking: bool) {
    var n := SettleCount(cfg.engine);
    && cfg.enablePending && WeakTransitions(cfg.engine)
    && (|| (&& 2 * n < cfg.minHits && Span(2 * n, ticking) < cfg.minAge
            && (cfg.engine.inferEntry ==> Span(n, ticking) + cfg.engine.cooldown < cfg.minAge))
        || (cfg.engine.lineConfigured && 3 * n < cfg.minHits && Span(3 * n, ticking) < cfg.minAge))
  }

  /** A held track with a waiting event can be taken for another track of the same employee. */
  predicate MergeMayLose(cfg: Config, ticking: bool) {
    && EventMayWait(cfg, ticking) && cfg.enableExit && cfg.inferExit
    && cfg.grace >= (if ticking then 1 else 0)
    && cfg.faceEnabled && cfg.maxProbes > 0
  }

  // --------------------------------------------- how early the engine can report what

  /** The sightings of the candidate zone, while it is not the stable one. */
  function Moving(s: DoorState): (k: nat) {
    if s.candidate != s.stable then s.streak else 0
  }

  /** How many sightings a state takes at least, and how its times are ordered. */
  ghost predicate TakesTime(cfg: EngineConfig, obs: seq<Observation>, s: DoorState, quiet: bool, ticking: bool) {
    var n := SettleCount(cfg);
    && s.streak <= |obs|
    && (s.candidate == Unknown ==> s.stable == Unknown)
    && (s.stable != Unknown ==> |obs| >= n + Moving(s))
    && (cfg.inferEntry && quiet && s.stable == Inside ==> cfg.lineConfigured && |obs| >= 2 * n + Moving(s))
    && (s.lastInGate.Some? ==> obs != [] && s.lastInGate.value <= obs[|obs| - 1].ts)
    && (s.lastEvent.Some? ==> obs != [] && obs[0].ts + Span(n, ticking) <= s.lastEvent.value)
    && (quiet <==> s.lastEvent.None?)
  }

  lemma NoticeTakesTime(cfg: EngineConfig, obs: seq<Observation>, s: DoorState, quiet: bool, o: Observation,
                        ticking: bool)
    requires TakesTime(cfg, obs, s, quiet, ticking) && (obs != [] ==> obs[|obs| - 1].ts <= o.ts)
    ensures var t := Notice(s, o);
      && t.stable == s.stable && t.candidate == s.candidate && t.streak == s.streak && t.lastEvent == s.lastEvent
      && (t.lastInGate.Some? ==> t.lastInGate.value <= o.ts)
  {
  }

  lemma StepTakesTime(cfg: EngineConfig, obs: seq<Observation>, s: DoorState, quiet: bool, o: Observation,
                      ticking: bool)
    requires TakesTime(cfg, obs, s, quiet, ticking) && Spaced(obs + [o], ticking)
    ensures var (t, e) := Observe(cfg, s, o); TakesTime(cfg, obs + [o], t, quiet && e.None?, ticking)
  {
    SpacedFront(obs, o, ticking);
    NoticeTakesTime(cfg, obs, s, quiet, o, ticking);
    assert (obs + [o])[|obs|] == o;
    assert obs != [] ==> (obs + [o])[0] == obs[0];
  }

  lemma {:induction false} RunTakesTime(cfg: EngineConfig, obs: seq<Observation>, ticking: bool)
    requires Spaced(obs, ticking)
    ensures TakesTime(cfg, obs, StateAfter(cfg, obs), Emitted(cfg, obs) == [], ticking)
  {
    if obs == [] {
    } else {
      var front, o := obs[..|obs| - 1], obs[|obs| - 1];
      assert obs == front + [o];
      SpacedFront(front, o, ticking);
      RunTakesTime(cfg, front, ticking);
      TakesTimeNext(cfg, front, StateAfter(cfg, front), Emitted(cfg, front), o,
                    obs, StateAfter(cfg, obs), Emitted(cfg, obs), ticking);
    }
  }

  lemma TakesTimeNext(cfg: EngineConfig, front: seq<Observation>, s: DoorState, es: seq<DoorEvent>, o: Observation,
                      obs: seq<Observation>, t: DoorState, us: seq<DoorEvent>, ticking: bool)
    requires TakesTime(cfg, front, s, es == [], ticking) && Spaced(obs, ticking) && obs == front + [o]
    requires t == Observe(cfg, s, o).0 && us == es + Optional(Observe(cfg, s, o).1)
    ensures TakesTime(cfg, obs, t, us == [], ticking)
  {
    StepTakesTime(cfg, front, s, es == [], o, ticking);
  }

  /** What it takes for an event without strong evidence to be reported. */
  lemma WeakEventTakes(cfg: EngineConfig, obs: seq<Observation>, s: DoorState, quiet: bool, o: Observation,
                       ticking: bool)
    requires TakesTime(cfg, obs, s, quiet, ticking) && (obs != [] ==> obs[|obs| - 1].ts <= o.ts)
    requires Observe(cfg, s, o).1.Some? && ClassifyStrength(Observe(cfg, s, o).1.value.reason) != Strong
    ensures var e, n := Observe(cfg, s, o).1.value, SettleCount(cfg);
      && (|| (cfg.inferEntry && |obs| + 1 >= n)
          || (WeakTransitions(cfg) && |obs| + 1 >= 2 * n))
      && (e.kind == Exit ==>
            && WeakTransitions(cfg) && |obs| + 1 >= 2 * n
            && (cfg.inferEntry ==>
                  if quiet then cfg.lineConfigured && |obs| + 1 >= 3 * n
                  else && obs != [] && s.lastEvent.Some? && obs[0].ts + Span(n, ticking) <= s.lastEvent.value
                       && o.ts - s.lastEvent.value >= cfg.cooldown))
  {
    NoticeTakesTime(cfg, obs, s, quiet, o, ticking);
  }

  // ------------------------------------------------------------------ the invariant

  /** What a configuration lets happen. */
  datatype Allowed = Allowed(waiting: bool, exit: bool, merge: bool)

  function AllowedBy(cfg: Config, ticking: bool): (r: Allowed) {
    Allowed(EventMayWait(cfg, ticking), ExitMayWait(cfg, ticking), MergeMayLose(cfg, ticking))
  }

  predicate MayBePending(m: Allowed, pe: Pending) {
    m.waiting && (pe.kind == Exit ==> m.exit)
  }

  predicate MayBeLost(m: Allowed, l: Loss) {
    (l.why == Discarded ==> m.exit) && (l.why == MergedAway ==> m.merge)
  }

  /** Only allowed events wait, and a loss has an allowed cause. */
  ghost predicate CausesKnown(m: Allowed, s: State) {
    && (forall k, pe :: k in s.runtimes && pe in s.runtimes[k].pending ==> MayBePending(m, pe))
    && (forall l :: l in s.lost ==> MayBeLost(m, l))
    && (s.counts.enqueued > 0 ==> m.waiting)
  }

  lemma WaitingIsAllowed(cfg: Config, ticking: bool, now: int, v: View, o: Observation)
    requires Sightable(cfg, now, v) && now <= o.ts && cfg.enablePending && Spaced(v.log + [o], ticking)
    requires var e := Observe(cfg.engine, v.rt.value.door, o).1;
      e.Some? && ClassifyStrength(e.value.reason) != Strong && !Stable(cfg, Sighted(cfg, v.rt.value, o), o.ts)
    ensures MayBePending(AllowedBy(cfg, ticking), ToPending(Observe(cfg.engine, v.rt.value.door, o).1.value))
  {
    SpacedFront(v.log, o, ticking);
    RunTakesTime(cfg.engine, v.log, ticking);
    SightableLog(cfg, now, v);
    WeakEventTakes(cfg.engine, v.log, v.rt.value.door, Emitted(cfg.engine, v.log) == [], o, ticking);
    UnstableMeans(cfg, v.rt.value, v.log, o);
  }

  lemma SightableLog(cfg: Config, now: int, v: View)
    requires Sightable(cfg, now, v)
    ensures TimeOrdered(v.log) && (v.log != [] ==> v.log[|v.log| - 1].ts <= now)
    ensures v.rt.value.door == StateAfter(cfg.engine, v.log) && v.rt.value.hits == |v.log|
    ensures v.rt.value.firstTs == if v.log == [] then None else Some(v.log[0].ts)
  {
  }

  lemma UnstableMeans(cfg: Config, rt: Runtime, log: seq<Observation>, o: Observation)
    requires rt.hits == |log| && rt.firstTs == (if log == [] then None else Some(log[0].ts))
    requires log != [] ==> log[0].ts <= o.ts
    requires !Stable(cfg, Sighted(cfg, rt, o), o.ts)
    ensures |log| + 1 < cfg.minHits && cfg.minAge > 0
    ensures log != [] ==> o.ts - log[0].ts < cfg.minAge
  {
  }

  /** A step that gives up nothing and lets only allowed events wait. */
  lemma KnownStep(m: Allowed, s: State, t: State, key: string)
    requires CausesKnown(m, s) && t.lost == s.lost
    requires t.counts.enqueued == s.counts.enqueued || m.waiting
    requires forall k :: k in t.runtimes && k != key ==>
               k in s.runtimes && t.runtimes[k].pending == s.runtimes[k].pending
    requires key in t.runtimes ==> forall pe :: pe in t.runtimes[key].pending ==> MayBePending(m, pe)
    ensures CausesKnown(m, t)
  {
  }

  lemma KnownHere(m: Allowed, s: State, key: string)
    requires CausesKnown(m, s) && key in s.runtimes
    ensures forall pe :: pe in s.runtimes[key].pending ==> MayBePending(m, pe)
  {
  }

  lemma OfferKnown(cfg: Config, m: Allowed, s: State, key: string, pe: Pending, now: int, t: State)
    requires key in s.runtimes && CausesKnown(m, s) && t == Offer(cfg, s, key, pe, now)
    requires cfg.enablePending && pe.strength != Strong && !Stable(cfg, s.runtimes[key], now) ==> MayBePending(m, pe)
    ensures CausesKnown(m, t)
  {
    KnownHere(m, s, key);
    KnownStep(m, s, t, key);
  }

  lemma FlushKnown(cfg: Config, m: Allowed, s: State, key: string, now: int, t: State)
    requires key in s.runtimes && CausesKnown(m, s) && t == FlushIfReady(cfg, s, key, now)
    ensures CausesKnown(m, t)
  {
    KnownHere(m, s, key);
    KnownStep(m, s, t, key);
  }

  lemma SeeKnown(cfg: Config, m: Allowed, s: State, key: string, o: Observation, t: State)
    requires key in s.runtimes && CausesKnown(m, s) && t == See(cfg, s, key, o)
    ensures CausesKnown(m, t) && t.runtimes[key] == Sighted(cfg, s.runtimes[key], o)
  {
    KnownHere(m, s, key);
    assert t.runtimes[key].pending == s.runtimes[key].pending;
    KnownStep(m, s, t, key);
  }

  lemma DoorLogicKnown(cfg: Config, m: Allowed, s: State, key: string, now: int, o: Observation, ticking: bool,
                       t: State)
    requires key in s.runtimes && Sightable(cfg, now, ViewOf(s, key)) && now <= o.ts && CausesKnown(m, s)
    requires m == AllowedBy(cfg, ticking) && Spaced(LogOf(s, key) + [o], ticking)
    requires t == DoorLogic(cfg, s, key, o)
    ensures CausesKnown(m, t)
  {
    var seen, event := See(cfg, s, key, o), Observe(cfg.engine, s.runtimes[key].door, o).1;
    SeeKnown(cfg, m, s, key, o, seen);
    if event.Some? {
      var pe := ToPending(event.value);
      if cfg.enablePending && pe.strength != Strong && !Stable(cfg, seen.runtimes[key], o.ts) {
        WaitingIsAllowed(cfg, ticking, now, ViewOf(s, key), o);
      }
      OfferKnown(cfg, m, seen, key, pe, o.ts, Offer(cfg, seen, key, pe, o.ts));
      FlushKnown(cfg, m, Offer(cfg, seen, key, pe, o.ts), key, o.ts, t);
    } else {
      FlushKnown(cfg, m, seen, key, o.ts, t);
    }
  }

  // The face probe.

  lemma {:induction false} LossesKnown(m: Allowed, key: string, pes: seq<Pending>)
    requires pes != [] ==> m.merge
    ensures forall l :: l in Losses(key, pes, MergedAway) ==> MayBeLost(m, l)
  {
    if pes == [] {
    } else {
      LossesKnown(m, key, pes[..|pes| - 1]);
    }
  }

  lemma {:induction false} EndLossesKnown(m: Allowed, key: string, pes: seq<Pending>)
    requires forall pe :: pe in pes ==> MayBePending(m, pe)
    ensures forall l :: l in EndLosses(key, pes) ==> MayBeLost(m, l)
  {
    if pes == [] {
    } else {
      assert pes[|pes| - 1] in pes;
      EndLossesKnown(m, key, pes[..|pes| - 1]);
    }
  }

  /** A key ends, and what it gives up is allowed. */
  lemma KnownEnd(m: Allowed, s: State, t: State, key: string, ls: seq<Loss>)
    requires CausesKnown(m, s) && t.lost == s.lost + ls && forall l :: l in ls ==> MayBeLost(m, l)
    requires t.counts.enqueued == s.counts.enqueued
    requires forall k :: k in t.runtimes && k != key ==>
               k in s.runtimes && t.runtimes[k].pending == s.runtimes[k].pending
    requires key in t.runtimes ==> t.runtimes[key].pending == []
    ensures CausesKnown(m, t)
  {
  }

  lemma HeldMayMerge(cfg: Config, now: int, v: View)
    requires LiveInv(cfg, now, v) && v.rt.value.hold.Some?
    ensures cfg.enableExit && cfg.inferExit && v.rt.value.hold.value.started.Some?
    ensures v.rt.value.hold.value.started.value <= now
  {
  }

  lemma MergeKnown(cfg: Config, m: Allowed, s: State, key: string, now: int, ticking: bool, t: State)
    requires Sound(cfg, now, s) && key in s.runtimes && CausesKnown(m, s) && t == MergeHeld(cfg, s, key, now)
    requires cfg.faceEnabled && cfg.maxProbes > 0
    requires m == AllowedBy(cfg, ticking) && (ticking ==> HoldsBefore(s, now))
    ensures CausesKnown(m, t)
  {
    var found := Continued(cfg, s, s.order, key, now);
    if !(found == [] || (cfg.requireUnique && |found| != 1)) {
      var held := LatestHeld(s, found);
      ContinuedContinues(cfg, s, s.order, key, now, held);
      LiveHere(cfg, now, s, held);
      assert ticking ==> HeldBefore(s.runtimes[held], now);
      HeldMayMerge(cfg, now, ViewOf(s, held));
      KnownHere(m, s, held);
      var pes := s.runtimes[held].pending;
      if pes != [] { assert MayBePending(m, pes[0]); }
      LossesKnown(m, held, pes);
      KnownEnd(m, s, t, held, Losses(held, pes, MergedAway));
    }
  }

  lemma {:induction false} ContinuedContinues(cfg: Config, s: State, keys: seq<string>, key: string, now: int,
                                              k: string)
    requires key in s.runtimes && k in Continued(cfg, s, keys, key, now)
    ensures k in s.runtimes && Continues(cfg, s, k, key, now)
  {
    if keys == [] {
    } else if k in Continued(cfg, s, keys[..|keys| - 1], key, now) {
      ContinuedContinues(cfg, s, keys[..|keys| - 1], key, now, k);
    }
  }

  lemma AfterProbeKnown(cfg: Config, m: Allowed, s: State, key: string, now: int, d: Detection, ticking: bool, t: State)
    requires Sound(cfg, now, s) && key in s.runtimes && s.runtimes[key].employee == None && CausesKnown(m, s)
    requires t == AfterProbe(cfg, s, key, now, d) && cfg.faceEnabled && cfg.maxProbes > 0
    requires m == AllowedBy(cfg, ticking) && (ticking ==> HoldsBefore(s, now))
    ensures CausesKnown(m, t)
  {
    if d.lock.Some? {
      var named := NameRows(s, key, d.lock.value);
      LockKnown(cfg, m, s, key, now, d.lock.value, named);
      if ProbeMayContinue(cfg, d) { MergeKnown(cfg, m, named, key, now, ticking, t); }
    }
  }

  lemma LockKnown(cfg: Config, m: Allowed, s: State, key: string, now: int, lock: Lock, t: State)
    requires Sound(cfg, now, s) && key in s.runtimes && s.runtimes[key].employee == None && CausesKnown(m, s)
    requires t == NameRows(s, key, lock)
    ensures Sound(cfg, now, t) && CausesKnown(m, t) && (HoldsBefore(s, now) ==> HoldsBefore(t, now))
  {
    LockIsSound(cfg, s, key, now, Named(s.runtimes[key], lock), lock.employee);
    KnownHere(m, s, key);
    KnownStep(m, s, t, key);
  }

  lemma IdentifyKnown(cfg: Config, m: Allowed, s: State, key: string, now: int, d: Detection, hadEvent: bool,
                      ticking: bool, t: State)
    requires Sound(cfg, now, s) && key in s.runtimes && CausesKnown(m, s)
    requires m == AllowedBy(cfg, ticking) && (ticking ==> HoldsBefore(s, now))
    requires t == Identify(cfg, s, key, now, d, hadEvent)
    ensures CausesKnown(m, t)
  {
    if Probes(cfg, s.runtimes[key], now, d, hadEvent) {
      var c := Store(s, key, ProbeCounted(s.runtimes[key], now));
      ProbeKnown(cfg, m, s, key, now, ProbeCounted(s.runtimes[key], now), c);
      AfterProbeKnown(cfg, m, c, key, now, d, ticking, t);
    }
  }

  lemma ProbeKnown(cfg: Config, m: Allowed, s: State, key: string, now: int, rt: Runtime, t: State)
    requires Sound(cfg, now, s) && key in s.runtimes && CausesKnown(m, s)
    requires rt == ProbeCounted(s.runtimes[key], now) && t == Store(s, key, rt)
    ensures Sound(cfg, now, t) && CausesKnown(m, t) && (HoldsBefore(s, now) ==> HoldsBefore(t, now))
  {
    KnownHere(m, s, key);
    KnownStep(m, s, t, key);
    if HoldsBefore(s, now) { StoredBefore(s, key, rt, now); }
    StoreIsSound(cfg, s, key, now, rt, t);
  }

  lemma StoredBefore(s: State, key: string, rt: Runtime, now: int)
    requires HoldsBefore(s, now) && key in s.runtimes && rt.hold == s.runtimes[key].hold
    ensures HoldsBefore(Store(s, key, rt), now)
  {
    assert HeldBefore(s.runtimes[key], now);
  }

  lemma DetectKnown(cfg: Config, m: Allowed, s: State, now: int, d: Detection, seen: set<int>, ticking: bool, t: State)
    requires WithinFrame(cfg, s, now, seen, ticking) && (ticking ==> d.raw !in seen) && CausesKnown(m, s)
    requires m == AllowedBy(cfg, ticking) && Observable(cfg.engine, ObservationOf(now, d))
    requires t == Detect(cfg, s, now, d)
    ensures CausesKnown(m, t)
  {
    var key, a, o := KeyOf(s, d.raw), Admit(s, d.raw), ObservationOf(now, d);
    AdmittedIsSightable(cfg, s, now, d.raw);
    AdmittedBefore(cfg, s, now, d.raw, seen, ticking, key);
    AdmitAdds(s, d.raw, now, a);
    AdmitKnown(m, s, d.raw, a);
    SightKnown(cfg, m, a, key, now, o, ticking);
    SightingIsSound(cfg, s, now, d);
    IdentifyKnown(cfg, m, DoorLogic(cfg, a, key, o), key, now, d, Observe(cfg.engine, a.runtimes[key].door, o).1.Some?,
                  ticking, t);
  }

  lemma SightKnown(cfg: Config, m: Allowed, a: State, key: string, now: int, o: Observation, ticking: bool)
    requires key in a.runtimes && Sightable(cfg, now, ViewOf(a, key)) && o.ts == now && CausesKnown(m, a)
    requires m == AllowedBy(cfg, ticking) && Spaced(LogOf(a, key), ticking)
    requires LogOf(a, key) != [] ==> LogOf(a, key)[|LogOf(a, key)| - 1].ts <= now
    requires ticking ==> Before(LogOf(a, key), now) && HoldsBefore(a, now)
    ensures var u := DoorLogic(cfg, a, key, o); CausesKnown(m, u) && (ticking ==> HoldsBefore(u, now))
  {
    var u := DoorLogic(cfg, a, key, o);
    SpacedNext(LogOf(a, key), o, ticking);
    DoorLogicKnown(cfg, m, a, key, now, o, ticking, u);
    DoorLogicAdds(cfg, a, key, o, u);
    if ticking {
      forall k | k in u.runtimes ensures HeldBefore(u.runtimes[k], now) { assert HeldBefore(a.runtimes[k], now); }
    }
  }

  lemma AdmitKnown(m: Allowed, s: State, raw: int, a: State)
    requires CausesKnown(m, s) && a == Admit(s, raw)
    ensures CausesKnown(m, a)
  {
    var key := KeyOf(s, raw);
    if key in s.runtimes { KnownHere(m, s, key); }
    KnownStep(m, s, a, key);
  }

  lemma {:induction false} DetectAllKnown(cfg: Config, m: Allowed, s: State, now: int, ds: seq<Detection>,
                                          ticking: bool)
    returns (t: State)
    requires WithinFrame(cfg, s, now, {}, ticking) && (ticking ==> OneEach(ds))
    requires m == AllowedBy(cfg, ticking) && CausesKnown(m, s)
    requires forall j :: 0 <= j < |ds| ==> Observable(cfg.engine, ObservationOf(now, ds[j]))
    ensures t == DetectAll(cfg, s, now, ds) && WithinFrame(cfg, t, now, RawsOf(ds), ticking) && CausesKnown(m, t)
  {
    if ds == [] {
      t := s;
      assert RawsOf(ds) == {};
    } else {
      var front, d := ds[..|ds| - 1], ds[|ds| - 1];
      LastRaw(front, d, ds);
      var u := DetectAllKnown(cfg, m, s, now, front, ticking);
      t := DetectStaysWithin(cfg, u, now, d, RawsOf(front), ticking);
      DetectKnown(cfg, m, u, now, d, RawsOf(front), ticking, t);
    }
  }

  // The ends of tracks.

  lemma SettleKnown(cfg: Config, m: Allowed, s: State, key: string, now: int, t: State)
    requires key in s.runtimes && CausesKnown(m, s) && t == SettlePending(cfg, s, key, now)
    ensures CausesKnown(m, t)
  {
    KnownHere(m, s, key);
    var pes := s.runtimes[key].pending;
    if t == SettleUnstable(s, key) {
      EndLossesKnown(m, key, pes);
      KnownEnd(m, s, t, key, EndLosses(key, pes));
    } else {
      KnownStep(m, s, t, key);
    }
  }

  lemma ReleaseKnown(cfg: Config, m: Allowed, s: State, key: string, hold: Hold, now: int, mark: Mark, t: State)
    requires key in s.runtimes && CausesKnown(m, s) && t == ReleaseHeld(cfg, s, key, hold, now, mark)
    ensures CausesKnown(m, t)
  {
    var p := SettlePending(cfg, s, key, now);
    SettleKnown(cfg, m, s, key, now, p);
    KnownStep(m, p, t, key);
  }

  lemma EndNowKnown(m: Allowed, s: State, key: string, end: Option<DoorEvent>, now: int, t: State)
    requires key in s.runtimes && CausesKnown(m, s) && t == EndNow(s, key, end, now)
    ensures CausesKnown(m, t)
  {
    KnownStep(m, s, t, key);
  }

  lemma StartHoldKnown(m: Allowed, s: State, key: string, end: DoorEvent, now: int, t: State)
    requires key in s.runtimes && CausesKnown(m, s) && t == StartHold(s, key, end, now)
    ensures CausesKnown(m, t)
  {
    KnownHere(m, s, key);
    KnownStep(m, s, t, key);
  }

  lemma ExpireKnown(cfg: Config, m: Allowed, s: State, key: string, now: int, t: State)
    requires key in s.runtimes && CausesKnown(m, s) && t == Expire(cfg, s, key, now)
    ensures CausesKnown(m, t)
  {
    var rt := s.runtimes[key];
    if cfg.enableExit && rt.hold.Some? {
      var hold := rt.hold.value.(started := Some(rt.hold.value.started.GetOr(now)));
      var dated := Store(s, key, rt.(hold := Some(hold)));
      KnownHere(m, s, key);
      KnownStep(m, s, dated, key);
      ReleaseKnown(cfg, m, dated, key, hold, now, AfterGrace, ReleaseHeld(cfg, dated, key, hold, now, AfterGrace));
    } else {
      EndOrHoldKnown(cfg, m, s, key, now, t);
    }
  }

  lemma EndOrHoldKnown(cfg: Config, m: Allowed, s: State, key: string, now: int, t: State)
    requires key in s.runtimes && CausesKnown(m, s) && t == EndOrHold(cfg, s, key, now)
    ensures CausesKnown(m, t)
  {
    var end, p := Finalize(s.runtimes[key].door, cfg.inferExit), SettlePending(cfg, s, key, now);
    SettleKnown(cfg, m, s, key, now, p);
    if WantsHold(cfg, end) {
      StartHoldKnown(m, s, key, end.value, now, StartHold(s, key, end.value, now));
      StartHoldKnown(m, p, key, end.value, now, StartHold(p, key, end.value, now));
    } else {
      EndNowKnown(m, p, key, end, now, t);
    }
  }

  lemma ConcludeKnown(cfg: Config, m: Allowed, s: State, key: string, now: int, t: State)
    requires key in s.runtimes && CausesKnown(m, s) && t == Conclude(cfg, s, key, now)
    ensures CausesKnown(m, t)
  {
    var rt := s.runtimes[key];
    if cfg.enableExit && rt.hold.Some? {
      ReleaseKnown(cfg, m, s, key, rt.hold.value, now, AtEndOfVideo, t);
    } else {
      var p := SettlePending(cfg, s, key, now);
      SettleKnown(cfg, m, s, key, now, p);
      EndNowKnown(m, p, key, Finalize(rt.door, cfg.inferExit), now, t);
    }
  }

  lemma {:induction false} ExpireAllKnown(cfg: Config, m: Allowed, s: State, keys: seq<string>, now: int)
    requires CausesKnown(m, s)
    ensures CausesKnown(m, ExpireAll(cfg, s, keys, now))
    decreases keys
  {
    if keys == [] {
    } else if keys[0] in s.runtimes {
      ExpireKnown(cfg, m, s, keys[0], now, Expire(cfg, s, keys[0], now));
      ExpireAllKnown(cfg, m, Expire(cfg, s, keys[0], now), keys[1..], now);
    } else {
      ExpireAllKnown(cfg, m, s, keys[1..], now);
    }
  }

  lemma {:induction false} ConcludeAllKnown(cfg: Config, m: Allowed, s: State, keys: seq<string>, now: int)
    requires CausesKnown(m, s)
    ensures CausesKnown(m, ConcludeAll(cfg, s, keys, now))
    decreases keys
  {
    if keys == [] {
    } else if keys[0] in s.runtimes {
      ConcludeKnown(cfg, m, s, keys[0], now, Conclude(cfg, s, keys[0], now));
      ConcludeAllKnown(cfg, m, Conclude(cfg, s, keys[0], now), keys[1..], now);
    } else {
      ConcludeAllKnown(cfg, m, s, keys[1..], now);
    }
  }

  lemma FrameKnown(cfg: Config, m: Allowed, s: State, f: Frame, ticking: bool, t: State)
    requires WithinFrame(cfg, s, f.ts, {}, ticking) && (ticking ==> OneEach(f.detections))
    requires m == AllowedBy(cfg, ticking) && CausesKnown(m, s) && t == FrameStep(cfg, s, f)
    requires forall j :: 0 <= j < |f.detections| ==> Observable(cfg.engine, ObservationOf(f.ts, f.detections[j]))
    ensures CausesKnown(m, t)
  {
    var d := DetectAllKnown(cfg, m, s, f.ts, f.detections, ticking);
    var gone := Missing(cfg, d, d.order, SeenKeys(cfg, s, f.ts, f.detections), f.ts);
    ExpireAllKnown(cfg, m, d, gone, f.ts);
    var u := ExpireAll(cfg, d, gone, f.ts);
    assert Checkpoint(u).runtimes == u.runtimes && Checkpoint(u).lost == u.lost && Checkpoint(u).counts == u.counts;
  }

  lemma {:induction false} FramesKnown(cfg: Config, frames: seq<Frame>, ticking: bool)
    requires Decoded(cfg, frames, ticking)
    ensures CausesKnown(AllowedBy(cfg, ticking), RunFrames(cfg, frames))
  {
    if frames == [] {
    } else {
      var front, f := frames[..|frames| - 1], frames[|frames| - 1];
      DecodedFront(cfg, frames, ticking);
      FramesKnown(cfg, front, ticking);
      EveryLogIsSpaced(cfg, front, ticking);
      FrameBegins(cfg, frames, ticking, RunFrames(cfg, front));
      FrameKnown(cfg, AllowedBy(cfg, ticking), RunFrames(cfg, front), f, ticking, RunFrames(cfg, frames));
    }
  }

  /** Over every run: an event is given up uncounted only for a cause that the
      configuration allows. */
  lemma EveryLossIsAllowed(cfg: Config, frames: seq<Frame>, end: int, ticking: bool)
    requires Decoded(cfg, frames, ticking)
    ensures forall l :: l in RunToEnd(cfg, frames, end).lost ==> MayBeLost(AllowedBy(cfg, ticking), l)
  {
    var s := RunFrames(cfg, frames);
    FramesKnown(cfg, frames, ticking);
    ConcludeAllKnown(cfg, AllowedBy(cfg, ticking), s, s.order, end);
  }

  lemma {:induction false} ZeroTotal(m: map<string, Runtime>, keys: seq<string>)
    requires PendingTotal(m, keys) == 0
    ensures forall k :: k in keys && k in m ==> m[k].pending == []
  {
    if keys == [] {
    } else {
      ZeroTotal(m, keys[1..]);
    }
  }

  /** Nothing has waited, waits, or was lost. */
  ghost predicate NothingWaited(s: State) {
    && s.counts.enqueued == s.counts.flushed == s.counts.dropped == 0 && s.lost == []
    && forall k :: k in s.runtimes ==> s.runtimes[k].pending == []
  }

  /** Unless an event may wait, none ever does. */
  lemma NothingIsEverPending(cfg: Config, frames: seq<Frame>, ticking: bool)
    requires Decoded(cfg, frames, ticking) && !EventMayWait(cfg, ticking)
    ensures NothingWaited(RunFrames(cfg, frames))
  {
    var s := RunFrames(cfg, frames);
    FramesKnown(cfg, frames, ticking);
    EveryReachableStateIsSound(cfg, frames, 0);
    ZeroTotal(s.runtimes, s.order);
  }

  /** The settings that ship with the program, times in microseconds. */
  function Shipped(line: bool, face: bool): (cfg: Config) {
    Config(EngineConfig(3, 2_000_000, 2_000_000, line, true, true), true, true, 600_000, 3, true, 30_000_000,
           0.75, true, 20_000_000, face, 8, 800_000)
  }

  /** With those, the two-phase commit never holds an event back. */
  lemma ShippedHoldsNothingBack(line: bool, face: bool, frames: seq<Frame>)
    requires LegalFrames(Shipped(line, face), frames)
    ensures NothingWaited(RunFrames(Shipped(line, face), frames))
  {
    NothingIsEverPending(Shipped(line, face), frames, false);
  }
}
