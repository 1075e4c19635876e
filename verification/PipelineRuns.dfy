/** The invariant of the whole pipeline, kept by every detection, every missing
    track, every frame, and the end of the video. */
module PipelineRuns {
  import opened Wrappers
  import opened StableSort
  import opened DoorEngine
  import opened Reliability
  import opened TrackKeys
  import opened PipelineSpec
  import opened PipelineViews
  import opened PipelineKeyInvariant
  import opened PipelineCounts

  // ----------------------------------------------------------------- the keys

  /** `order` lists the live keys, each once. */
  ghost predicate Ordered(s: State) {
    NoDup(s.order) && forall k :: k in s.order <==> k in s.runtimes
  }

  /** A name that the allocation counters account for. */
  ghost predicate Issued(reuse: map<int, nat>, key: string) {
    exists raw: int, n: nat :: raw in reuse && 1 <= n <= reuse[raw] && key == KeyName(raw, n)
  }

  /** The live keys are the values of the injective map from tracker ids, and no
      name is handed out that the counters do not know. */
  ghost predicate KeysOk(s: State) {
    && (forall raw :: raw in s.active ==> s.active[raw] in s.runtimes)
    && (forall a, b :: a in s.active && b in s.active && s.active[a] == s.active[b] ==> a == b)
    && (forall k :: k in s.runtimes ==> exists raw :: raw in s.active && s.active[raw] == k)
    && (forall k :: k in s.runtimes || k in s.used ==> Issued(s.reuse, k))
  }

  ghost predicate KeysKept(s: State, t: State) {
    t.order == s.order && t.runtimes.Keys == s.runtimes.Keys && t.used == s.used
    && t.reuse == s.reuse && t.active == s.active
  }

  /** `key`, and nothing else, went from live to used. */
  ghost predicate KeyRetired(s: State, t: State, key: string) {
    && key in s.runtimes
    && t.order == Remove(s.order, key) && t.runtimes.Keys == s.runtimes.Keys - {key} && t.used == s.used + {key}
    && t.reuse == s.reuse && t.active == (map raw | raw in s.active && s.active[raw] != key :: s.active[raw])
  }

  lemma KeptStaysOk(s: State, t: State)
    requires Ordered(s) && KeysOk(s) && KeysKept(s, t)
    ensures Ordered(t) && KeysOk(t)
  {
    assert forall k :: k in s.runtimes <==> k in s.runtimes.Keys;
    assert forall k :: k in t.runtimes <==> k in t.runtimes.Keys;
  }

  lemma RetiredStaysOk(s: State, t: State, key: string)
    requires Ordered(s) && KeysOk(s) && KeyRetired(s, t, key)
    ensures Ordered(t) && KeysOk(t)
  {
    RemoveElems(s.order, key);
    assert forall k :: k in s.runtimes <==> k in s.runtimes.Keys;
    assert forall k :: k in t.runtimes <==> k in t.runtimes.Keys;
    forall k | k in t.runtimes ensures exists raw :: raw in t.active && t.active[raw] == k {
      var raw :| raw in s.active && s.active[raw] == k;
      assert raw in t.active && t.active[raw] == k;
    }
  }

  /** The allocation search accepts its first candidate. */
  lemma FirstCandidateAccepted(s: State, raw: int)
    requires KeysOk(s) && raw !in s.active
    ensures NextUse(s, raw) == (if raw in s.reuse then s.reuse[raw] else 0) + 1
    ensures KeyOf(s, raw) !in s.runtimes && KeyOf(s, raw) !in s.used
  {
    var n := (if raw in s.reuse then s.reuse[raw] else 0) + 1;
    var key := KeyName(raw, n);
    if key in s.used + s.runtimes.Keys {
      assert Issued(s.reuse, key);
      var r: int, m: nat :| r in s.reuse && 1 <= m <= s.reuse[r] && key == KeyName(r, m);
      KeyNameInjective(raw, n, r, m);
    }
  }

  /** A fresh key for a tracker id that had none. */
  lemma FreshKeyOk(s: State, t: State, raw: int, key: string, n: nat)
    requires Ordered(s) && KeysOk(s) && raw !in s.active && key !in s.runtimes && key !in s.used
    requires key == KeyName(raw, n) && n == (if raw in s.reuse then s.reuse[raw] else 0) + 1
    requires t.runtimes.Keys == s.runtimes.Keys + {key} && t.order == s.order + [key] && t.used == s.used
    requires t.reuse == s.reuse[raw := n] && t.active == s.active[raw := key]
    ensures Ordered(t) && KeysOk(t)
  {
    assert forall k :: k in t.runtimes <==> k in s.runtimes || k == key by {
      assert forall k :: k in t.runtimes <==> k in t.runtimes.Keys;
    }
    FreshIssued(s.reuse, raw, n);
    FreshActive(s, t, raw, key);
    NoDupAppend(s.order, key);
  }

  lemma NoDupAppend(keys: seq<string>, key: string)
    requires NoDup(keys) && key !in keys
    ensures NoDup(keys + [key]) && forall k :: k in keys + [key] <==> k in keys || k == key
  {
  }

  lemma FreshActive(s: State, t: State, raw: int, key: string)
    requires KeysOk(s) && raw !in s.active && key !in s.runtimes
    requires t.active == s.active[raw := key] && forall k :: k in t.runtimes <==> k in s.runtimes || k == key
    ensures forall r :: r in t.active ==> t.active[r] in t.runtimes
    ensures forall a, b :: a in t.active && b in t.active && t.active[a] == t.active[b] ==> a == b
    ensures forall k :: k in t.runtimes ==> exists r :: r in t.active && t.active[r] == k
  {
    assert raw in t.active && t.active[raw] == key;
    forall k | k in t.runtimes ensures exists r :: r in t.active && t.active[r] == k {
      if k != key {
        var r :| r in s.active && s.active[r] == k;
        assert r in t.active && t.active[r] == k;
      }
    }
  }

  lemma FreshIssued(reuse: map<int, nat>, raw: int, n: nat)
    requires n == (if raw in reuse then reuse[raw] else 0) + 1
    ensures Issued(reuse[raw := n], KeyName(raw, n))
    ensures forall k :: Issued(reuse, k) ==> Issued(reuse[raw := n], k)
  {
    var more := reuse[raw := n];
    assert raw in more && 1 <= n <= more[raw];
    forall k | Issued(reuse, k) ensures Issued(more, k) {
      var r: int, m: nat :| r in reuse && 1 <= m <= reuse[r] && k == KeyName(r, m);
      assert r in more && 1 <= m <= more[r];
    }
  }

  lemma AdmittedStaysOk(s: State, raw: int)
    requires Ordered(s) && KeysOk(s)
    ensures Ordered(Admit(s, raw)) && KeysOk(Admit(s, raw))
    ensures KeyOf(s, raw) in s.order <==> KeyOf(s, raw) in s.runtimes
    ensures raw !in s.active ==> KeyOf(s, raw) !in s.runtimes && KeyOf(s, raw) !in s.used
  {
    if raw !in s.active {
      FirstCandidateAccepted(s, raw);
      FreshKeyOk(s, Admit(s, raw), raw, KeyOf(s, raw), NextUse(s, raw));
    }
  }

  lemma SightKeepsKeys(cfg: Config, s: State, key: string, o: Observation)
    requires key in s.runtimes
    ensures KeysKept(s, See(cfg, s, key, o))
  {
  }

  lemma OfferKeepsKeys(cfg: Config, s: State, key: string, pe: Pending, now: int)
    requires key in s.runtimes
    ensures KeysKept(s, Offer(cfg, s, key, pe, now))
  {
  }

  lemma FlushKeepsKeys(cfg: Config, s: State, key: string, now: int)
    requires key in s.runtimes
    ensures KeysKept(s, FlushIfReady(cfg, s, key, now))
  {
  }

  lemma DoorLogicKeepsKeys(cfg: Config, s: State, key: string, o: Observation)
    requires key in s.runtimes
    ensures KeysKept(s, DoorLogic(cfg, s, key, o))
  {
    var event := Observe(cfg.engine, s.runtimes[key].door, o).1;
    var seen := See(cfg, s, key, o);
    SightKeepsKeys(cfg, s, key, o);
    var offered := if event.Some? then Offer(cfg, seen, key, ToPending(event.value), o.ts) else seen;
    if event.Some? { OfferKeepsKeys(cfg, seen, key, ToPending(event.value), o.ts); }
    FlushKeepsKeys(cfg, offered, key, o.ts);
  }

  lemma LockKeepsKeys(s: State, key: string, rt: Runtime, e: Employee)
    requires key in s.runtimes
    ensures KeysKept(s, Backfill(Flush(Store(s, key, rt)), key, e)) && KeysKept(s, Store(s, key, rt))
  {
  }

  // ------------------------------------------------------------ the invariant

  ghost predicate Sound(cfg: Config, now: int, s: State) {
    && Ordered(s) && KeysOk(s) && Balances(s)
    && forall k :: KeyInv(cfg, now, ViewOf(s, k))
  }

  lemma SoundLater(cfg: Config, now: int, later: int, s: State)
    requires Sound(cfg, now, s) && now <= later
    ensures Sound(cfg, later, s)
  {
    forall k ensures KeyInv(cfg, later, ViewOf(s, k)) {
      KeyInvLater(cfg, now, later, ViewOf(s, k));
    }
  }

  lemma LiveHere(cfg: Config, now: int, s: State, key: string)
    requires Sound(cfg, now, s) && key in s.runtimes
    ensures LiveInv(cfg, now, ViewOf(s, key)) && Listed(s, key)
    ensures s.runtimes[key].hold.Some? ==> cfg.enableExit
  {
    assert KeyInv(cfg, now, ViewOf(s, key));
    LiveHolds(cfg, now, ViewOf(s, key));
  }

  lemma LiveHolds(cfg: Config, now: int, v: View)
    requires LiveInv(cfg, now, v)
    ensures v.rt.value.hold.Some? ==> cfg.enableExit
  {
  }

  lemma SoundFrom(cfg: Config, now: int, s: State, t: State, key: string)
    requires forall k :: k != key ==> KeyInv(cfg, now, ViewOf(s, k))
    requires OnlyKey(s, t, key) && KeyInv(cfg, now, ViewOf(t, key))
    requires Ordered(t) && KeysOk(t) && Balances(t)
    ensures Sound(cfg, now, t)
  {
    forall k ensures KeyInv(cfg, now, ViewOf(t, k)) {
      if k != key { assert ViewOf(t, k) == ViewOf(s, k); }
    }
  }

  lemma EmptyIsSound(cfg: Config, now: int)
    ensures Sound(cfg, now, INITIAL)
  {
    forall k ensures ViewOf(INITIAL, k) == UNSEEN {
      assert INITIAL.table + INITIAL.buffer == [];
    }
    assert Held(INITIAL.runtimes) == {};
  }

  // ---------------------------------------------------------------- detection

  /** The state between the allocation of the key and the face probe. */
  lemma SightingIsSound(cfg: Config, s: State, now: int, d: Detection)
    requires Sound(cfg, now, s) && Observable(cfg.engine, ObservationOf(now, d))
    ensures var key, a := KeyOf(s, d.raw), Admit(s, d.raw);
      && key in a.runtimes && Sound(cfg, now, DoorLogic(cfg, a, key, ObservationOf(now, d)))
  {
    var key, a, o := KeyOf(s, d.raw), Admit(s, d.raw), ObservationOf(now, d);
    AdmitView(s, d.raw);
    AdmittedStaysOk(s, d.raw);
    AdmitBalances(s, d.raw);
    AdmittedIsSightable(cfg, s, now, d.raw);
    DoorLogicKeeps(cfg, a, key, now, o);
    DoorLogicKeepsKeys(cfg, a, key, o);
    KeptStaysOk(a, DoorLogic(cfg, a, key, o));
    DoorLogicBalances(cfg, a, key, o);
    SoundFrom(cfg, now, a, DoorLogic(cfg, a, key, o), key);
  }

  lemma AdmittedIsSightable(cfg: Config, s: State, now: int, raw: int)
    requires Sound(cfg, now, s)
    ensures var key, a := KeyOf(s, raw), Admit(s, raw);
      && key in a.runtimes && Sightable(cfg, now, ViewOf(a, key))
      && (a.runtimes[key].hold.Some? ==> cfg.enableExit)
      && forall k :: k != key ==> KeyInv(cfg, now, ViewOf(a, k))
  {
    var key, a := KeyOf(s, raw), Admit(s, raw);
    AdmitView(s, raw);
    assert KeyInv(cfg, now, ViewOf(s, key));
    if key in s.runtimes {
      LiveHere(cfg, now, s, key);
    } else {
      AdmittedStaysOk(s, raw);
      assert key !in s.used;
      UnseenHere(cfg, now, ViewOf(s, key));
    }
    forall k | k != key ensures KeyInv(cfg, now, ViewOf(a, k)) {
      assert ViewOf(a, k) == ViewOf(s, k) && KeyInv(cfg, now, ViewOf(s, k));
    }
  }

  lemma UnseenHere(cfg: Config, now: int, v: View)
    requires KeyInv(cfg, now, v) && v.rt == None && !v.retired
    ensures v == UNSEEN
  {
  }

  lemma DoorLogicBalances(cfg: Config, s: State, key: string, o: Observation)
    requires Balances(s) && Listed(s, key) && (s.runtimes[key].hold.Some? ==> cfg.enableExit)
    ensures Balances(DoorLogic(cfg, s, key, o))
  {
    var event := Observe(cfg.engine, s.runtimes[key].door, o).1;
    var seen := See(cfg, s, key, o);
    SeeBalances(cfg, s, key, o);
    var offered := if event.Some? then Offer(cfg, seen, key, ToPending(event.value), o.ts) else seen;
    if event.Some? { OfferBalances(cfg, seen, key, ToPending(event.value), o.ts); }
    FlushIfReadyBalances(cfg, offered, key, o.ts);
  }

  lemma MergeIsSound(cfg: Config, s: State, key: string, now: int)
    requires Sound(cfg, now, s) && key in s.runtimes
    ensures Sound(cfg, now, MergeHeld(cfg, s, key, now))
  {
    var found := Continued(cfg, s, s.order, key, now);
    if !(found == [] || (cfg.requireUnique && |found| != 1)) {
      var held := LatestHeld(s, found);
      var t := MergeAway(s, held, now);
      LiveHere(cfg, now, s, held);
      MergeAwayKeeps(cfg, s, held, now);
      MergeAwayBalances(s, held, now);
      RetiredStaysOk(s, t, held);
      SoundFrom(cfg, now, s, t, held);
    }
  }

  lemma StoreIsSound(cfg: Config, s: State, key: string, now: int, rt: Runtime, t: State)
    requires Sound(cfg, now, s) && key in s.runtimes && t == Store(s, key, rt)
    requires rt == s.runtimes[key].(probes := rt.probes, lastProbe := rt.lastProbe)
    ensures Sound(cfg, now, t)
  {
    LiveHere(cfg, now, s, key);
    ProbeKeeps(cfg, s, key, now, rt);
    StoreBalances(s, key, rt);
    KeptStaysOk(s, t);
    SoundFrom(cfg, now, s, t, key);
  }

  lemma LockIsSound(cfg: Config, s: State, key: string, now: int, rt: Runtime, e: Employee)
    requires Sound(cfg, now, s) && key in s.runtimes
    requires s.runtimes[key].employee == None && rt.employee == Some(e)
    requires rt == s.runtimes[key].(employee := rt.employee, confidence := rt.confidence, probes := rt.probes,
                                    lastProbe := rt.lastProbe)
    ensures Sound(cfg, now, Backfill(Flush(Store(s, key, rt)), key, e))
  {
    var t := Backfill(Flush(Store(s, key, rt)), key, e);
    LiveHere(cfg, now, s, key);
    LockKeeps(cfg, s, key, now, rt, e);
    StoreBalances(s, key, rt);
    LockKeepsKeys(s, key, rt, e);
    KeptStaysOk(s, t);
    SoundFrom(cfg, now, s, t, key);
  }

  lemma ContinuityIsSound(cfg: Config, s: State, key: string, now: int, lock: Lock, continuing: bool)
    requires Sound(cfg, now, s) && key in s.runtimes && s.runtimes[key].employee == None
    ensures Sound(cfg, now, LockIdentity(cfg, s, key, now, lock, continuing))
  {
    LockIsSound(cfg, s, key, now, Named(s.runtimes[key], lock), lock.employee);
    if continuing { MergeIsSound(cfg, NameRows(s, key, lock), key, now); }
  }

  lemma AfterProbeIsSound(cfg: Config, s: State, key: string, now: int, d: Detection)
    requires Sound(cfg, now, s) && key in s.runtimes && s.runtimes[key].employee == None
    ensures Sound(cfg, now, AfterProbe(cfg, s, key, now, d))
  {
    if d.lock.Some? {
      ContinuityIsSound(cfg, s, key, now, d.lock.value, ProbeMayContinue(cfg, d));
    }
  }

  lemma IdentifyIsSound(cfg: Config, s: State, key: string, now: int, d: Detection, hadEvent: bool, t: State)
    requires Sound(cfg, now, s) && key in s.runtimes && t == Identify(cfg, s, key, now, d, hadEvent)
    ensures Sound(cfg, now, t)
  {
    if Probes(cfg, s.runtimes[key], now, d, hadEvent) {
      var rt := ProbeCounted(s.runtimes[key], now);
      var c := Store(s, key, rt);
      StoreIsSound(cfg, s, key, now, rt, c);
      AfterProbeIsSound(cfg, c, key, now, d);
    }
  }

  lemma DetectIsSound(cfg: Config, s: State, now: int, d: Detection)
    requires Sound(cfg, now, s) && Observable(cfg.engine, ObservationOf(now, d))
    ensures Sound(cfg, now, Detect(cfg, s, now, d))
  {
    var key, a, o := KeyOf(s, d.raw), Admit(s, d.raw), ObservationOf(now, d);
    SightingIsSound(cfg, s, now, d);
    IdentifyIsSound(cfg, DoorLogic(cfg, a, key, o), key, now, d, Observe(cfg.engine, a.runtimes[key].door, o).1.Some?,
                    Detect(cfg, s, now, d));
  }

  lemma {:induction false} DetectAllIsSound(cfg: Config, s: State, now: int, ds: seq<Detection>)
    requires Sound(cfg, now, s)
    requires forall j :: 0 <= j < |ds| ==> Observable(cfg.engine, ObservationOf(now, ds[j]))
    ensures Sound(cfg, now, DetectAll(cfg, s, now, ds))
  {
    if ds == [] {
    } else {
      DetectAllIsSound(cfg, s, now, ds[..|ds| - 1]);
      DetectIsSound(cfg, DetectAll(cfg, s, now, ds[..|ds| - 1]), now, ds[|ds| - 1]);
    }
  }

  // ------------------------------------------------------------ ends of tracks

  /** What `SettlePending` leaves pending. */
  lemma SettledHere(cfg: Config, s: State, key: string, now: int)
    requires key in s.runtimes && LiveInv(cfg, now, ViewOf(s, key))
    ensures SettlePending(cfg, s, key, now).runtimes[key].pending == []
    ensures KeysKept(s, SettlePending(cfg, s, key, now))
  {
    NothingWithoutFlag(cfg, now, ViewOf(s, key));
    SettleKeepsKeys(cfg, s, key, now);
  }

  lemma SettleKeepsKeys(cfg: Config, s: State, key: string, now: int)
    requires key in s.runtimes
    ensures KeysKept(s, SettlePending(cfg, s, key, now))
    ensures cfg.enablePending ==> SettlePending(cfg, s, key, now).runtimes[key].pending == []
  {
  }

  lemma NothingWithoutFlag(cfg: Config, now: int, v: View)
    requires LiveInv(cfg, now, v)
    ensures v.rt.value.pending != [] ==> cfg.enablePending
  {
  }

  lemma ReleaseHeldIsSound(cfg: Config, s: State, key: string, now: int, mark: Mark)
    requires Sound(cfg, now, s) && key in s.runtimes && s.runtimes[key].hold.Some?
    ensures Sound(cfg, now, ReleaseHeld(cfg, s, key, s.runtimes[key].hold.value, now, mark))
  {
    var hold := s.runtimes[key].hold.value;
    var t := ReleaseHeld(cfg, s, key, hold, now, mark);
    LiveHere(cfg, now, s, key);
    SettledHere(cfg, s, key, now);
    ReleaseHeldKeeps(cfg, s, key, now, mark);
    ReleaseHeldBalances(cfg, s, key, hold, now, mark);
    KeptStaysOk(s, SettlePending(cfg, s, key, now));
    RetiredStaysOk(SettlePending(cfg, s, key, now), t, key);
    SoundFrom(cfg, now, s, t, key);
  }

  lemma EndPlainIsSound(cfg: Config, s: State, key: string, now: int)
    requires Sound(cfg, now, s) && key in s.runtimes && !s.runtimes[key].hold.Some?
    ensures Sound(cfg, now, EndNow(SettlePending(cfg, s, key, now), key,
                                  Finalize(s.runtimes[key].door, cfg.inferExit), now))
  {
    var p := SettlePending(cfg, s, key, now);
    var end := Finalize(s.runtimes[key].door, cfg.inferExit);
    var t := EndNow(p, key, end, now);
    LiveHere(cfg, now, s, key);
    SettledHere(cfg, s, key, now);
    SettleKeeps(cfg, s, key, now);
    EndNowKeeps(cfg, p, key, now);
    SettleBalances(cfg, s, key, now);
    EndNowBalances(p, key, end, now);
    KeptStaysOk(s, p);
    RetiredStaysOk(p, t, key);
    OnlyKeyTrans(s, p, t, key);
    SoundFrom(cfg, now, s, t, key);
  }

  lemma StartHoldIsSound(cfg: Config, s: State, key: string, now: int, end: DoorEvent)
    requires Sound(cfg, now, s) && key in s.runtimes && !s.runtimes[key].hold.Some? && cfg.enableExit
    requires Finalize(s.runtimes[key].door, cfg.inferExit) == Some(end) && end.reason == TrackEndedInside
    requires now - s.runtimes[key].lastTs.GetOr(now) > cfg.ttl
    ensures Sound(cfg, now, StartHold(s, key, end, now))
  {
    LiveHere(cfg, now, s, key);
    StartHoldState(cfg, s, key, now, end);
    StartHoldBalances(s, key, end, now);
    KeptStaysOk(s, StartHold(s, key, end, now));
    SoundFrom(cfg, now, s, StartHold(s, key, end, now), key);
  }

  lemma EndOrHoldIsSound(cfg: Config, s: State, key: string, now: int)
    requires Sound(cfg, now, s) && key in s.runtimes && !s.runtimes[key].hold.Some?
    requires now - s.runtimes[key].lastTs.GetOr(now) > cfg.ttl
    ensures Sound(cfg, now, EndOrHold(cfg, s, key, now))
  {
    var rt, v := s.runtimes[key], ViewOf(s, key);
    var end := Finalize(rt.door, cfg.inferExit);
    LiveHere(cfg, now, s, key);
    if WantsHold(cfg, end) {
      if rt.pending != [] { EndCommitsNeverFire(cfg, now, v); }
      assert rt.pending == [] ==> SettlePending(cfg, s, key, now) == s;
      StartHoldIsSound(cfg, s, key, now, end.value);
    } else {
      EndPlainIsSound(cfg, s, key, now);
    }
  }

  lemma AwaitGraceIsSound(cfg: Config, s: State, key: string, now: int)
    requires Sound(cfg, now, s) && key in s.runtimes && s.runtimes[key].hold.Some?
    ensures Sound(cfg, now, AwaitGrace(cfg, s, key, now))
    ensures Store(s, key, s.runtimes[key]) == s && s.runtimes[key].hold.value.started.Some?
  {
    var rt := s.runtimes[key];
    LiveHere(cfg, now, s, key);
    HeldSince(cfg, now, ViewOf(s, key));
    DatingIsIdle(s, key, now);
    ReleaseHeldIsSound(cfg, s, key, now, AfterGrace);
  }

  /** A hold already has its starting time, so dating it changes nothing. */
  lemma DatingIsIdle(s: State, key: string, now: int)
    requires key in s.runtimes && s.runtimes[key].hold.Some? && s.runtimes[key].hold.value.started.Some?
    ensures var rt := s.runtimes[key]; var hold := rt.hold.value.(started := Some(rt.hold.value.started.GetOr(now)));
      hold == rt.hold.value && Store(s, key, rt.(hold := Some(hold))) == s && Store(s, key, rt) == s
  {
    var rt := s.runtimes[key];
    assert rt.(hold := Some(rt.hold.value)) == rt;
    assert s.runtimes[key := rt] == s.runtimes;
  }

  lemma HeldSince(cfg: Config, now: int, v: View)
    requires LiveInv(cfg, now, v) && v.rt.value.hold.Some?
    ensures v.rt.value.hold.value.started.Some? && v.rt.value.lastTs.Some?
    ensures v.rt.value.hold.value.started.value - v.rt.value.lastTs.value > cfg.ttl
  {
  }

  /** A track that a frame at `now` finds missing. */
  ghost predicate Overdue(cfg: Config, s: State, key: string, now: int) {
    key in s.runtimes && s.runtimes[key].lastTs.Some? && now - s.runtimes[key].lastTs.value > cfg.ttl
  }

  lemma ExpireIsSound(cfg: Config, s: State, key: string, now: int)
    requires Sound(cfg, now, s) && Overdue(cfg, s, key, now)
    ensures Sound(cfg, now, Expire(cfg, s, key, now)) && OnlyKey(s, Expire(cfg, s, key, now), key)
  {
    LiveHere(cfg, now, s, key);
    ExpireKeeps(cfg, s, key, now);
    if s.runtimes[key].hold.Some? {
      AwaitGraceIsSound(cfg, s, key, now);
    } else {
      EndOrHoldIsSound(cfg, s, key, now);
    }
  }

  lemma OverdueStays(cfg: Config, s: State, t: State, key: string, k: string, now: int)
    requires OnlyKey(s, t, key) && k != key && Overdue(cfg, s, k, now)
    ensures Overdue(cfg, t, k, now)
  {
    assert ViewOf(t, k) == ViewOf(s, k);
  }

  lemma {:induction false} ExpireAllIsSound(cfg: Config, s: State, keys: seq<string>, now: int)
    requires Sound(cfg, now, s) && NoDup(keys) && forall k :: k in keys ==> Overdue(cfg, s, k, now)
    ensures Sound(cfg, now, ExpireAll(cfg, s, keys, now))
    decreases keys
  {
    if keys == [] {
    } else {
      var key := keys[0];
      assert Overdue(cfg, s, key, now);
      ExpireIsSound(cfg, s, key, now);
      var t := Expire(cfg, s, key, now);
      forall k | k in keys[1..] ensures Overdue(cfg, t, k, now) {
        OverdueStays(cfg, s, t, key, k, now);
      }
      ExpireAllIsSound(cfg, t, keys[1..], now);
    }
  }

  lemma {:induction false} MissingAreOverdue(cfg: Config, s: State, keys: seq<string>, seen: set<string>, now: int)
    requires NoDup(keys)
    ensures var r := Missing(cfg, s, keys, seen, now);
      NoDup(r) && forall k :: k in r ==> k in keys && Overdue(cfg, s, k, now)
  {
    if keys == [] {
    } else {
      var front, last := keys[..|keys| - 1], keys[|keys| - 1];
      MissingAreOverdue(cfg, s, front, seen, now);
      assert last !in front;
    }
  }

  lemma ConcludeIsSound(cfg: Config, s: State, key: string, now: int)
    requires Sound(cfg, now, s) && key in s.runtimes
    ensures Sound(cfg, now, Conclude(cfg, s, key, now))
  {
    LiveHere(cfg, now, s, key);
    if s.runtimes[key].hold.Some? {
      ReleaseHeldIsSound(cfg, s, key, now, AtEndOfVideo);
    } else {
      EndPlainIsSound(cfg, s, key, now);
    }
  }

  lemma {:induction false} ConcludeAllIsSound(cfg: Config, s: State, keys: seq<string>, now: int)
    requires Sound(cfg, now, s) && NoDup(keys) && forall k :: k in keys ==> k in s.runtimes
    ensures Sound(cfg, now, ConcludeAll(cfg, s, keys, now))
    decreases keys
  {
    if keys == [] {
    } else {
      ConcludeIsSound(cfg, s, keys[0], now);
      ConcludeRemoves(cfg, s, keys, now);
      ConcludeAllIsSound(cfg, Conclude(cfg, s, keys[0], now), keys[1..], now);
    }
  }

  lemma {:induction false} ConcludeAllEnds(cfg: Config, s: State, keys: seq<string>, now: int)
    requires NoDup(keys) && forall k :: k in keys ==> k in s.runtimes
    ensures ConcludeAll(cfg, s, keys, now).runtimes.Keys == s.runtimes.Keys - Elems(keys)
    decreases keys
  {
    if keys == [] {
    } else {
      ConcludeRemoves(cfg, s, keys, now);
      ConcludeAllEnds(cfg, Conclude(cfg, s, keys[0], now), keys[1..], now);
    }
  }

  lemma ConcludeRemoves(cfg: Config, s: State, keys: seq<string>, now: int)
    requires keys != [] && NoDup(keys) && forall k :: k in keys ==> k in s.runtimes
    ensures var t := Conclude(cfg, s, keys[0], now);
      && (forall k :: k in keys[1..] ==> k in t.runtimes)
      && t.runtimes.Keys - Elems(keys[1..]) == s.runtimes.Keys - Elems(keys)
  {
    var t := Conclude(cfg, s, keys[0], now);
    assert Elems(keys) == {keys[0]} + Elems(keys[1..]);
    forall k | k in keys[1..] ensures k in t.runtimes {
      assert k in t.runtimes.Keys;
    }
  }

  // -------------------------------------------------------------------- runs

  lemma FlushIsSound(cfg: Config, s: State, now: int)
    requires Sound(cfg, now, s)
    ensures Sound(cfg, now, Flush(s))
  {
    FlushView(s);
    KeptStaysOk(s, Flush(s));
    forall k ensures KeyInv(cfg, now, ViewOf(Flush(s), k)) {
      assert KeyInv(cfg, now, ViewOf(s, k)) && ViewOf(Flush(s), k) == ViewOf(s, k);
    }
  }

  lemma CheckpointIsSound(cfg: Config, s: State, now: int)
    requires Sound(cfg, now, s)
    ensures Sound(cfg, now, Checkpoint(s))
  {
    if s.unsaved >= CHECKPOINT {
      var f, c := Flush(s), Checkpoint(s);
      FlushIsSound(cfg, s, now);
      KeptStaysOk(f, c);
      forall k ensures KeyInv(cfg, now, ViewOf(c, k)) {
        assert KeyInv(cfg, now, ViewOf(f, k)) && ViewOf(c, k) == ViewOf(f, k);
      }
    }
  }

  lemma FrameIsSound(cfg: Config, s: State, now: int, f: Frame)
    requires Sound(cfg, now, s) && now <= f.ts
    requires forall j :: 0 <= j < |f.detections| ==> Observable(cfg.engine, ObservationOf(f.ts, f.detections[j]))
    ensures Sound(cfg, f.ts, FrameStep(cfg, s, f))
  {
    SoundLater(cfg, now, f.ts, s);
    DetectAllIsSound(cfg, s, f.ts, f.detections);
    var t, seen := DetectAll(cfg, s, f.ts, f.detections), SeenKeys(cfg, s, f.ts, f.detections);
    MissingAreOverdue(cfg, t, t.order, seen, f.ts);
    ExpireAllIsSound(cfg, t, Missing(cfg, t, t.order, seen, f.ts), f.ts);
    CheckpointIsSound(cfg, ExpireAll(cfg, t, Missing(cfg, t, t.order, seen, f.ts), f.ts), f.ts);
  }

  /** The time of the last frame. */
  function LastTime(frames: seq<Frame>, none: int): (r: int) {
    if frames == [] then none else frames[|frames| - 1].ts
  }

  /** Every state that a run reaches between frames is sound. */
  lemma {:induction false} EveryReachableStateIsSound(cfg: Config, frames: seq<Frame>, none: int)
    requires LegalFrames(cfg, frames)
    ensures Sound(cfg, LastTime(frames, none), RunFrames(cfg, frames))
  {
    if frames == [] {
      EmptyIsSound(cfg, none);
    } else {
      var front, f := frames[..|frames| - 1], frames[|frames| - 1];
      EveryReachableStateIsSound(cfg, front, f.ts);
      FrameIsSound(cfg, RunFrames(cfg, front), LastTime(front, f.ts), f);
    }
  }

  /** So is the state a run returns with, and nothing is live in it any more. */
  lemma ReturnedStateIsSound(cfg: Config, frames: seq<Frame>, end: int)
    requires LegalFrames(cfg, frames) && LastTime(frames, end) <= end
    ensures Sound(cfg, end, RunToEnd(cfg, frames, end))
    ensures RunToEnd(cfg, frames, end).runtimes == map[] && RunToEnd(cfg, frames, end).buffer == []
  {
    var s := RunFrames(cfg, frames);
    EveryReachableStateIsSound(cfg, frames, end);
    SoundLater(cfg, LastTime(frames, end), end, s);
    ConcludeAllIsSound(cfg, s, s.order, end);
    ConcludeAllEnds(cfg, s, s.order, end);
    var t := ConcludeAll(cfg, s, s.order, end);
    assert t.runtimes.Keys == {} by {
      forall k | k in s.runtimes.Keys ensures k in Elems(s.order) { }
    }
    FlushIsSound(cfg, t, end);
  }
}
