/** What the decoder makes sure of: detector frames come one after the other, never at the
    same instant, and the tracker names no two boxes of a frame alike. Then no track is
    sighted twice at one instant. */
module PipelineSpacing {
  import opened Wrappers
  import opened DoorEngine
  import opened Reliability
  import opened TrackKeys
  import opened PipelineSpec
  import opened PipelineViews
  import opened PipelineKeyInvariant
  import opened PipelineCounts
  import opened PipelineRuns

  ghost predicate OneEach(ds: seq<Detection>) {
    forall i, j :: 0 <= i < j < |ds| ==> ds[i].raw != ds[j].raw
  }

  ghost predicate OneAfterTheOther(frames: seq<Frame>) {
    && (forall i, j :: 0 <= i < j < |frames| ==> frames[i].ts < frames[j].ts)
    && (forall i :: 0 <= i < |frames| ==> OneEach(frames[i].detections))
  }

  /** Legal frames, and with a ticking clock one after the other. */
  ghost predicate Decoded(cfg: Config, frames: seq<Frame>, ticking: bool) {
    LegalFrames(cfg, frames) && (ticking ==> OneAfterTheOther(frames))
  }

  /** The least time that `k` sightings of one track take. */
  function Span(k: int, ticking: bool): (r: int) {
    if ticking then k - 1 else 0
  }

  /** No sighting comes earlier than its number allows. */
  ghost predicate Spaced(obs: seq<Observation>, ticking: bool) {
    TimeOrdered(obs) && forall i :: 0 <= i < |obs| ==> obs[i].ts - obs[0].ts >= Span(i + 1, ticking)
  }

  ghost predicate Before(obs: seq<Observation>, now: int) {
    obs != [] ==> obs[|obs| - 1].ts < now
  }

  lemma SpacedNext(obs: seq<Observation>, o: Observation, ticking: bool)
    requires Spaced(obs, ticking) && (obs != [] ==> obs[|obs| - 1].ts <= o.ts) && (ticking ==> Before(obs, o.ts))
    ensures Spaced(obs + [o], ticking)
  {
    var all := obs + [o];
    forall i, j | 0 <= i < j < |all| ensures all[i].ts <= all[j].ts {
      assert i < |obs| - 1 ==> obs[i].ts <= obs[|obs| - 1].ts;
    }
  }

  lemma SpacedFront(obs: seq<Observation>, o: Observation, ticking: bool)
    requires Spaced(obs + [o], ticking)
    ensures Spaced(obs, ticking)
    ensures obs != [] ==> obs[|obs| - 1].ts <= o.ts && o.ts - obs[0].ts >= Span(|obs| + 1, ticking)
  {
    var all := obs + [o];
    assert forall i :: 0 <= i < |obs| ==> obs[i] == all[i];
    assert all[|obs|] == o;
  }

  // ------------------------------------------------------------- every log is spaced

  ghost predicate LogsSpaced(s: State, ticking: bool) {
    forall k :: k in s.log ==> Spaced(s.log[k], ticking)
  }

  /** Of the tracks not yet seen in a frame, nothing is from its instant, and no hold is. */
  ghost predicate AllBefore(s: State, now: int, seen: set<int>) {
    && (forall raw :: raw in s.active && raw !in seen ==> Before(LogOf(s, s.active[raw]), now))
    && HoldsBefore(s, now)
  }

  ghost predicate HoldsBefore(s: State, now: int) {
    forall k :: k in s.runtimes ==> HeldBefore(s.runtimes[k], now)
  }

  ghost predicate HeldBefore(rt: Runtime, now: int) {
    rt.hold.Some? && rt.hold.value.started.Some? ==> rt.hold.value.started.value < now
  }

  lemma LiveBefore(cfg: Config, before: int, now: int, v: View)
    requires LiveInv(cfg, before, v) && before < now
    ensures Before(v.log, now) && HeldBefore(v.rt.value, now)
  {
  }

  lemma FrameStarts(cfg: Config, before: int, s: State, now: int)
    requires Sound(cfg, before, s) && before < now
    ensures AllBefore(s, now, {})
  {
    forall raw | raw in s.active ensures Before(LogOf(s, s.active[raw]), now) {
      LiveHere(cfg, before, s, s.active[raw]);
      LiveBefore(cfg, before, now, ViewOf(s, s.active[raw]));
    }
    forall k | k in s.runtimes ensures HeldBefore(s.runtimes[k], now) {
      LiveHere(cfg, before, s, k);
      LiveBefore(cfg, before, now, ViewOf(s, k));
    }
  }

  // The effects of one detection on logs, ids and holds.

  /** Nothing new: `t` has the logs of `s`, and no id and no hold that `s` has not. */
  ghost predicate NothingNew(s: State, t: State) {
    && t.log == s.log
    && (forall raw :: raw in t.active ==> raw in s.active && t.active[raw] == s.active[raw])
    && (forall k :: k in t.runtimes ==> k in s.runtimes && t.runtimes[k].hold == s.runtimes[k].hold)
  }

  lemma RetireIsNothingNew(s: State, key: string, now: int)
    requires key in s.runtimes
    ensures NothingNew(s, Retire(s, key, now))
  {
  }

  lemma LockIsNothingNew(cfg: Config, s: State, key: string, now: int, lock: Lock, continuing: bool)
    requires key in s.runtimes
    ensures NothingNew(s, LockIdentity(cfg, s, key, now, lock, continuing))
  {
    var n := NameRows(s, key, lock);
    assert NothingNew(s, n);
    var found := Continued(cfg, n, n.order, key, now);
    if continuing && !(found == [] || (cfg.requireUnique && |found| != 1)) {
      var held := LatestHeld(n, found);
      var noted := MarkMerged(AddLosses(n, Losses(held, n.runtimes[held].pending, MergedAway)), held);
      RetireIsNothingNew(Count(noted, n.counts.(canceled := n.counts.canceled + 1)), held, now);
    }
  }

  lemma IdentifyIsNothingNew(cfg: Config, s: State, key: string, now: int, d: Detection, hadEvent: bool)
    requires key in s.runtimes
    ensures NothingNew(s, Identify(cfg, s, key, now, d, hadEvent))
  {
    if Probes(cfg, s.runtimes[key], now, d, hadEvent) {
      var c := Store(s, key, ProbeCounted(s.runtimes[key], now));
      assert NothingNew(s, c);
      if d.lock.Some? { LockIsNothingNew(cfg, c, key, now, d.lock.value, ProbeMayContinue(cfg, d)); }
    }
  }

  /** One more observation for one key, and no id and no hold that `a` has not. */
  ghost predicate Adds(a: State, t: State, key: string, log: seq<Observation>) {
    && t.log == a.log[key := log]
    && (forall raw :: raw in t.active ==> raw in a.active && t.active[raw] == a.active[raw])
    && (forall k :: k in t.runtimes ==> k in a.runtimes && HoldKept(a.runtimes[k], t.runtimes[k]))
  }

  predicate HoldKept(a: Runtime, t: Runtime) {
    t.hold == a.hold || t.hold == None
  }

  lemma SeeAdds(cfg: Config, s: State, key: string, o: Observation, t: State)
    requires key in s.runtimes && t == See(cfg, s, key, o)
    ensures Adds(s, t, key, LogOf(s, key) + [o])
  {
  }

  lemma OfferIsNothingNew(cfg: Config, s: State, key: string, pe: Pending, now: int, t: State)
    requires key in s.runtimes && t == Offer(cfg, s, key, pe, now)
    ensures NothingNew(s, t)
  {
  }

  lemma FlushIsNothingNew(cfg: Config, s: State, key: string, now: int, t: State)
    requires key in s.runtimes && t == FlushIfReady(cfg, s, key, now)
    ensures NothingNew(s, t)
  {
  }

  lemma StillAdds(a: State, s: State, t: State, key: string, log: seq<Observation>)
    requires Adds(a, s, key, log) && NothingNew(s, t)
    ensures Adds(a, t, key, log)
  {
  }

  lemma DoorLogicAdds(cfg: Config, s: State, key: string, o: Observation, t: State)
    requires key in s.runtimes && t == DoorLogic(cfg, s, key, o)
    ensures Adds(s, t, key, LogOf(s, key) + [o])
  {
    var seen, event, log := See(cfg, s, key, o), Observe(cfg.engine, s.runtimes[key].door, o).1, LogOf(s, key) + [o];
    SeeAdds(cfg, s, key, o, seen);
    if event.Some? {
      var offered := Offer(cfg, seen, key, ToPending(event.value), o.ts);
      OfferIsNothingNew(cfg, seen, key, ToPending(event.value), o.ts, offered);
      FlushIsNothingNew(cfg, offered, key, o.ts, t);
      StillAdds(s, seen, offered, key, log);
      StillAdds(s, offered, t, key, log);
    } else {
      FlushIsNothingNew(cfg, seen, key, o.ts, t);
      StillAdds(s, seen, t, key, log);
    }
  }

  lemma FreshLog(cfg: Config, s: State, now: int, raw: int)
    requires Sound(cfg, now, s) && raw !in s.active
    ensures LogOf(s, KeyOf(s, raw)) == [] && KeyOf(s, raw) !in s.runtimes
  {
    var key := KeyOf(s, raw);
    FirstCandidateAccepted(s, raw);
    assert KeyInv(cfg, now, ViewOf(s, key));
    UnseenHere(cfg, now, ViewOf(s, key));
  }

  lemma LiveLog(cfg: Config, s: State, now: int, key: string)
    requires Sound(cfg, now, s) && key in s.runtimes
    ensures LogOf(s, key) != [] ==> LogOf(s, key)[|LogOf(s, key)| - 1].ts <= now
  {
    LiveHere(cfg, now, s, key);
    LiveLogBefore(cfg, now, ViewOf(s, key));
  }

  lemma LiveLogBefore(cfg: Config, now: int, v: View)
    requires LiveInv(cfg, now, v)
    ensures v.log != [] && v.log[|v.log| - 1].ts <= now
  {
  }

  /** The key of a detection has been seen before its instant, if at all. */
  lemma AdmittedBefore(cfg: Config, s: State, now: int, raw: int, seen: set<int>, ticking: bool, key: string)
    requires Sound(cfg, now, s) && LogsSpaced(s, ticking) && key == KeyOf(s, raw)
    requires ticking ==> AllBefore(s, now, seen) && raw !in seen
    ensures Spaced(LogOf(s, key), ticking) && (ticking ==> Before(LogOf(s, key), now))
    ensures LogOf(s, key) != [] ==> LogOf(s, key)[|LogOf(s, key)| - 1].ts <= now
  {
    if raw in s.active {
      LiveLog(cfg, s, now, key);
    } else {
      FreshLog(cfg, s, now, raw);
    }
  }

  lemma AdmitAdds(s: State, raw: int, now: int, a: State)
    requires a == Admit(s, raw)
    ensures a.log == s.log && KeyOf(s, raw) in a.runtimes && a.active == s.active[raw := KeyOf(s, raw)]
    ensures HoldsBefore(s, now) ==> HoldsBefore(a, now)
  {
  }

  lemma DetectStaysSpaced(cfg: Config, s: State, now: int, d: Detection, seen: set<int>, ticking: bool, t: State)
    requires Sound(cfg, now, s) && t == Detect(cfg, s, now, d)
    requires LogsSpaced(s, ticking) && (ticking ==> AllBefore(s, now, seen) && d.raw !in seen)
    ensures LogsSpaced(t, ticking) && (ticking ==> AllBefore(t, now, seen + {d.raw}))
  {
    var key, a := KeyOf(s, d.raw), Admit(s, d.raw);
    AdmittedBefore(cfg, s, now, d.raw, seen, ticking, key);
    AdmitAdds(s, d.raw, now, a);
    AdmittedStaysOk(s, d.raw);
    DetectAdds(cfg, s, now, d, key, a, t);
    SpacedStaysSpaced(s, a, t, now, d, seen, ticking, key);
  }

  lemma SpacedStaysSpaced(s: State, a: State, t: State, now: int, d: Detection, seen: set<int>, ticking: bool,
                          key: string)
    requires LogsSpaced(s, ticking) && Spaced(LogOf(s, key), ticking) && KeysOk(a)
    requires ticking ==> AllBefore(s, now, seen) && Before(LogOf(s, key), now) && HoldsBefore(a, now)
    requires LogOf(s, key) != [] ==> LogOf(s, key)[|LogOf(s, key)| - 1].ts <= now
    requires a.log == s.log && a.active == s.active[d.raw := key]
    requires Adds(a, t, key, LogOf(s, key) + [ObservationOf(now, d)])
    ensures LogsSpaced(t, ticking) && (ticking ==> AllBefore(t, now, seen + {d.raw}))
  {
    SpacedNext(LogOf(s, key), ObservationOf(now, d), ticking);
    if ticking { AdmitStaysBefore(s, a, now, d.raw, key, seen); }
    SightStaysSpaced(a, t, now, d.raw, key, seen, ticking, LogOf(s, key) + [ObservationOf(now, d)]);
  }

  /** A detection adds one observation to the log of its key, and nothing else. */
  lemma DetectAdds(cfg: Config, s: State, now: int, d: Detection, key: string, a: State, t: State)
    requires t == Detect(cfg, s, now, d) && key == KeyOf(s, d.raw) && a == Admit(s, d.raw) && key in a.runtimes
    requires a.log == s.log
    ensures Adds(a, t, key, LogOf(s, key) + [ObservationOf(now, d)])
  {
    var o, hadEvent := ObservationOf(now, d), Observe(cfg.engine, a.runtimes[key].door, ObservationOf(now, d)).1.Some?;
    var u := DoorLogic(cfg, a, key, o);
    DoorLogicAdds(cfg, a, key, o, u);
    IdentifyIsNothingNew(cfg, u, key, now, d, hadEvent);
    StillAdds(a, u, t, key, LogOf(s, key) + [o]);
  }

  lemma AdmitStaysBefore(s: State, a: State, now: int, raw: int, key: string, seen: set<int>)
    requires AllBefore(s, now, seen) && HoldsBefore(a, now) && a.log == s.log && a.active == s.active[raw := key]
    ensures AllBefore(a, now, seen + {raw})
  {
  }

  lemma SightStaysSpaced(a: State, t: State, now: int, raw: int, key: string, seen: set<int>, ticking: bool,
                         log: seq<Observation>)
    requires LogsSpaced(a, ticking) && Spaced(log, ticking) && Adds(a, t, key, log) && KeysOk(a)
    requires raw in a.active && a.active[raw] == key && (ticking ==> AllBefore(a, now, seen + {raw}))
    ensures LogsSpaced(t, ticking) && (ticking ==> AllBefore(t, now, seen + {raw}))
  {
    if ticking {
      forall r | r in t.active && r !in seen + {raw} ensures Before(LogOf(t, t.active[r]), now) {
        assert a.active[r] != key;
        assert LogOf(t, t.active[r]) == LogOf(a, a.active[r]);
      }
      forall k | k in t.runtimes ensures HeldBefore(t.runtimes[k], now) {
        assert HeldBefore(a.runtimes[k], now);
      }
    }
  }

  /** The ids of the first detections of a frame. */
  function RawsOf(ds: seq<Detection>): (r: set<int>) {
    set i | 0 <= i < |ds| :: ds[i].raw
  }

  /** The state within a frame, once the ids in `seen` have been handled. */
  ghost predicate WithinFrame(cfg: Config, s: State, now: int, seen: set<int>, ticking: bool) {
    Sound(cfg, now, s) && LogsSpaced(s, ticking) && (ticking ==> AllBefore(s, now, seen))
  }

  lemma DetectStaysWithin(cfg: Config, s: State, now: int, d: Detection, seen: set<int>, ticking: bool)
    returns (t: State)
    requires WithinFrame(cfg, s, now, seen, ticking) && Observable(cfg.engine, ObservationOf(now, d))
    requires ticking ==> d.raw !in seen
    ensures t == Detect(cfg, s, now, d) && WithinFrame(cfg, t, now, seen + {d.raw}, ticking)
  {
    t := Detect(cfg, s, now, d);
    DetectIsSound(cfg, s, now, d);
    DetectStaysSpaced(cfg, s, now, d, seen, ticking, t);
  }

  lemma {:induction false} DetectAllStaysWithin(cfg: Config, s: State, now: int, ds: seq<Detection>, ticking: bool)
    returns (t: State)
    requires WithinFrame(cfg, s, now, {}, ticking) && (ticking ==> OneEach(ds))
    requires forall j :: 0 <= j < |ds| ==> Observable(cfg.engine, ObservationOf(now, ds[j]))
    ensures t == DetectAll(cfg, s, now, ds) && WithinFrame(cfg, t, now, RawsOf(ds), ticking)
  {
    if ds == [] {
      t := s;
      assert RawsOf(ds) == {};
    } else {
      var front, d := ds[..|ds| - 1], ds[|ds| - 1];
      var u := DetectAllStaysWithin(cfg, s, now, front, ticking);
      LastRaw(front, d, ds);
      t := DetectStaysWithin(cfg, u, now, d, RawsOf(front), ticking);
    }
  }

  lemma LastRaw(front: seq<Detection>, d: Detection, ds: seq<Detection>)
    requires ds != [] && front == ds[..|ds| - 1] && d == ds[|ds| - 1]
    ensures RawsOf(ds) == RawsOf(front) + {d.raw}
    ensures OneEach(ds) ==> OneEach(front) && d.raw !in RawsOf(front)
  {
    assert forall i :: 0 <= i < |front| ==> ds[i] == front[i];
  }

  // The ends of tracks leave the logs and the merged keys alone.

  lemma SettleKeepsHistory(cfg: Config, s: State, key: string, now: int)
    requires key in s.runtimes
    ensures var t := SettlePending(cfg, s, key, now); t.log == s.log && t.merged == s.merged
  {
  }

  lemma ExpireKeepsHistory(cfg: Config, s: State, key: string, now: int)
    requires key in s.runtimes
    ensures var t := Expire(cfg, s, key, now); t.log == s.log && t.merged == s.merged
  {
    var rt := s.runtimes[key];
    SettleKeepsHistory(cfg, s, key, now);
    if cfg.enableExit && rt.hold.Some? {
      var dated := Store(s, key, rt.(hold := Some(rt.hold.value.(started := Some(rt.hold.value.started.GetOr(now))))));
      SettleKeepsHistory(cfg, dated, key, now);
    }
  }

  lemma {:induction false} ExpireAllKeepsHistory(cfg: Config, s: State, keys: seq<string>, now: int)
    ensures var t := ExpireAll(cfg, s, keys, now); t.log == s.log && t.merged == s.merged
    decreases keys
  {
    if keys == [] {
    } else {
      if keys[0] in s.runtimes { ExpireKeepsHistory(cfg, s, keys[0], now); }
      ExpireAllKeepsHistory(cfg, if keys[0] in s.runtimes then Expire(cfg, s, keys[0], now) else s, keys[1..], now);
    }
  }

  lemma DecodedFront(cfg: Config, frames: seq<Frame>, ticking: bool)
    requires Decoded(cfg, frames, ticking) && frames != []
    ensures var front, f := frames[..|frames| - 1], frames[|frames| - 1];
      && Decoded(cfg, front, ticking) && (front != [] ==> front[|front| - 1].ts <= f.ts)
      && (ticking ==> OneEach(f.detections) && (front != [] ==> front[|front| - 1].ts < f.ts))
      && forall j :: 0 <= j < |f.detections| ==> Observable(cfg.engine, ObservationOf(f.ts, f.detections[j]))
  {
    var front := frames[..|frames| - 1];
    assert forall i :: 0 <= i < |front| ==> front[i] == frames[i];
  }

  /** The state in which a frame begins. */
  lemma FrameBegins(cfg: Config, frames: seq<Frame>, ticking: bool, s: State)
    requires Decoded(cfg, frames, ticking) && frames != [] && s == RunFrames(cfg, frames[..|frames| - 1])
    ensures var now := frames[|frames| - 1].ts; Sound(cfg, now, s) && (ticking ==> AllBefore(s, now, {}))
  {
    var front, now := frames[..|frames| - 1], frames[|frames| - 1].ts;
    DecodedFront(cfg, frames, ticking);
    EveryReachableStateIsSound(cfg, front, now - 1);
    if ticking { FrameStarts(cfg, LastTime(front, now - 1), s, now); }
    SoundLater(cfg, LastTime(front, now - 1), now, s);
  }

  /** After any decoded frames. */
  lemma {:induction false} EveryLogIsSpaced(cfg: Config, frames: seq<Frame>, ticking: bool)
    requires Decoded(cfg, frames, ticking)
    ensures LogsSpaced(RunFrames(cfg, frames), ticking)
  {
    if frames == [] {
    } else {
      var front, f := frames[..|frames| - 1], frames[|frames| - 1];
      var s := RunFrames(cfg, front);
      DecodedFront(cfg, frames, ticking);
      EveryLogIsSpaced(cfg, front, ticking);
      FrameBegins(cfg, frames, ticking, s);
      var d := DetectAllStaysWithin(cfg, s, f.ts, f.detections, ticking);
      var gone := Missing(cfg, d, d.order, SeenKeys(cfg, s, f.ts, f.detections), f.ts);
      ExpireAllKeepsHistory(cfg, d, gone, f.ts);
      var u := ExpireAll(cfg, d, gone, f.ts);
      assert Checkpoint(u).log == u.log;
    }
  }
}
