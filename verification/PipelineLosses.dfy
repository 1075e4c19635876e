/** Runs that give up pending events without counting them, for every configuration
    that allows it: the other half of when the counters of the report add up. */
module PipelineLosses {
  import opened Wrappers
  import opened StableSort
  import opened DoorEngine
  import opened DoorEngineRuns
  import opened Reliability
  import opened TrackKeys
  import opened PipelineSpec
  import opened PipelineRuns
  import opened PipelineSpacing
  import opened PipelineReport
  import opened PipelineTheorems

  // --------------------------------------------------- one track on its own

  /** One detection of the tracker id 1 in a frame. */
  function FrameOf(o: Observation, near: bool, lock: Option<Lock>): (r: Frame) {
    Frame(o.ts, [Detection(1, o.zone, o.side, o.inGate, near, lock)])
  }

  function FramesOf(obs: seq<Observation>): (r: seq<Frame>)
    ensures |r| == |obs|
    ensures forall i :: 0 <= i < |r| ==> r[i] == FrameOf(obs[i], false, None)
  {
    if obs == [] then [] else FramesOf(obs[..|obs| - 1]) + [FrameOf(obs[|obs| - 1], false, None)]
  }

  /** `key` is the only track, with runtime `rt`, and nothing has been given up. */
  ghost predicate Alone(s: State, key: string, rt: Runtime) {
    s.runtimes == map[key := rt] && s.order == [key] && s.active == map[1 := key] && s.lost == []
  }

  function Awaiting(es: seq<DoorEvent>): (r: seq<Pending>)
    ensures |r| == |es|
  {
    if es == [] then [] else Awaiting(es[..|es| - 1]) + [ToPending(es[|es| - 1])]
  }

  /** The runtime of a track whose events all wait, and that has not been named. */
  ghost predicate Waiting(cfg: Config, r: Trace, rt: Runtime) {
    && IsTrace(cfg.engine, r) && rt.door == r.state && rt.hits == |r.obs|
    && rt.firstTs == (if r.obs == [] then None else Some(r.obs[0].ts))
    && rt.lastTs == (if r.obs == [] then None else Some(r.obs[|r.obs| - 1].ts))
    && rt.pending == Awaiting(r.events) && rt.hold == None && rt.employee == None
    && (r.events == [] ==> rt.probes == 0 && rt.lastProbe == None)
  }

  /** Too few sightings in too short a time to be stable, and no strong evidence. */
  ghost predicate StaysWeak(cfg: Config, r: Trace) {
    && cfg.enablePending && |r.obs| < cfg.minHits && TimeOrdered(r.obs) && AllObservable(cfg.engine, r.obs)
    && (forall i :: 0 <= i < |r.obs| ==> r.obs[i].ts - r.obs[0].ts < cfg.minAge)
    && AllWeak(r)
  }

  lemma WeakBefore(cfg: Config, r: Trace, o: Observation, t: Trace)
    requires IsTrace(cfg.engine, r) && IsTrace(cfg.engine, t) && t.obs == r.obs + [o] && StaysWeak(cfg, t)
    ensures StaysWeak(cfg, r)
    ensures var e := Observe(cfg.engine, r.state, o).1;
      t.events == r.events + Optional(e) && (e.Some? ==> ClassifyStrength(e.value.reason) != Strong)
    ensures t.state == Observe(cfg.engine, r.state, o).0
    ensures cfg.minAge > 0 && |r.obs| + 1 < cfg.minHits
    ensures r.obs != [] ==> r.obs[0].ts <= o.ts && o.ts - r.obs[0].ts < cfg.minAge
  {
    assert forall i :: 0 <= i < |r.obs| ==> r.obs[i] == t.obs[i];
    assert t.obs[|r.obs|] == o;
    RunStep(cfg.engine, r.obs, o);
    var e := Observe(cfg.engine, r.state, o).1;
    assert forall d :: d in r.events ==> d in t.events;
    if e.Some? { assert e.value in t.events; }
  }

  /** The state in which a track has been seen as `r`, or not at all. */
  ghost predicate Seen(cfg: Config, s: State, key: string, r: Trace, rt: Runtime) {
    if r.obs == [] then s == INITIAL && IsTrace(cfg.engine, r) else Alone(s, key, rt) && Waiting(cfg, r, rt)
  }

  /** A track is admitted when it is first seen. */
  lemma AdmitAlone(cfg: Config, s: State, key: string, r: Trace, rt: Runtime) returns (k: string, rt': Runtime)
    requires Seen(cfg, s, key, r, rt)
    ensures k == KeyOf(s, 1) && Alone(Admit(s, 1), k, rt') && Waiting(cfg, r, rt')
  {
    k := KeyOf(s, 1);
    rt' := if r.obs == [] then FRESH_RUNTIME else rt;
    assert Admit(s, 1).runtimes == map[k := rt'];
  }

  /** The door logic of one more sighting: an event waits, and nothing else happens. */
  lemma DoorLogicAlone(cfg: Config, a: State, key: string, rt: Runtime, r: Trace, o: Observation, e: Option<DoorEvent>)
    returns (t: State, rt': Runtime)
    requires Alone(a, key, rt) && Waiting(cfg, r, rt) && e == Observe(cfg.engine, rt.door, o).1
    requires cfg.enablePending && |r.obs| + 1 < cfg.minHits && cfg.minAge > 0
    requires r.obs != [] ==> o.ts - r.obs[0].ts < cfg.minAge
    requires e.Some? ==> ClassifyStrength(e.value.reason) != Strong
    ensures t == DoorLogic(cfg, a, key, o) && Alone(t, key, rt')
    ensures rt' == Sighted(cfg, rt, o).(pending := rt.pending + if e.Some? then [ToPending(e.value)] else [])
  {
    t := DoorLogic(cfg, a, key, o);
    var seen := See(cfg, a, key, o);
    rt' := Sighted(cfg, rt, o);
    assert seen.runtimes == map[key := rt'];
    assert !Stable(cfg, rt', o.ts);
    if e.Some? {
      rt' := rt'.(pending := rt.pending + [ToPending(e.value)]);
      assert Offer(cfg, seen, key, ToPending(e.value), o.ts).runtimes == map[key := rt'];
    } else {
      assert rt.pending + [] == rt.pending;
    }
  }

  lemma WaitingNext(cfg: Config, r: Trace, rt: Runtime, o: Observation, e: Option<DoorEvent>, t: Trace, rt': Runtime)
    requires Waiting(cfg, r, rt) && e == Observe(cfg.engine, rt.door, o).1
    requires IsTrace(cfg.engine, t) && t.obs == r.obs + [o]
    requires t.state == Observe(cfg.engine, r.state, o).0 && t.events == r.events + Optional(e)
    requires rt' == Sighted(cfg, rt, o).(pending := rt.pending + if e.Some? then [ToPending(e.value)] else [])
    ensures Waiting(cfg, t, rt')
  {
    AwaitingNext(r.events, e);
  }

  lemma AwaitingNext(es: seq<DoorEvent>, e: Option<DoorEvent>)
    ensures Awaiting(es + Optional(e)) == Awaiting(es) + if e.Some? then [ToPending(e.value)] else []
  {
    if e.Some? {
      assert (es + Optional(e))[..|es|] == es;
    } else {
      assert es + Optional(e) == es;
    }
  }

  /** The end of a frame in which the only track has been seen changes nothing that matters here. */
  lemma FrameAlone(cfg: Config, s: State, f: Frame, key: string, d: State, rt: Runtime)
    requires |f.detections| == 1 && key == KeyOf(s, f.detections[0].raw) && d == Detect(cfg, s, f.ts, f.detections[0])
    requires Alone(d, key, rt)
    ensures Alone(FrameStep(cfg, s, f), key, rt)
  {
    assert f.detections[..0] == [];
    assert DetectAll(cfg, s, f.ts, []) == s;
    assert DetectAll(cfg, s, f.ts, f.detections) == d;
    assert SeenKeys(cfg, s, f.ts, []) == {};
    assert SeenKeys(cfg, s, f.ts, f.detections) == {key};
    assert Missing(cfg, d, [], {key}, f.ts) == [] && [key][..0] == [];
    assert Missing(cfg, d, d.order, {key}, f.ts) == [];
    assert ExpireAll(cfg, d, [], f.ts) == d;
    assert FrameStep(cfg, s, f) == Checkpoint(d);
  }

  /** One more sighting, up to the face probe. */
  lemma SightAlone(cfg: Config, s: State, key: string, rt: Runtime, r: Trace, o: Observation, t: Trace)
    returns (k: string, u: State, rt': Runtime, hadEvent: bool)
    requires Seen(cfg, s, key, r, rt) && IsTrace(cfg.engine, t) && t.obs == r.obs + [o] && StaysWeak(cfg, t)
    ensures k == KeyOf(s, 1) && k in Admit(s, 1).runtimes && u == DoorLogic(cfg, Admit(s, 1), k, o)
    ensures hadEvent == Observe(cfg.engine, Admit(s, 1).runtimes[k].door, o).1.Some?
    ensures Alone(u, k, rt') && Waiting(cfg, t, rt') && (hadEvent ==> t.events != [])
    ensures r.events == [] ==> rt'.probes == 0 && rt'.lastProbe == None
  {
    WeakBefore(cfg, r, o, t);
    var rt1 := rt;
    k, rt1 := AdmitAlone(cfg, s, key, r, rt);
    var e := Observe(cfg.engine, rt1.door, o).1;
    hadEvent := e.Some?;
    u, rt' := DoorLogicAlone(cfg, Admit(s, 1), k, rt1, r, o, e);
    WaitingNext(cfg, r, rt1, o, e, t, rt');
  }

  /** The frame of a sighting that names nobody. */
  lemma UnnamedFrame(cfg: Config, s: State, key: string, rt: Runtime, r: Trace, o: Observation, t: Trace, u: State)
    returns (k: string, rt': Runtime)
    requires Seen(cfg, s, key, r, rt) && IsTrace(cfg.engine, t) && t.obs == r.obs + [o]
    requires StaysWeak(cfg, t) && u == FrameStep(cfg, s, FrameOf(o, false, None))
    ensures Alone(u, k, rt') && Waiting(cfg, t, rt')
  {
    var v, rt1, hadEvent, f := s, rt, false, FrameOf(o, false, None);
    k, v, rt1, hadEvent := SightAlone(cfg, s, key, rt, r, o, t);
    v, rt' := ProbeAlone(cfg, v, k, rt1, t, o.ts, f.detections[0], hadEvent);
    assert ObservationOf(o.ts, f.detections[0]) == o;
    FrameAlone(cfg, s, f, k, v, rt');
  }

  /** A probe that finds nobody. */
  lemma ProbeAlone(cfg: Config, u: State, key: string, rt: Runtime, t: Trace, now: int, d: Detection, hadEvent: bool)
    returns (v: State, rt': Runtime)
    requires Alone(u, key, rt) && Waiting(cfg, t, rt) && !d.nearDoor && d.lock == None && (hadEvent ==> t.events != [])
    ensures v == Identify(cfg, u, key, now, d, hadEvent) && Alone(v, key, rt') && Waiting(cfg, t, rt')
  {
    v := Identify(cfg, u, key, now, d, hadEvent);
    rt' := if Probes(cfg, rt, now, d, hadEvent) then ProbeCounted(rt, now) else rt;
    assert v.runtimes == map[key := rt'];
  }

  lemma {:induction false} FramesAlone(cfg: Config, t: Trace) returns (s: State, key: string, rt: Runtime)
    requires IsTrace(cfg.engine, t) && (t.obs != [] ==> StaysWeak(cfg, t))
    ensures s == RunFrames(cfg, FramesOf(t.obs)) && Seen(cfg, s, key, t, rt)
    decreases |t.obs|
  {
    s := RunFrames(cfg, FramesOf(t.obs));
    if t.obs == [] {
      key, rt := "", FRESH_RUNTIME;
    } else {
      var front, o := t.obs[..|t.obs| - 1], t.obs[|t.obs| - 1];
      var r := Trace(front, StateAfter(cfg.engine, front), Emitted(cfg.engine, front));
      assert t.obs == front + [o];
      WeakBefore(cfg, r, o, t);
      var w, k, rt0 := FramesAlone(cfg, r);
      assert FramesOf(t.obs)[..|t.obs| - 1] == FramesOf(front);
      key, rt := UnnamedFrame(cfg, w, k, rt0, r, o, t, s);
    }
  }

  // ------------------------------------------------------ a discarded exit

  lemma NeverStable(cfg: Config, r: Trace, rt: Runtime)
    requires Waiting(cfg, r, rt) && StaysWeak(cfg, r) && r.obs != []
    ensures rt.lastTs.Some? && !Stable(cfg, rt, rt.lastTs.value)
  {
  }

  /** The end of the video discards an exit that is still waiting. */
  lemma EndDiscards(cfg: Config, s: State, key: string, rt: Runtime, end: int, t: State)
    requires Alone(s, key, rt) && rt.hold == None && rt.lastTs.Some? && !Stable(cfg, rt, rt.lastTs.value)
    requires cfg.enablePending && rt.pending != [] && t == ConcludeAll(cfg, s, s.order, end)
    requires var pe := rt.pending[|rt.pending| - 1]; pe.kind == Exit && pe.strength != Strong
    ensures Loss(key, rt.pending[|rt.pending| - 1], Discarded) in t.lost
  {
    var u := SettlePending(cfg, s, key, end);
    assert u == SettleUnstable(s, key) && u.lost == [] + EndLosses(key, rt.pending);
    assert t == ConcludeAll(cfg, Conclude(cfg, s, key, end), [], end);
    assert t == Conclude(cfg, s, key, end) && t.lost == u.lost;
  }

  /** The weak exit that follows a stable zone inside. */
  lemma WeakExit(cfg: EngineConfig, m: DoorState, ts: int, s: DoorState) returns (e: DoorEvent)
    requires WeakTransitions(cfg) && s == Settling(m, Outside, ts, true) && m.crossing == None
    requires m.lastEvent.Some? ==> ts - m.lastEvent.value >= cfg.cooldown
    ensures Decide(cfg, Inside, s, ts) == Some(e) && e.kind == Exit && ClassifyStrength(e.reason) != Strong
  {
    e := Decide(cfg, Inside, s, ts).value;
  }

  /** All evidence is weak, and the latest event is an exit. */
  ghost predicate EndsInExit(t: Trace) {
    && t.events != [] && t.events[|t.events| - 1].kind == Exit && AllWeak(t)
  }

  ghost predicate AllWeak(t: Trace) {
    forall e :: e in t.events ==> ClassifyStrength(e.reason) != Strong
  }

  /** Outside in the end: a weak exit, when it comes late enough. */
  lemma OutWeakly(cfg: EngineConfig, q: Trace, ts: int, n: nat, ticking: bool) returns (t: Trace)
    requires WeakTransitions(cfg) && n == SettleCount(cfg) && IsTrace(cfg, q) && AllWeak(q)
    requires q.state.stable == q.state.candidate == Inside && q.state.crossing == None
    requires q.state.lastEvent.Some? ==> ts + Span(n, ticking) - q.state.lastEvent.value >= cfg.cooldown
    ensures IsTrace(cfg, t) && EndsInExit(t) && t.obs == q.obs + Block(Outside, ts, n, true, ticking)
  {
    var last := Tick(ts, n - 1, ticking);
    var k, u, o := SettlingBlock(cfg, q, Outside, ts, n, true, ticking);
    var e := WeakExit(cfg, k.state, last, Settling(k.state, Outside, last, true));
    t := u;
  }

  /** When a block of `n` sightings can follow one. */
  function Next(n: nat, ticking: bool): (r: int)
    requires n > 0
    ensures r == Span(n + 1, ticking)
  {
    if ticking then n else 0
  }

  /** Inside first, and then outside. */
  lemma ExitAfterEntry(cfg: EngineConfig, ts: int, n: nat, ticking: bool) returns (t: Trace)
    requires WeakTransitions(cfg) && n == SettleCount(cfg) && (cfg.inferEntry ==> cfg.cooldown <= ts)
    ensures IsTrace(cfg, t) && EndsInExit(t)
    ensures t.obs == Block(Inside, 0, n, true, ticking) + Block(Outside, ts, n, true, ticking)
  {
    var _, q, d := FirstBlock(cfg, Inside, n, true, ticking);
    t := OutWeakly(cfg, q, ts, n, ticking);
  }

  /** The same without an event before it: a way in that passes no gate is not reported. */
  lemma ExitAfterSilence(cfg: EngineConfig, n: nat, ticking: bool) returns (t: Trace)
    requires WeakTransitions(cfg) && cfg.lineConfigured && n == SettleCount(cfg)
    ensures IsTrace(cfg, t) && EndsInExit(t)
    ensures var u := Next(n, ticking);
      t.obs == (Block(Outside, 0, n, false, ticking) + Block(Inside, u, n, false, ticking))
               + Block(Outside, 2 * u, n, true, ticking)
  {
    var _, r, _ := FirstBlock(cfg, Outside, n, false, ticking);
    var q := InSilently(cfg, r, Next(n, ticking), n, ticking);
    t := OutWeakly(cfg, q, 2 * Next(n, ticking), n, ticking);
  }

  lemma InSilently(cfg: EngineConfig, r: Trace, ts: int, n: nat, ticking: bool) returns (t: Trace)
    requires cfg.lineConfigured && n == SettleCount(cfg) && IsTrace(cfg, r) && r.events == []
    requires r.state.stable == r.state.candidate == Outside && r.state.lastEvent == None
    requires r.state.crossing == None && r.state.lastInGate == None
    ensures IsTrace(cfg, t) && t.obs == r.obs + Block(Inside, ts, n, false, ticking) && t.events == []
    ensures t.state.stable == t.state.candidate == Inside && t.state.crossing == None && t.state.lastEvent == None
  {
    var m, u, e := SettlingBlock(cfg, r, Inside, ts, n, false, ticking);
    SilentEntry(cfg, Settling(m.state, Inside, Tick(ts, n - 1, ticking), false), Tick(ts, n - 1, ticking));
    t := u;
  }

  lemma SilentEntry(cfg: EngineConfig, s: DoorState, ts: int)
    requires cfg.lineConfigured && s.stable == Inside && s.crossing == None && s.lastInGate == None
    ensures Decide(cfg, Outside, s, ts) == None
  {
  }

  /** One after the other from time 0 to time `t`, and without sides. */
  ghost predicate Fits(cfg: EngineConfig, obs: seq<Observation>, t: int, ticking: bool) {
    && obs != [] && obs[0].ts == 0 && obs[|obs| - 1].ts == t && AllObservable(cfg, obs) && TimeOrdered(obs)
    && (ticking ==> forall i, j :: 0 <= i < j < |obs| ==> obs[i].ts < obs[j].ts)
  }

  lemma BlockFits(cfg: EngineConfig, z: Zone, n: nat, gate: bool, ticking: bool)
    requires n > 0
    ensures var b := Block(z, 0, n, gate, ticking); |b| == n && Fits(cfg, b, Span(n, ticking), ticking)
  {
    BlockElems(z, 0, n, gate, ticking);
  }

  lemma NextBlockFits(cfg: EngineConfig, obs: seq<Observation>, t: int, z: Zone, t0: int, n: nat, gate: bool,
                      ticking: bool)
    requires n > 0 && Fits(cfg, obs, t, ticking) && if ticking then t < t0 else t <= t0
    ensures var all := obs + Block(z, t0, n, gate, ticking);
      |all| == |obs| + n && Fits(cfg, all, t0 + Span(n, ticking), ticking)
  {
    BlockElems(z, t0, n, gate, ticking);
    AppendFits(cfg, obs, t, Block(z, t0, n, gate, ticking), t0, ticking);
  }

  lemma AppendFits(cfg: EngineConfig, a: seq<Observation>, t: int, b: seq<Observation>, t0: int, ticking: bool)
    requires Fits(cfg, a, t, ticking) && b != [] && b[0].ts == t0 && AllObservable(cfg, b) && TimeOrdered(b)
    requires ticking ==> t < t0 && forall i, j :: 0 <= i < j < |b| ==> b[i].ts < b[j].ts
    requires t <= t0
    ensures Fits(cfg, a + b, b[|b| - 1].ts, ticking)
  {
    var c := a + b;
    forall i, j | 0 <= i < j < |c| ensures c[i].ts <= c[j].ts && (ticking ==> c[i].ts < c[j].ts) {
      if i < |a| <= j {
        assert a[i].ts <= a[|a| - 1].ts && b[0].ts <= b[j - |a|].ts;
      }
    }
  }

  lemma FittingStaysWeak(cfg: Config, r: Trace, t: int, ticking: bool)
    requires cfg.enablePending && Fits(cfg.engine, r.obs, t, ticking) && t < cfg.minAge && |r.obs| < cfg.minHits
    requires AllWeak(r)
    ensures StaysWeak(cfg, r)
  {
    assert forall i :: 0 <= i < |r.obs| - 1 ==> r.obs[i].ts <= r.obs[|r.obs| - 1].ts;
  }

  lemma ExitCanWait(cfg: Config, ticking: bool) returns (t: Trace, last: int)
    requires ExitMayWait(cfg, ticking)
    ensures IsTrace(cfg.engine, t) && StaysWeak(cfg, t) && EndsInExit(t) && Fits(cfg.engine, t.obs, last, ticking)
  {
    var n := SettleCount(cfg.engine);
    if 2 * n < cfg.minHits && Span(2 * n, ticking) < cfg.minAge
       && (cfg.engine.inferEntry ==> Span(n, ticking) + cfg.engine.cooldown < cfg.minAge) {
      t, last := LateExitCanWait(cfg, n, ticking);
    } else {
      t, last := SilentExitCanWait(cfg, n, ticking);
    }
  }

  lemma LateExitCanWait(cfg: Config, n: nat, ticking: bool) returns (t: Trace, last: int)
    requires ExitMayWait(cfg, ticking) && n == SettleCount(cfg.engine) && 2 * n < cfg.minHits
    requires Span(2 * n, ticking) < cfg.minAge
    requires cfg.engine.inferEntry ==> Span(n, ticking) + cfg.engine.cooldown < cfg.minAge
    ensures IsTrace(cfg.engine, t) && StaysWeak(cfg, t) && EndsInExit(t) && Fits(cfg.engine, t.obs, last, ticking)
  {
    var soon := Next(n, ticking);
    var ts := if cfg.engine.inferEntry && cfg.engine.cooldown > soon then cfg.engine.cooldown else soon;
    t := ExitAfterEntry(cfg.engine, ts, n, ticking);
    last := ts + Span(n, ticking);
    BlockFits(cfg.engine, Inside, n, true, ticking);
    NextBlockFits(cfg.engine, Block(Inside, 0, n, true, ticking), Span(n, ticking), Outside, ts, n, true, ticking);
    FittingStaysWeak(cfg, t, last, ticking);
  }

  lemma SilentExitCanWait(cfg: Config, n: nat, ticking: bool) returns (t: Trace, last: int)
    requires ExitMayWait(cfg, ticking) && cfg.engine.lineConfigured && n == SettleCount(cfg.engine)
    requires 3 * n < cfg.minHits && Span(3 * n, ticking) < cfg.minAge
    ensures IsTrace(cfg.engine, t) && StaysWeak(cfg, t) && EndsInExit(t) && Fits(cfg.engine, t.obs, last, ticking)
  {
    var u := Next(n, ticking);
    var a, b := Block(Outside, 0, n, false, ticking), Block(Inside, u, n, false, ticking);
    t := ExitAfterSilence(cfg.engine, n, ticking);
    last := 2 * u + Span(n, ticking);
    BlockFits(cfg.engine, Outside, n, false, ticking);
    NextBlockFits(cfg.engine, a, Span(n, ticking), Inside, u, n, false, ticking);
    NextBlockFits(cfg.engine, a + b, u + Span(n, ticking), Outside, 2 * u, n, true, ticking);
    FittingStaysWeak(cfg, t, last, ticking);
  }

  lemma FrameIsObservable(cfg: EngineConfig, o: Observation, near: bool, lock: Option<Lock>)
    requires Observable(cfg, o)
    ensures var f := FrameOf(o, near, lock);
      forall j :: 0 <= j < |f.detections| ==> Observable(cfg, ObservationOf(f.ts, f.detections[j]))
  {
  }

  lemma FramesAreDecoded(cfg: Config, obs: seq<Observation>, last: int, ticking: bool)
    requires Fits(cfg.engine, obs, last, ticking)
    ensures Decoded(cfg, FramesOf(obs), ticking) && LastTime(FramesOf(obs), last) == last
  {
    var fs := FramesOf(obs);
    forall i | 0 <= i < |fs|
      ensures forall j :: 0 <= j < |fs[i].detections| ==>
                Observable(cfg.engine, ObservationOf(fs[i].ts, fs[i].detections[j]))
    {
      FrameIsObservable(cfg.engine, obs[i], false, None);
    }
  }

  lemma LastAwaiting(es: seq<DoorEvent>)
    requires es != []
    ensures Awaiting(es)[|es| - 1] == ToPending(es[|es| - 1])
  {
  }

  /** Wherever an exit may wait, some run discards one. */
  lemma SomeRunDiscards(cfg: Config, ticking: bool) returns (frames: seq<Frame>, end: int, l: Loss)
    requires ExitMayWait(cfg, ticking)
    ensures Decoded(cfg, frames, ticking) && LastTime(frames, end) <= end
    ensures l in RunToEnd(cfg, frames, end).lost && l.why == Discarded
  {
    var r;
    r, end := ExitCanWait(cfg, ticking);
    frames := FramesOf(r.obs);
    FramesAreDecoded(cfg, r.obs, end, ticking);
    var s, key, rt := FramesAlone(cfg, r);
    LastAwaiting(r.events);
    NeverStable(cfg, r, rt);
    EndDiscards(cfg, s, key, rt, end, ConcludeAll(cfg, s, s.order, end));
    l := Loss(key, rt.pending[|rt.pending| - 1], Discarded);
  }

  // ---------------------------------------------- a track taken for another

  /** Nothing is reported up to `r`, and one more sighting inside makes an entry without strong evidence. */
  ghost predicate EntersAt(cfg: EngineConfig, r: Trace, o: Observation, t: Trace) {
    && IsTrace(cfg, r) && IsTrace(cfg, t) && t.obs == r.obs + [o]
    && r.events == [] && t.events != [] && AllWeak(t)
    && o.zone == Inside && t.state.stable == Inside
  }

  lemma FirstEntry(cfg: EngineConfig, n: nat, ticking: bool) returns (r: Trace, o: Observation, t: Trace)
    requires cfg.inferEntry && n == SettleCount(cfg)
    ensures EntersAt(cfg, r, o, t) && t.obs == Block(Inside, 0, n, true, ticking)
  {
    var e;
    r, t, e := FirstBlock(cfg, Inside, n, true, ticking);
    o := Observation(Tick(0, n - 1, ticking), Inside, None, true);
  }

  lemma LaterEntry(cfg: EngineConfig, n: nat, ticking: bool) returns (r: Trace, o: Observation, t: Trace)
    requires WeakTransitions(cfg) && n == SettleCount(cfg)
    ensures EntersAt(cfg, r, o, t)
    ensures t.obs == Block(Outside, 0, n, true, ticking) + Block(Inside, Next(n, ticking), n, true, ticking)
  {
    var _, q, _ := FirstBlock(cfg, Outside, n, true, ticking);
    r, o, t := InWeakly(cfg, q, Next(n, ticking), n, ticking);
  }

  lemma InWeakly(cfg: EngineConfig, q: Trace, ts: int, n: nat, ticking: bool)
    returns (r: Trace, o: Observation, t: Trace)
    requires WeakTransitions(cfg) && n == SettleCount(cfg) && IsTrace(cfg, q) && q.events == []
    requires q.state.stable == q.state.candidate == Outside && q.state.crossing == None && q.state.lastEvent == None
    ensures EntersAt(cfg, r, o, t) && t.obs == q.obs + Block(Inside, ts, n, true, ticking)
  {
    var e, last := None, Tick(ts, n - 1, ticking);
    r, t, e := SettlingBlock(cfg, q, Inside, ts, n, true, ticking);
    o := Observation(last, Inside, None, true);
    WeakEntry(cfg, r.state, last, Settling(r.state, Inside, last, true));
  }

  lemma WeakEntry(cfg: EngineConfig, m: DoorState, ts: int, s: DoorState)
    requires WeakTransitions(cfg) && s == Settling(m, Inside, ts, true) && m.crossing == None && m.lastEvent == None
    ensures var e := Decide(cfg, Outside, s, ts); e.Some? && ClassifyStrength(e.value.reason) != Strong
  {
  }

  lemma EntryCanWait(cfg: Config, n: nat, ticking: bool) returns (r: Trace, o: Observation, t: Trace)
    requires EventMayWait(cfg, ticking) && n == SettleCount(cfg.engine)
    ensures StaysWeak(cfg, t) && EntersAt(cfg.engine, r, o, t) && Fits(cfg.engine, t.obs, o.ts, ticking)
  {
    if cfg.engine.inferEntry && n < cfg.minHits && Span(n, ticking) < cfg.minAge {
      r, o, t := FirstEntry(cfg.engine, n, ticking);
      BlockFits(cfg.engine, Inside, n, true, ticking);
      EntryFits(cfg, r, o, t, Span(n, ticking), ticking);
    } else {
      r, o, t := LaterEntry(cfg.engine, n, ticking);
      TwoBlocksFit(cfg.engine, n, ticking);
      EntryFits(cfg, r, o, t, Span(2 * n, ticking), ticking);
    }
  }

  lemma TwoBlocksFit(cfg: EngineConfig, n: nat, ticking: bool)
    requires n > 0
    ensures var obs := Block(Outside, 0, n, true, ticking) + Block(Inside, Next(n, ticking), n, true, ticking);
      |obs| == 2 * n && Fits(cfg, obs, Span(2 * n, ticking), ticking)
  {
    BlockFits(cfg, Outside, n, true, ticking);
    NextBlockFits(cfg, Block(Outside, 0, n, true, ticking), Span(n, ticking), Inside, Next(n, ticking), n, true,
                  ticking);
  }

  lemma EntryFits(cfg: Config, r: Trace, o: Observation, t: Trace, last: int, ticking: bool)
    requires EntersAt(cfg.engine, r, o, t) && Fits(cfg.engine, t.obs, last, ticking)
    requires cfg.enablePending && last < cfg.minAge && |t.obs| < cfg.minHits
    ensures StaysWeak(cfg, t) && Fits(cfg.engine, t.obs, o.ts, ticking)
  {
    assert t.obs[|t.obs| - 1] == o;
    FittingStaysWeak(cfg, t, last, ticking);
  }

  // The frame in which that track is named.

  /** The track of a named employee with events waiting, unstable and inside. */
  ghost predicate NamedWaiting(cfg: Config, rt: Runtime, lock: Lock, now: int) {
    && rt.employee == Some(lock.employee) && rt.pending != [] && rt.hold == None
    && rt.lastTs == Some(now) && !Stable(cfg, rt, now)
    && rt.door.stable == Inside && rt.door.lastSeen.Some?
  }

  lemma NameAlone(cfg: Config, u: State, key: string, rt: Runtime, now: int, d: Detection, hadEvent: bool)
    returns (v: State, rt': Runtime)
    requires Alone(u, key, rt) && rt.employee == None && rt.probes == 0 && rt.lastProbe == None
    requires cfg.faceEnabled && cfg.maxProbes > 0 && d.nearDoor && d.lock.Some?
    ensures v == Identify(cfg, u, key, now, d, hadEvent) && Alone(v, key, rt')
    ensures rt' == Named(ProbeCounted(rt, now), d.lock.value)
  {
    v := Identify(cfg, u, key, now, d, hadEvent);
    rt' := Named(ProbeCounted(rt, now), d.lock.value);
    var c := Store(u, key, ProbeCounted(rt, now));
    var named := NameRows(c, key, d.lock.value);
    assert named.runtimes == map[key := rt'];
    assert Continued(cfg, named, [], key, now) == [] && [key][..0] == [];
    assert Continued(cfg, named, [key], key, now) == [];
  }

  lemma NamedIsWaiting(cfg: Config, r: Trace, o: Observation, t: Trace, rt: Runtime, lock: Lock)
    requires Waiting(cfg, t, rt) && StaysWeak(cfg, t) && EntersAt(cfg.engine, r, o, t)
    ensures NamedWaiting(cfg, Named(ProbeCounted(rt, o.ts), lock), lock, o.ts)
  {
    RunStep(cfg.engine, r.obs, o);
    assert t.obs[|t.obs| - 1] == o;
  }

  lemma NamedFrame(cfg: Config, s: State, key: string, rt: Runtime, r: Trace, o: Observation, t: Trace, lock: Lock,
                   u: State)
    returns (k: string, rt': Runtime)
    requires Seen(cfg, s, key, r, rt) && StaysWeak(cfg, t) && EntersAt(cfg.engine, r, o, t)
    requires cfg.faceEnabled && cfg.maxProbes > 0 && u == FrameStep(cfg, s, FrameOf(o, true, Some(lock)))
    ensures Alone(u, k, rt') && NamedWaiting(cfg, rt', lock, o.ts)
  {
    var v, rt1, hadEvent, f := s, rt, false, FrameOf(o, true, Some(lock));
    k, v, rt1, hadEvent := SightAlone(cfg, s, key, rt, r, o, t);
    v, rt' := NameAlone(cfg, v, k, rt1, o.ts, f.detections[0], hadEvent);
    assert ObservationOf(o.ts, f.detections[0]) == o;
    FrameAlone(cfg, s, f, k, v, rt');
    NamedIsWaiting(cfg, r, o, t, rt1, lock);
  }

  // The empty frame in which it is missing, and held.

  lemma HeldFrame(cfg: Config, s: State, key: string, rt: Runtime, lock: Lock, was: int, now: int, t: State)
    returns (rt': Runtime)
    requires Alone(s, key, rt) && NamedWaiting(cfg, rt, lock, was) && now - was > cfg.ttl
    requires cfg.enableExit && cfg.inferExit && t == FrameStep(cfg, s, Frame(now, []))
    ensures Alone(t, key, rt') && rt'.employee == Some(lock.employee) && rt'.pending != []
    ensures rt'.hold.Some? && rt'.hold.value.started == Some(now)
  {
    assert DetectAll(cfg, s, now, []) == s && SeenKeys(cfg, s, now, []) == {};
    assert Missing(cfg, s, [], {}, now) == [] && [key][..0] == [];
    assert Missing(cfg, s, [key], {}, now) == [key];
    var end := Finalize(rt.door, cfg.inferExit);
    var h := StartHold(s, key, end.value, now);
    assert Expire(cfg, s, key, now) == h;
    rt' := h.runtimes[key];
    assert h.runtimes == map[key := rt'];
    assert [key][1..] == [];
    assert ExpireAll(cfg, s, [key], now) == ExpireAll(cfg, h, [], now) == h;
    assert t == Checkpoint(h);
  }

  // The frame in which the employee is seen again, under another key.

  lemma AdmitBeside(s: State, key: string, rt: Runtime) returns (k: string, a: State)
    requires Alone(s, key, rt)
    ensures k == KeyOf(s, 2) && a == Admit(s, 2) && k != key
    ensures a.runtimes == map[key := rt, k := FRESH_RUNTIME] && a.order == [key, k] && a.lost == []
  {
    k, a := KeyOf(s, 2), Admit(s, 2);
    FirstFreeIsFirst(s.used + s.runtimes.Keys, 2, (if 2 in s.reuse then s.reuse[2] else 0) + 1);
    assert key in s.used + s.runtimes.Keys;
  }

  lemma DoorLogicBeside(cfg: Config, a: State, key: string, rt: Runtime, k: string, o: Observation) returns (u: State)
    requires k != key && a.runtimes == map[key := rt, k := FRESH_RUNTIME] && a.order == [key, k] && a.lost == []
    ensures u == DoorLogic(cfg, a, k, o) && u.order == [key, k] && u.lost == [] && u.runtimes.Keys == {key, k}
    ensures u.runtimes[key] == rt
    ensures u.runtimes[k].employee == None && u.runtimes[k].probes == 0 && u.runtimes[k].lastProbe == None
  {
    u := DoorLogic(cfg, a, k, o);
  }

  ghost predicate HeldWithin(cfg: Config, rt: Runtime, now: int) {
    rt.hold.Some? && rt.hold.value.started.Some? && now - rt.hold.value.started.value <= cfg.grace
  }

  lemma TakenForHeld(cfg: Config, u: State, key: string, rt: Runtime, k: string, now: int, d: Detection, hadEvent: bool)
    requires k != key && u.order == [key, k] && u.lost == [] && u.runtimes.Keys == {key, k} && u.runtimes[key] == rt
    requires u.runtimes[k].employee == None && u.runtimes[k].probes == 0 && u.runtimes[k].lastProbe == None
    requires rt.pending != [] && HeldWithin(cfg, rt, now)
    requires cfg.enableExit && cfg.faceEnabled && cfg.maxProbes > 0
    requires d.zone == Inside && d.nearDoor && d.lock.Some? && d.lock.value.confidence == Some(cfg.minLock)
    requires rt.employee == Some(d.lock.value.employee)
    ensures Loss(key, rt.pending[|rt.pending| - 1], MergedAway) in Identify(cfg, u, k, now, d, hadEvent).lost
  {
    var c := Store(u, k, ProbeCounted(u.runtimes[k], now));
    var n := NameRows(c, k, d.lock.value);
    OnlyHeldContinues(cfg, n, key, k, now);
    var m := MergeAway(n, key, now);
    assert MergeHeld(cfg, n, k, now) == m;
    assert Identify(cfg, u, k, now, d, hadEvent) == m;
    assert m.lost == [] + Losses(key, rt.pending, MergedAway);
  }

  lemma OnlyHeldContinues(cfg: Config, n: State, key: string, k: string, now: int)
    requires k != key && n.order == [key, k] && key in n.runtimes && k in n.runtimes
    requires HeldWithin(cfg, n.runtimes[key], now)
    requires n.runtimes[key].employee.Some? && n.runtimes[k].employee == n.runtimes[key].employee
    requires n.runtimes[k].confidence == Some(cfg.minLock)
    ensures Continued(cfg, n, n.order, k, now) == [key]
  {
    assert [key, k][..1] == [key] && [key][..0] == [];
    assert Continued(cfg, n, [], k, now) == [] && Continued(cfg, n, [key], k, now) == [key];
    assert Continued(cfg, n, [key, k], k, now) == [key];
  }

  // What has been given up stays given up.

  lemma SettleKeepsLost(cfg: Config, s: State, key: string, now: int, l: Loss)
    requires key in s.runtimes && l in s.lost
    ensures l in SettlePending(cfg, s, key, now).lost
  {
  }

  lemma {:induction false} ExpireAllKeepsLost(cfg: Config, s: State, keys: seq<string>, now: int, l: Loss)
    requires l in s.lost
    ensures l in ExpireAll(cfg, s, keys, now).lost
    decreases keys
  {
    if keys == [] {
    } else {
      if keys[0] in s.runtimes { ExpireKeepsLost(cfg, s, keys[0], now, l); }
      ExpireAllKeepsLost(cfg, if keys[0] in s.runtimes then Expire(cfg, s, keys[0], now) else s, keys[1..], now, l);
    }
  }

  lemma ExpireKeepsLost(cfg: Config, s: State, key: string, now: int, l: Loss)
    requires key in s.runtimes && l in s.lost
    ensures l in Expire(cfg, s, key, now).lost
  {
    var rt := s.runtimes[key];
    if cfg.enableExit && rt.hold.Some? {
      var dated := Store(s, key, rt.(hold := Some(rt.hold.value.(started := Some(rt.hold.value.started.GetOr(now))))));
      SettleKeepsLost(cfg, dated, key, now, l);
    } else {
      SettleKeepsLost(cfg, s, key, now, l);
    }
  }

  lemma {:induction false} ConcludeAllKeepsLost(cfg: Config, s: State, keys: seq<string>, now: int, l: Loss)
    requires l in s.lost
    ensures l in ConcludeAll(cfg, s, keys, now).lost
    decreases keys
  {
    if keys == [] {
    } else {
      if keys[0] in s.runtimes { SettleKeepsLost(cfg, s, keys[0], now, l); }
      ConcludeAllKeepsLost(cfg, if keys[0] in s.runtimes then Conclude(cfg, s, keys[0], now) else s, keys[1..], now, l);
    }
  }

  lemma MergedFrame(cfg: Config, s: State, key: string, rt: Runtime, now: int, d: Detection, t: State) returns (l: Loss)
    requires Alone(s, key, rt) && rt.pending != [] && HeldWithin(cfg, rt, now)
    requires cfg.enableExit && cfg.faceEnabled && cfg.maxProbes > 0
    requires d.raw == 2 && d.zone == Inside && d.nearDoor && d.lock.Some?
    requires d.lock.value.confidence == Some(cfg.minLock)
    requires rt.employee == Some(d.lock.value.employee) && t == FrameStep(cfg, s, Frame(now, [d]))
    ensures l in t.lost && l.why == MergedAway
  {
    var k, a := AdmitBeside(s, key, rt);
    var o := ObservationOf(now, d);
    var u := DoorLogicBeside(cfg, a, key, rt, k, o);
    var hadEvent := Observe(cfg.engine, a.runtimes[k].door, o).1.Some?;
    TakenForHeld(cfg, u, key, rt, k, now, d, hadEvent);
    l := Loss(key, rt.pending[|rt.pending| - 1], MergedAway);
    var m := Identify(cfg, u, k, now, d, hadEvent);
    assert [d][..0] == [] && DetectAll(cfg, s, now, []) == s;
    assert DetectAll(cfg, s, now, [d]) == m;
    ExpireAllKeepsLost(cfg, m, Missing(cfg, m, m.order, SeenKeys(cfg, s, now, [d]), now), now, l);
  }

  /** When a track last seen at `ts` is missing, and when the employee is seen again. */
  function Gone(cfg: Config, ts: int): (r: int)
    ensures r > ts && r - ts > cfg.ttl
  {
    if cfg.ttl < 0 then ts + 1 else ts + cfg.ttl + 1
  }

  function Back(cfg: Config, ts: int, ticking: bool): (r: int) {
    if ticking then Gone(cfg, ts) + 1 else Gone(cfg, ts)
  }

  /** The frames of `front`, and three more: named, missing and seen again. */
  function MergingFrames(cfg: Config, front: seq<Observation>, o: Observation, lock: Lock,
                         ticking: bool): (r: seq<Frame>) {
    (FramesOf(front) + [FrameOf(o, true, Some(lock))] + [Frame(Gone(cfg, o.ts), [])])
    + [Frame(Back(cfg, o.ts, ticking), [Detection(2, Inside, None, true, true, Some(lock))])]
  }

  lemma RunFramesStep(cfg: Config, frames: seq<Frame>, f: Frame)
    ensures RunFrames(cfg, frames + [f]) == FrameStep(cfg, RunFrames(cfg, frames), f)
  {
    assert (frames + [f])[..|frames + [f]| - 1] == frames;
  }

  lemma MergingLoses(cfg: Config, r: Trace, o: Observation, t: Trace, lock: Lock, ticking: bool) returns (l: Loss)
    requires MergeMayLose(cfg, ticking) && StaysWeak(cfg, t) && EntersAt(cfg.engine, r, o, t)
    requires lock.confidence == Some(cfg.minLock)
    ensures l in RunFrames(cfg, MergingFrames(cfg, r.obs, o, lock, ticking)).lost && l.why == MergedAway
  {
    var gone, back, fs := Gone(cfg, o.ts), Back(cfg, o.ts, ticking), FramesOf(r.obs);
    var f0, f1 := FrameOf(o, true, Some(lock)), Frame(gone, []);
    var f2 := Frame(back, [Detection(2, Inside, None, true, true, Some(lock))]);
    WeakBefore(cfg, r, o, t);
    var s0, key, rt := FramesAlone(cfg, r);
    RunFramesStep(cfg, fs, f0);
    RunFramesStep(cfg, fs + [f0], f1);
    RunFramesStep(cfg, fs + [f0] + [f1], f2);
    var s1 := FrameStep(cfg, s0, f0);
    key, rt := NamedFrame(cfg, s0, key, rt, r, o, t, lock, s1);
    var s2 := FrameStep(cfg, s1, f1);
    rt := HeldFrame(cfg, s1, key, rt, lock, o.ts, gone, s2);
    l := MergedFrame(cfg, s2, key, rt, back, f2.detections[0], FrameStep(cfg, s2, f2));
  }

  lemma MergingIsDecoded(cfg: Config, front: seq<Observation>, o: Observation, lock: Lock, ticking: bool)
    requires Fits(cfg.engine, front + [o], o.ts, ticking)
    ensures Decoded(cfg, MergingFrames(cfg, front, o, lock, ticking), ticking)
    ensures LastTime(MergingFrames(cfg, front, o, lock, ticking), 0) == Back(cfg, o.ts, ticking)
  {
    var obs, fs := front + [o], MergingFrames(cfg, front, o, lock, ticking);
    var n := |front|;
    assert forall i :: 0 <= i <= n ==> fs[i].ts == obs[i].ts <= obs[n].ts;
    assert obs[n] == o && fs[n + 1].ts == Gone(cfg, o.ts) && fs[n + 2].ts == Back(cfg, o.ts, ticking);
    forall i | 0 <= i < |fs|
      ensures forall j :: 0 <= j < |fs[i].detections| ==>
                Observable(cfg.engine, ObservationOf(fs[i].ts, fs[i].detections[j]))
    {
      if i <= n { FrameIsObservable(cfg.engine, obs[i], i == n, if i == n then Some(lock) else None); }
    }
  }

  /** Wherever an identity merge may lose an event, some run loses one. */
  lemma SomeRunMergesAway(cfg: Config, ticking: bool) returns (frames: seq<Frame>, end: int, l: Loss)
    requires MergeMayLose(cfg, ticking)
    ensures Decoded(cfg, frames, ticking) && LastTime(frames, end) <= end
    ensures l in RunToEnd(cfg, frames, end).lost && l.why == MergedAway
  {
    var r, o, t := EntryCanWait(cfg, SettleCount(cfg.engine), ticking);
    var lock := Lock(1, Some(cfg.minLock));
    frames, end := MergingFrames(cfg, r.obs, o, lock, ticking), Back(cfg, o.ts, ticking);
    MergingIsDecoded(cfg, r.obs, o, lock, ticking);
    l := MergingLoses(cfg, r, o, t, lock, ticking);
    var s := RunFrames(cfg, frames);
    ConcludeAllKeepsLost(cfg, s, s.order, end, l);
  }

  // ------------------------------------------------------------- the waiting

  /** Wherever an event may wait, some run has one waiting. */
  lemma SomeRunWaits(cfg: Config, ticking: bool) returns (frames: seq<Frame>)
    requires EventMayWait(cfg, ticking)
    ensures Decoded(cfg, frames, ticking) && !NothingWaited(RunFrames(cfg, frames))
  {
    var _, o, t := EntryCanWait(cfg, SettleCount(cfg.engine), ticking);
    frames := FramesOf(t.obs);
    FramesAreDecoded(cfg, t.obs, o.ts, ticking);
    var s, key, rt := FramesAlone(cfg, t);
    assert key in s.runtimes && s.runtimes[key].pending != [];
  }

  /** The two-phase commit is idle in every run exactly when no event may wait. */
  lemma NothingWaitsExactly(cfg: Config, ticking: bool)
    ensures !EventMayWait(cfg, ticking) <==>
      forall frames: seq<Frame> :: Decoded(cfg, frames, ticking) ==> NothingWaited(RunFrames(cfg, frames))
  {
    if EventMayWait(cfg, ticking) {
      var frames := SomeRunWaits(cfg, ticking);
    } else {
      forall frames: seq<Frame> | Decoded(cfg, frames, ticking)
        ensures NothingWaited(RunFrames(cfg, frames))
      {
        NothingIsEverPending(cfg, frames, ticking);
      }
    }
  }

  // ------------------------------------------------------------ the report

  /** The counters account for every event that had to wait. */
  predicate ReportAddsUp(s: State) {
    s.counts.enqueued == s.counts.flushed + s.counts.dropped
  }

  lemma OneLossIsTooMany(cfg: Config, frames: seq<Frame>, end: int, l: Loss)
    requires LegalFrames(cfg, frames) && LastTime(frames, end) <= end
    requires l in RunToEnd(cfg, frames, end).lost && l.why != Dropped
    ensures !ReportAddsUp(RunToEnd(cfg, frames, end))
  {
    ReportAddsUpExactly(cfg, frames, end);
  }

  lemma AllowedRunAddsUp(cfg: Config, frames: seq<Frame>, end: int, ticking: bool)
    requires Decoded(cfg, frames, ticking) && LastTime(frames, end) <= end
    requires !ExitMayWait(cfg, ticking) && !MergeMayLose(cfg, ticking)
    ensures ReportAddsUp(RunToEnd(cfg, frames, end))
  {
    ReportAddsUpExactly(cfg, frames, end);
    EveryLossIsAllowed(cfg, frames, end, ticking);
    var lost := RunToEnd(cfg, frames, end).lost;
    forall i | 0 <= i < |lost| ensures lost[i].why == Dropped { assert MayBeLost(AllowedBy(cfg, ticking), lost[i]); }
  }

  /** The counters add up in every run exactly when no exit may wait, and no held track
      with an event that may wait can be taken for another. */
  lemma EveryReportAddsUpExactly(cfg: Config, ticking: bool)
    ensures !ExitMayWait(cfg, ticking) && !MergeMayLose(cfg, ticking) <==>
      forall frames: seq<Frame>, end: int :: Decoded(cfg, frames, ticking) && LastTime(frames, end) <= end ==>
        ReportAddsUp(RunToEnd(cfg, frames, end))
  {
    if ExitMayWait(cfg, ticking) {
      var frames, end, l := SomeRunDiscards(cfg, ticking);
      OneLossIsTooMany(cfg, frames, end, l);
    } else if MergeMayLose(cfg, ticking) {
      var frames, end, l := SomeRunMergesAway(cfg, ticking);
      OneLossIsTooMany(cfg, frames, end, l);
    } else {
      forall frames: seq<Frame>, end: int | Decoded(cfg, frames, ticking) && LastTime(frames, end) <= end
        ensures ReportAddsUp(RunToEnd(cfg, frames, end))
      {
        AllowedRunAddsUp(cfg, frames, end, ticking);
      }
    }
  }
}
