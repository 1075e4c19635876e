/** What changes when no two observations of a track share an instant: a back-dated event
    needs a wider crossing window to come before an earlier one, and a short cooldown
    suppresses nothing. */
module DoorEngineStrict {
  import opened Wrappers
  import opened DoorEngine
  import opened DoorEngineRuns

  ghost predicate StrictlyOrdered(obs: seq<Observation>) {
    forall i, j :: 0 <= i < j < |obs| ==> obs[i].ts < obs[j].ts
  }

  /** How long after an event the opposite one comes at the earliest. */
  function Pause(cfg: EngineConfig): (r: int) {
    if cfg.cooldown > SettleCount(cfg) then cfg.cooldown else SettleCount(cfg)
  }

  /** Too long for the crossing to be taken for the event after an inferred transition, and
      after an inferred first entry, which is dated back itself. */
  predicate StrictOrderGuaranteed(cfg: EngineConfig) {
    || !cfg.lineConfigured
    || ((cfg.inferTransitions ==> cfg.window <= Pause(cfg)) &&
        (cfg.inferEntry ==> cfg.window < Pause(cfg) + SettleCount(cfg)))
  }

  lemma StrictIsOrdered(obs: seq<Observation>)
    requires StrictlyOrdered(obs)
    ensures TimeOrdered(obs)
  {
  }

  // ------------------------------------------------------- guaranteed order

  /** How far the present is from the latest event and from the first time inside. */
  ghost predicate Apart(cfg: EngineConfig, s: DoorState, es: seq<DoorEvent>, now: int) {
    && (es != [] && s.lastEvent.Some? && s.candidate != s.stable ==> now - s.lastEvent.value >= s.streak)
    && (s.stable == Unknown && s.candidate == Inside ==>
          s.firstInside.Some? && now - s.firstInside.value >= s.streak - 1)
  }

  /** A latest event that is dated after the latest crossing, and why. */
  ghost predicate DatedAfter(cfg: EngineConfig, s: DoorState, es: seq<DoorEvent>) {
    es != [] && s.lastEvent.Some? && s.crossing.Some? && s.crossing.value.ts < es[|es| - 1].ts ==>
      || (cfg.inferTransitions && es[|es| - 1].ts == s.lastEvent.value)
      || (cfg.inferEntry && s.lastEvent.value - es[|es| - 1].ts >= SettleCount(cfg) - 1)
  }

  lemma ApartStep(cfg: EngineConfig, s: DoorState, es: seq<DoorEvent>, now: int, o: Observation)
    requires TimesKept(cfg, s, es, now) && Apart(cfg, s, es, now) && now < o.ts && Observable(cfg, o)
    ensures Apart(cfg, Observe(cfg, s, o).0, es + Optional(Observe(cfg, s, o).1), o.ts)
  {
    assert es + [] == es;
  }

  /** What is known of a new event at a change of the stable zone. */
  lemma SwitchAt(cfg: EngineConfig, s: DoorState, es: seq<DoorEvent>, now: int, o: Observation)
    requires TimesKept(cfg, s, es, now) && Apart(cfg, s, es, now) && now < o.ts && Observable(cfg, o)
    requires Observe(cfg, s, o).1.Some?
    ensures var e, t := Observe(cfg, s, o).1.value, Observe(cfg, s, o).0; var c := Notice(s, o).crossing;
      && t.crossing == c && t.lastEvent == Some(o.ts)
      && (es != [] ==> s.lastEvent.Some? && o.ts - s.lastEvent.value >= Pause(cfg))
      && (|| (e.ts == o.ts && (cfg.lineConfigured ==> cfg.inferTransitions))
          || (c.Some? && e.ts == c.value.ts && o.ts - e.ts <= cfg.window)
          || (es == [] && cfg.inferEntry && o.ts - e.ts >= SettleCount(cfg) - 1))
  {
  }

  lemma OrderedStep(cfg: EngineConfig, s: DoorState, es: seq<DoorEvent>, now: int, o: Observation)
    requires StrictOrderGuaranteed(cfg) && Observable(cfg, o) && now < o.ts
    requires TimesKept(cfg, s, es, now) && Apart(cfg, s, es, now) && DatedAfter(cfg, s, es)
    ensures var (t, e) := Observe(cfg, s, o);
      && DatedAfter(cfg, t, es + Optional(e))
      && (e.Some? && es != [] ==> es[|es| - 1].ts <= e.value.ts)
  {
    assert es + [] == es;
    var t, e := Observe(cfg, s, o).0, Observe(cfg, s, o).1;
    if e.Some? {
      SwitchAt(cfg, s, es, now, o);
      CrossingKept(cfg, s, es, now, o);
    }
  }

  lemma CrossingKept(cfg: EngineConfig, s: DoorState, es: seq<DoorEvent>, now: int, o: Observation)
    requires TimesKept(cfg, s, es, now) && now < o.ts && Observable(cfg, o)
    ensures var c := Notice(s, o).crossing;
      (c.Some? ==> cfg.lineConfigured) && (c == s.crossing || (c.Some? && c.value.ts == o.ts))
  {
  }

  lemma {:induction false} StrictlyInOrder(cfg: EngineConfig, obs: seq<Observation>)
    requires StrictOrderGuaranteed(cfg) && StrictlyOrdered(obs) && AllObservable(cfg, obs) && obs != []
    ensures var s, es, now := StateAfter(cfg, obs), Emitted(cfg, obs), obs[|obs| - 1].ts;
      InOrder(es) && TimesKept(cfg, s, es, now) && Apart(cfg, s, es, now) && DatedAfter(cfg, s, es)
  {
    var front, o := obs[..|obs| - 1], obs[|obs| - 1];
    StrictIsOrdered(obs);
    TimesAreKept(cfg, obs, o.ts);
    if front == [] {
      FirstStep(cfg, o);
      assert obs == [o] && front == [];
    } else {
      StrictlyInOrder(cfg, front);
      var s, es, now := StateAfter(cfg, front), Emitted(cfg, front), front[|front| - 1].ts;
      ApartStep(cfg, s, es, now, o);
      OrderedStep(cfg, s, es, now, o);
      AppendInOrder(es, Observe(cfg, s, o).1);
    }
  }

  lemma FirstStep(cfg: EngineConfig, o: Observation)
    ensures var (t, e) := Observe(cfg, FRESH, o); var es := [] + Optional(e);
      Apart(cfg, t, es, o.ts) && DatedAfter(cfg, t, es) && InOrder(es)
  {
  }

  lemma AppendInOrder(es: seq<DoorEvent>, e: Option<DoorEvent>)
    requires InOrder(es) && (e.Some? && es != [] ==> es[|es| - 1].ts <= e.value.ts)
    ensures InOrder(es + Optional(e))
  {
  }

  // ---------------------------------------------------- runs that break the order

  /** An exit crossing at `t`, seen from two points in the gate one instant apart. */
  function CrossedBy(t: int): (r: seq<Observation>) {
    [Observation(t - 1, Unknown, Some(InsideSide), true)] + [Observation(t, Unknown, Some(OutsideSide), true)]
  }

  /** Points that are in no known zone only leave a crossing behind. */
  lemma CrossedLater(cfg: EngineConfig, r: Trace, at: int) returns (t: Trace)
    requires IsTrace(cfg, r)
    ensures IsTrace(cfg, t) && t.obs == r.obs + CrossedBy(at) && t.events == r.events
    ensures t.state.crossing == Some(Crossing(Exit, at)) && t.state.lastInGate == Some(at)
    ensures t.state.stable == r.state.stable && t.state.candidate == r.state.candidate
    ensures t.state.streak == r.state.streak
    ensures t.state.firstInside == r.state.firstInside && t.state.lastEvent == r.state.lastEvent
  {
    var u := NextTrace(cfg, r, Observation(at - 1, Unknown, Some(InsideSide), true));
    t := NextTrace(cfg, u, Observation(at, Unknown, Some(OutsideSide), true));
    assert t.obs == r.obs + CrossedBy(at);
    assert (r.events + []) + [] == r.events;
  }

  /** A zone that settles at `last`, after `n - 1` sightings from `t0` on. */
  function SettleLate(z: Zone, t0: int, n: nat, last: int): (r: seq<Observation>)
    requires n > 0
  {
    Block(z, t0, n - 1, true, true) + [Observation(last, z, None, true)]
  }

  lemma StrictConcat(a: seq<Observation>, b: seq<Observation>)
    requires StrictlyOrdered(a) && StrictlyOrdered(b) && (a != [] && b != [] ==> a[|a| - 1].ts < b[0].ts)
    ensures StrictlyOrdered(a + b)
  {
    var c := a + b;
    forall i, j | 0 <= i < j < |c| ensures c[i].ts < c[j].ts {
      if i < |a| <= j {
        assert c[i] == a[i] && c[j] == b[j - |a|];
        assert i < |a| - 1 ==> a[i].ts < a[|a| - 1].ts;
        assert 0 < j - |a| ==> b[0].ts < b[j - |a|].ts;
      } else if j < |a| {
        assert c[i] == a[i] && c[j] == a[j];
      } else {
        assert c[i] == b[i - |a|] && c[j] == b[j - |a|];
      }
    }
  }

  lemma BlockIsStrict(z: Zone, t0: int, n: nat)
    ensures var b := Block(z, t0, n, true, true);
      |b| == n && StrictlyOrdered(b) && (n > 0 ==> b[0].ts == t0 && b[n - 1].ts == t0 + n - 1)
    ensures forall i :: 0 <= i < n ==> Block(z, t0, n, true, true)[i].side == None
  {
    BlockElems(z, t0, n, true, true);
  }

  lemma LateIsStrict(z: Zone, t0: int, n: nat, last: int)
    requires n > 0 && last >= t0 + n - 1
    ensures var b := SettleLate(z, t0, n, last);
      StrictlyOrdered(b) && |b| == n && b[0].ts >= t0 && b[n - 1].ts == last
    ensures forall i :: 0 <= i < n ==> SettleLate(z, t0, n, last)[i].side == None
  {
    BlockIsStrict(z, t0, n - 1);
    StrictConcat(Block(z, t0, n - 1, true, true), [Observation(last, z, None, true)]);
  }

  /** How a run ends: inside since the event at `t1`, and out again as soon as may be. */
  lemma OutAgain(cfg: EngineConfig, r: Trace, t1: int, c: int) returns (t: Trace, e: DoorEvent)
    requires cfg.lineConfigured && t1 + Pause(cfg) - c <= cfg.window && IsTrace(cfg, r)
    requires r.state.stable == r.state.candidate == Inside
    requires r.state.crossing == Some(Crossing(Exit, c)) && r.state.lastEvent == Some(t1)
    ensures IsTrace(cfg, t) && t.obs == r.obs + SettleLate(Outside, t1 + 1, SettleCount(cfg), t1 + Pause(cfg))
    ensures e.ts == c && t.events == r.events + [e]
  {
    var n, last := SettleCount(cfg), t1 + Pause(cfg);
    var mid := ShortBlock(cfg, r, Outside, t1 + 1, n - 1, true, true);
    LateGrow(r.obs, t1 + 1, n, last, mid.obs);
    t, e := LastOut(cfg, r.state, mid, n, t1, c, if n == 1 then last else t1 + 1);
  }

  lemma LateGrow(obs: seq<Observation>, t0: int, n: nat, last: int, mid: seq<Observation>)
    requires n > 0 && mid == obs + Block(Outside, t0, n - 1, true, true)
    ensures mid + [Observation(last, Outside, None, true)] == obs + SettleLate(Outside, t0, n, last)
  {
  }

  lemma LastOut(cfg: EngineConfig, s: DoorState, mid: Trace, n: nat, t1: int, c: int, t0: int)
    returns (t: Trace, e: DoorEvent)
    requires cfg.lineConfigured && t1 + Pause(cfg) - c <= cfg.window && n == SettleCount(cfg) && IsTrace(cfg, mid)
    requires s.stable == s.candidate == Inside && s.crossing == Some(Crossing(Exit, c)) && s.lastEvent == Some(t1)
    requires Unsettled(s, mid.state, Outside, t0, n - 1) && (n == 1 ==> t0 == t1 + Pause(cfg))
    requires mid.state.lastInGate == s.lastInGate || n > 1
    ensures IsTrace(cfg, t) && t.obs == mid.obs + [Observation(t1 + Pause(cfg), Outside, None, true)]
    ensures e.ts == c && t.events == mid.events + [e]
  {
    var d;
    t, d := LastOfBlock(cfg, s, mid, Outside, t0, n, t1 + Pause(cfg), true);
    e := d.value;
  }

  /** With inferred transitions: outside, and inside with an exit crossing just before it settles. */
  function CrossedEntry(n: nat): (r: seq<Observation>)
    requires n > 0
  {
    Block(Outside, 0, n, true, true) + Block(Inside, n, n - 1, true, true) + CrossedBy(2 * n)
    + [Observation(2 * n + 1, Inside, None, true)]
  }

  lemma CrossedEntryRun(cfg: EngineConfig, n: nat) returns (t: Trace, e: DoorEvent)
    requires cfg.lineConfigured && cfg.inferTransitions && cfg.window >= 0 && n == SettleCount(cfg)
    ensures IsTrace(cfg, t) && t.obs == CrossedEntry(n) && t.events == [e] && e.ts == 2 * n + 1
    ensures t.state.stable == t.state.candidate == Inside
    ensures t.state.crossing == Some(Crossing(Exit, 2 * n)) && t.state.lastEvent == Some(2 * n + 1)
  {
    var _, r, _ := FirstBlock(cfg, Outside, n, true, true);
    var mid := CrossedAgain(cfg, r, n);
    t, e := LastIn(cfg, r.state.(crossing := mid.state.crossing), mid, n);
    CrossedEntryIs(n, r.obs, mid.obs, t.obs);
  }

  lemma CrossedEntryIs(n: nat, a: seq<Observation>, b: seq<Observation>, c: seq<Observation>)
    requires n > 0 && a == Block(Outside, 0, n, true, true)
    requires b == a + Block(Inside, n, n - 1, true, true) + CrossedBy(2 * n)
    requires c == b + [Observation(2 * n + 1, Inside, None, true)]
    ensures c == CrossedEntry(n)
  {
  }

  /** Almost inside when the crossing comes. */
  lemma CrossedAgain(cfg: EngineConfig, r: Trace, n: nat) returns (t: Trace)
    requires IsTrace(cfg, r) && n == SettleCount(cfg) && r.state.stable == r.state.candidate == Outside
    ensures IsTrace(cfg, t) && t.obs == r.obs + Block(Inside, n, n - 1, true, true) + CrossedBy(2 * n)
    ensures t.events == r.events && t.state.crossing == Some(Crossing(Exit, 2 * n)) && t.state.lastInGate.Some?
    ensures Unsettled(r.state.(crossing := t.state.crossing), t.state, Inside, if n == 1 then 2 * n + 1 else n, n - 1)
  {
    var mid := ShortBlock(cfg, r, Inside, n, n - 1, true, true);
    t := CrossedLater(cfg, mid, 2 * n);
  }

  lemma LastIn(cfg: EngineConfig, s: DoorState, mid: Trace, n: nat) returns (t: Trace, e: DoorEvent)
    requires cfg.lineConfigured && cfg.inferTransitions && cfg.window >= 0 && n == SettleCount(cfg) && IsTrace(cfg, mid)
    requires s.stable == Outside && s.lastEvent == None && s.crossing == Some(Crossing(Exit, 2 * n))
    requires Unsettled(s, mid.state, Inside, if n == 1 then 2 * n + 1 else n, n - 1) && mid.state.lastInGate.Some?
    ensures IsTrace(cfg, t) && t.obs == mid.obs + [Observation(2 * n + 1, Inside, None, true)]
    ensures t.events == mid.events + [e] && e.ts == 2 * n + 1
    ensures t.state.stable == t.state.candidate == Inside && t.state.crossing == s.crossing
    ensures t.state.lastEvent == Some(2 * n + 1)
  {
    var last, d := 2 * n + 1, None;
    t, d := LastOfBlock(cfg, s, mid, Inside, if n == 1 then last else n, n, last, true);
    e := d.value;
  }

  /** With inferred first entries: an exit crossing, and then inside. */
  function CrossedFirst(n: nat): (r: seq<Observation>) {
    CrossedBy(1) + Block(Inside, 2, n, true, true)
  }

  lemma CrossedFirstRun(cfg: EngineConfig, n: nat) returns (t: Trace, e: DoorEvent)
    requires cfg.lineConfigured && cfg.inferEntry && n == SettleCount(cfg)
    ensures IsTrace(cfg, t) && t.obs == CrossedFirst(n) && t.events == [e] && e.ts == 2
    ensures t.state.stable == t.state.candidate == Inside
    ensures t.state.crossing == Some(Crossing(Exit, 1)) && t.state.lastEvent == Some(n + 1)
  {
    var r := CrossedLater(cfg, NOTHING, 1);
    var m, u, d := SettlingBlock(cfg, r, Inside, 2, n, true, true);
    EntryAtTwo(cfg, m.state, n, Tick(2, n - 1, true));
    t, e := u, d.value;
    CrossedFirstIs(n, r.obs, t.obs);
  }

  lemma CrossedFirstIs(n: nat, a: seq<Observation>, b: seq<Observation>)
    requires a == [] + CrossedBy(1) && b == a + Block(Inside, 2, n, true, true)
    ensures b == CrossedFirst(n)
  {
    assert a == CrossedBy(1);
  }

  lemma EntryAtTwo(cfg: EngineConfig, m: DoorState, n: nat, ts: int)
    requires cfg.lineConfigured && cfg.inferEntry && n == SettleCount(cfg) && ts == n + 1
    requires m.crossing == Some(Crossing(Exit, 1)) && m.lastEvent == None
    requires m.firstInside == if n > 1 then Some(2) else None
    ensures var e := Decide(cfg, Unknown, Settling(m, Inside, ts, true), ts); e.Some? && e.value.ts == 2
  {
  }

  lemma SomeRunBreaksOrder(cfg: EngineConfig) returns (t: Trace)
    requires !StrictOrderGuaranteed(cfg)
    ensures IsTrace(cfg, t) && StrictlyOrdered(t.obs) && AllObservable(cfg, t.obs) && !InOrder(t.events)
  {
    if cfg.inferTransitions && cfg.window > Pause(cfg) {
      t := EntryBreaksOrder(cfg, SettleCount(cfg));
    } else {
      t := FirstBreaksOrder(cfg, SettleCount(cfg));
    }
  }

  lemma BrokenOnTheWayOut(cfg: EngineConfig, r: Trace, d: DoorEvent, at: int, c: int) returns (t: Trace)
    requires cfg.lineConfigured && at + Pause(cfg) - c <= cfg.window && IsTrace(cfg, r)
    requires r.state.stable == r.state.candidate == Inside
    requires r.state.crossing == Some(Crossing(Exit, c)) && r.state.lastEvent == Some(at)
    requires r.events == [d] && d.ts > c
    ensures IsTrace(cfg, t) && t.obs == r.obs + SettleLate(Outside, at + 1, SettleCount(cfg), at + Pause(cfg))
    ensures !InOrder(t.events)
  {
    var e;
    t, e := OutAgain(cfg, r, at, c);
    NotInOrder(t.events, d, e);
  }

  lemma EntryBreaksOrder(cfg: EngineConfig, n: nat) returns (t: Trace)
    requires cfg.lineConfigured && cfg.inferTransitions && cfg.window > Pause(cfg) && n == SettleCount(cfg)
    ensures IsTrace(cfg, t) && StrictlyOrdered(t.obs) && AllObservable(cfg, t.obs) && !InOrder(t.events)
  {
    var r, d := CrossedEntryRun(cfg, n);
    t := BrokenOnTheWayOut(cfg, r, d, 2 * n + 1, 2 * n);
    CrossedEntryIsStrict(cfg, n, r.obs);
    StaysStrict(cfg, r.obs, 2 * n + 1, n, t.obs);
  }

  lemma FirstBreaksOrder(cfg: EngineConfig, n: nat) returns (t: Trace)
    requires cfg.lineConfigured && cfg.inferEntry && cfg.window >= Pause(cfg) + SettleCount(cfg)
    requires n == SettleCount(cfg)
    ensures IsTrace(cfg, t) && StrictlyOrdered(t.obs) && AllObservable(cfg, t.obs) && !InOrder(t.events)
  {
    var r, d := CrossedFirstRun(cfg, n);
    t := BrokenOnTheWayOut(cfg, r, d, n + 1, 1);
    CrossedFirstIsStrict(cfg, n, r.obs);
    StaysStrict(cfg, r.obs, n + 1, n, t.obs);
  }

  lemma CrossedEntryIsStrict(cfg: EngineConfig, n: nat, obs: seq<Observation>)
    requires n > 0 && cfg.lineConfigured && obs == CrossedEntry(n)
    ensures obs != [] && obs[|obs| - 1].ts == 2 * n + 1 && StrictlyOrdered(obs) && AllObservable(cfg, obs)
  {
    var a, b := Block(Outside, 0, n, true, true), Block(Inside, n, n - 1, true, true);
    var c, d := CrossedBy(2 * n), [Observation(2 * n + 1, Inside, None, true)];
    BlockIsStrict(Outside, 0, n);
    BlockIsStrict(Inside, n, n - 1);
    StrictConcat(a, b);
    StrictConcat(a + b, c);
    StrictConcat(a + b + c, d);
  }

  lemma CrossedFirstIsStrict(cfg: EngineConfig, n: nat, obs: seq<Observation>)
    requires n > 0 && cfg.lineConfigured && obs == CrossedFirst(n)
    ensures obs != [] && obs[|obs| - 1].ts == n + 1 && StrictlyOrdered(obs) && AllObservable(cfg, obs)
  {
    BlockIsStrict(Inside, 2, n);
    StrictConcat(CrossedBy(1), Block(Inside, 2, n, true, true));
  }

  lemma StaysStrict(cfg: EngineConfig, obs: seq<Observation>, at: int, n: nat, all: seq<Observation>)
    requires n == SettleCount(cfg) && all == obs + SettleLate(Outside, at + 1, n, at + Pause(cfg))
    requires obs != [] && obs[|obs| - 1].ts == at && StrictlyOrdered(obs) && AllObservable(cfg, obs)
    ensures StrictlyOrdered(all) && AllObservable(cfg, all)
  {
    LateIsStrict(Outside, at + 1, n, at + Pause(cfg));
    StrictConcat(obs, SettleLate(Outside, at + 1, n, at + Pause(cfg)));
  }

  /** When no two observations share an instant, events of every run are in time order,
      the final inferred exit included, exactly when the crossing window is no longer than
      the pause after an event, and with inferred first entries shorter than that and one
      settling together. */
  lemma StrictOrderExact(cfg: EngineConfig, inferExit: bool)
    ensures StrictOrderGuaranteed(cfg) <==>
      forall obs: seq<Observation> :: StrictlyOrdered(obs) && AllObservable(cfg, obs) ==>
        InOrder(EmittedToEnd(cfg, inferExit, obs))
  {
    if StrictOrderGuaranteed(cfg) {
      forall obs: seq<Observation> | StrictlyOrdered(obs) && AllObservable(cfg, obs)
        ensures InOrder(EmittedToEnd(cfg, inferExit, obs))
      {
        StrictlyInOrderToEnd(cfg, inferExit, obs);
      }
    } else {
      var t := SomeRunBreaksOrder(cfg);
      BrokenToEnd(cfg, inferExit, t);
    }
  }

  lemma StrictlyInOrderToEnd(cfg: EngineConfig, inferExit: bool, obs: seq<Observation>)
    requires StrictOrderGuaranteed(cfg) && StrictlyOrdered(obs) && AllObservable(cfg, obs)
    ensures InOrder(EmittedToEnd(cfg, inferExit, obs))
  {
    if obs != [] { StrictlyInOrder(cfg, obs); }
  }

  // ------------------------------------------------------- nothing suppressed

  lemma ReportedStep(cfg: EngineConfig, s: DoorState, es: seq<DoorEvent>, now: int, o: Observation)
    requires AlwaysReported(cfg, true) && Observable(cfg, o) && now < o.ts
    requires TimesKept(cfg, s, es, now) && Apart(cfg, s, es, now)
    ensures var (t, e) := Observe(cfg, s, o); var flip := Flip(s.stable, t.stable);
      e.Some? == flip.Some? && (e.Some? ==> e.value.kind == flip.value)
  {
    var n := Notice(s, o);
    if o.zone != Unknown {
      var d := Debounce(cfg, n, o.zone);
      if d.stable != n.stable {
        assert d.lastEvent == s.lastEvent && !InCooldown(d, o.ts, cfg.cooldown);
      }
    }
  }

  lemma {:induction false} EveryFlipIsReported(cfg: EngineConfig, obs: seq<Observation>)
    requires AlwaysReported(cfg, true) && StrictlyOrdered(obs) && AllObservable(cfg, obs)
    ensures Kinds(Emitted(cfg, obs)) == Flips(cfg, obs)
  {
    if obs == [] {
    } else {
      var front, o := obs[..|obs| - 1], obs[|obs| - 1];
      EveryFlipIsReported(cfg, front);
      if front == [] {
        ReportedFirst(cfg, o);
      } else {
        StrictlyInOrder(cfg, front);
        ReportedStep(cfg, StateAfter(cfg, front), Emitted(cfg, front), front[|front| - 1].ts, o);
      }
      KindsStep(Emitted(cfg, front), Observe(cfg, StateAfter(cfg, front), o).1);
    }
  }

  lemma ReportedFirst(cfg: EngineConfig, o: Observation)
    requires AlwaysReported(cfg, true) && Observable(cfg, o)
    ensures var (t, e) := Observe(cfg, FRESH, o); var flip := Flip(Unknown, t.stable);
      e.Some? == flip.Some? && (e.Some? ==> e.value.kind == flip.value)
  {
  }

  lemma InAndOutIsStrict(cfg: EngineConfig, n: nat)
    ensures StrictlyOrdered(InAndOut(n, true)) && AllObservable(cfg, InAndOut(n, true))
    ensures var b := Block(Inside, 0, n, false, true); StrictlyOrdered(b) && AllObservable(cfg, b)
  {
    BlockElems(Inside, 0, n, false, true);
    BlockElems(Outside, n, n, false, true);
    StrictConcat(Block(Inside, 0, n, false, true), Block(Outside, n, n, false, true));
  }

  /** When no two observations share an instant, a cooldown no longer than one settling
      suppresses nothing either; the exact condition is that, no line, and the first entry
      inferred. */
  lemma NothingSuppressedStrictly(cfg: EngineConfig)
    ensures AlwaysReported(cfg, true) <==>
      forall obs: seq<Observation> :: StrictlyOrdered(obs) && AllObservable(cfg, obs) ==>
        Kinds(Emitted(cfg, obs)) == Flips(cfg, obs)
  {
    if AlwaysReported(cfg, true) {
      forall obs: seq<Observation> | StrictlyOrdered(obs) && AllObservable(cfg, obs)
        ensures Kinds(Emitted(cfg, obs)) == Flips(cfg, obs)
      {
        EveryFlipIsReported(cfg, obs);
      }
    } else {
      var t := SuppressedRun(cfg, SettleCount(cfg), true);
      InAndOutIsStrict(cfg, SettleCount(cfg));
    }
  }
}
