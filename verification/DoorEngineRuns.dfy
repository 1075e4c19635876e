/** What a whole run of observations of one track adds up to. */
module DoorEngineRuns {
  import opened Wrappers
  import opened DoorEngine

  // ------------------------------------------------------------ debouncing

  /** The zone history: the zones of the observations that have one. */
  function Known(obs: seq<Observation>): (r: seq<Zone>) {
    if obs == [] then []
    else Known(obs[..|obs| - 1]) + (if obs[|obs| - 1].zone == Unknown then [] else [obs[|obs| - 1].zone])
  }

  /** The last `n` zones up to and including position `i` are the same. */
  ghost predicate RunEndsAt(h: seq<Zone>, i: nat, n: int) {
    i < |h| && n <= i + 1 && forall j :: 0 <= j <= i && i - n < j ==> h[j] == h[i]
  }

  /** `k` is the length of the longest constant suffix of `h`, whose zone is `z`. */
  ghost predicate LongestSuffix(h: seq<Zone>, z: Zone, k: nat) {
    if h == [] then k == 0 && z == Unknown
    else z == h[|h| - 1] && RunEndsAt(h, |h| - 1, k) && !RunEndsAt(h, |h| - 1, k + 1)
  }

  /** `z` is the zone of the latest run of at least `n` in `h`, or `Unknown` when there is none. */
  ghost predicate LatestRun(h: seq<Zone>, n: int, z: Zone) {
    if z == Unknown then forall i: nat :: !RunEndsAt(h, i, n)
    else exists i: nat :: RunEndsAt(h, i, n) && h[i] == z && forall j: nat :: i < j ==> !RunEndsAt(h, j, n)
  }

  /** Growing the history by one zone changes the runs only at its end. */
  lemma RunsGrow(h: seq<Zone>, z: Zone, before: Zone, k: nat, n: int)
    requires LongestSuffix(h, before, k) && z != Unknown
    ensures forall i: nat, m: int :: i < |h| ==> (RunEndsAt(h + [z], i, m) <==> RunEndsAt(h, i, m))
    ensures RunEndsAt(h + [z], |h|, n) <==> n <= if z == before then k + 1 else 1
  {
    var g := h + [z];
    forall i: nat, m: int | i < |h| ensures RunEndsAt(g, i, m) <==> RunEndsAt(h, i, m) {
      assert forall j :: 0 <= j <= i ==> g[j] == h[j];
    }
    var top := if z == before then k + 1 else 1;
    if n <= top {
      forall j | 0 <= j <= |h| && |h| - n < j ensures g[j] == g[|h|] {
        if j < |h| { assert h[j] == h[|h| - 1]; }
      }
    } else if h != [] {
      assert g[|h| - 1] == before;
      if z == before && RunEndsAt(g, |h|, n) {
        forall j | 0 <= j <= |h| - 1 && |h| - 1 - (k + 1) < j ensures h[j] == h[|h| - 1] {
          assert g[j] == g[|h|];
        }
        assert RunEndsAt(h, |h| - 1, k + 1);
      }
    }
  }

  lemma DebounceStep(cfg: EngineConfig, h: seq<Zone>, s: DoorState, z: Zone)
    requires z != Unknown && LongestSuffix(h, s.candidate, s.streak) && LatestRun(h, cfg.minStable, s.stable)
    ensures var t := Debounce(cfg, s, z);
      LongestSuffix(h + [z], t.candidate, t.streak) && LatestRun(h + [z], cfg.minStable, t.stable)
  {
    var t, g, n := Debounce(cfg, s, z), h + [z], cfg.minStable;
    RunsGrow(h, z, s.candidate, s.streak, n);
    RunsGrow(h, z, s.candidate, s.streak, t.streak);
    RunsGrow(h, z, s.candidate, s.streak, t.streak + 1);
    if n <= t.streak {
      assert RunEndsAt(g, |h|, n) && g[|h|] == z;
    } else if s.stable != Unknown {
      var i: nat :| RunEndsAt(h, i, n) && h[i] == s.stable && forall j: nat :: i < j ==> !RunEndsAt(h, j, n);
      assert RunEndsAt(g, i, n) && g[i] == s.stable;
    }
  }

  /** The streaming debounce computes a function of the zone history. */
  lemma {:induction false} DebounceRefinesHistory(cfg: EngineConfig, obs: seq<Observation>)
    ensures var s, h := StateAfter(cfg, obs), Known(obs);
      LongestSuffix(h, s.candidate, s.streak) && LatestRun(h, cfg.minStable, s.stable)
    ensures forall z :: z in Known(obs) ==> z != Unknown
  {
    if obs == [] {
    } else {
      var front, o := obs[..|obs| - 1], obs[|obs| - 1];
      DebounceRefinesHistory(cfg, front);
      if o.zone != Unknown {
        DebounceStep(cfg, Known(front), Notice(StateAfter(cfg, front), o), o.zone);
      } else {
        assert Known(obs) == Known(front);
      }
    }
  }

  /** A track that has settled in a zone never becomes unsettled again. */
  lemma {:induction false} SettledForever(cfg: EngineConfig, obs: seq<Observation>, more: seq<Observation>)
    requires StateAfter(cfg, obs).stable != Unknown
    ensures StateAfter(cfg, obs + more).stable != Unknown
  {
    if more == [] {
      assert obs + more == obs;
    } else {
      var front, o := more[..|more| - 1], more[|more| - 1];
      SettledForever(cfg, obs, front);
      assert obs + more == (obs + front) + [o];
      RunStep(cfg, obs + front, o);
    }
  }

  // ------------------------------------------------------------ alternation

  /** The event that a change of the stable zone would mean, if nothing suppressed it. */
  function Flip(prev: Zone, next: Zone): (r: Option<EventKind>) {
    if prev == next then None
    else match next
      case Inside => Some(Entry)
      case Outside => if prev == Inside then Some(Exit) else None
      case Unknown => None
  }

  function Flips(cfg: EngineConfig, obs: seq<Observation>): (r: seq<EventKind>) {
    if obs == [] then []
    else Flips(cfg, obs[..|obs| - 1]) +
         Optional(Flip(StateAfter(cfg, obs[..|obs| - 1]).stable, StateAfter(cfg, obs).stable))
  }

  function Kinds(es: seq<DoorEvent>): (r: seq<EventKind>) {
    if es == [] then [] else Kinds(es[..|es| - 1]) + [es[|es| - 1].kind]
  }

  lemma KindsStep(es: seq<DoorEvent>, e: Option<DoorEvent>)
    ensures Kinds(es + Optional(e)) == Kinds(es) + if e.Some? then [e.value.kind] else []
  {
    if e.Some? {
      assert (es + [e.value])[..|es + [e.value]| - 1] == es;
    } else {
      assert es + [] == es && Kinds(es) + [] == Kinds(es);
    }
  }

  /** Entry, exit, entry, exit, ... starting with an entry. */
  ghost predicate Alternating(ks: seq<EventKind>) {
    forall i :: 0 <= i < |ks| ==> ks[i] == if i % 2 == 0 then Entry else Exit
  }

  ghost predicate Subsequence<T>(a: seq<T>, b: seq<T>) {
    a == [] ||
    (b != [] &&
     ((a[|a| - 1] == b[|b| - 1] && Subsequence(a[..|a| - 1], b[..|b| - 1])) || Subsequence(a, b[..|b| - 1])))
  }

  lemma SubsequenceGrow<T>(a: seq<T>, b: seq<T>, x: T)
    requires Subsequence(a, b)
    ensures Subsequence(a, b + [x]) && Subsequence(a + [x], b + [x])
  {
    assert (b + [x])[..|b + [x]| - 1] == b;
    assert (a + [x])[..|a + [x]| - 1] == a;
  }

  lemma {:induction false} FlipsAlternate(cfg: EngineConfig, obs: seq<Observation>)
    ensures Alternating(Flips(cfg, obs))
    ensures |Flips(cfg, obs)| % 2 == 1 <==> StateAfter(cfg, obs).stable == Inside
  {
    if obs == [] {
    } else {
      FlipsAlternate(cfg, obs[..|obs| - 1]);
    }
  }

  lemma EventIsFlip(cfg: EngineConfig, s: DoorState, o: Observation)
    ensures var (t, e) := Observe(cfg, s, o);
      e.Some? ==> Flip(s.stable, t.stable) == Some(e.value.kind)
  {
  }

  /** Whatever is configured, the emitted events are the alternating zone
      changes with some of them suppressed. */
  lemma {:induction false} EmittedIsSubsequenceOfFlips(cfg: EngineConfig, obs: seq<Observation>)
    ensures Subsequence(Kinds(Emitted(cfg, obs)), Flips(cfg, obs)) && Alternating(Flips(cfg, obs))
  {
    FlipsAlternate(cfg, obs);
    if obs == [] {
    } else {
      var front, o := obs[..|obs| - 1], obs[|obs| - 1];
      EmittedIsSubsequenceOfFlips(cfg, front);
      var s, t, e := StateAfter(cfg, front), StateAfter(cfg, obs), Observe(cfg, StateAfter(cfg, front), o).1;
      var a, b := Kinds(Emitted(cfg, front)), Flips(cfg, front);
      KindsStep(Emitted(cfg, front), e);
      var flip := Flip(s.stable, t.stable);
      EventIsFlip(cfg, s, o);
      assert a + [] == a && b + [] == b;
      if flip.Some? {
        SubsequenceGrow(a, b, flip.value);
      }
    }
  }

  /** The times that one run keeps about its track. */
  ghost predicate TimesKept(cfg: EngineConfig, s: DoorState, es: seq<DoorEvent>, now: int) {
    && (s.lastSeen.Some? ==> s.lastSeen.value <= now)
    && (s.firstSeen.Some? <==> s.lastSeen.Some?)
    && (s.firstSeen.Some? ==> s.firstSeen.value <= now)
    && (s.firstInside.Some? <==> s.lastInside.Some?)
    && (s.lastInside.Some? ==> s.firstInside.value <= s.lastInside.value <= now)
    && (s.crossing.Some? ==> s.crossing.value.ts <= now && cfg.lineConfigured)
    && (s.lastSide.Some? ==> cfg.lineConfigured)
    && (s.lastEvent.Some? <==> es != [])
    && (s.lastEvent.Some? ==> es[|es| - 1].ts <= s.lastEvent.value <= now)
    && (s.stable == Unknown ==> es == [])
    && (s.stable == Inside ==> s.lastInside.Some? && (es != [] ==> s.lastEvent.value <= s.lastInside.value))
  }

  lemma {:induction false} TimesAreKept(cfg: EngineConfig, obs: seq<Observation>, now: int)
    requires TimeOrdered(obs) && AllObservable(cfg, obs)
    requires obs != [] ==> obs[|obs| - 1].ts <= now
    ensures TimesKept(cfg, StateAfter(cfg, obs), Emitted(cfg, obs), now)
  {
    if obs == [] {
    } else {
      var front, o := obs[..|obs| - 1], obs[|obs| - 1];
      TimesAreKept(cfg, front, o.ts);
      TimesStep(cfg, StateAfter(cfg, front), Emitted(cfg, front), o);
    }
  }

  lemma TimesStep(cfg: EngineConfig, s: DoorState, es: seq<DoorEvent>, o: Observation)
    requires TimesKept(cfg, s, es, o.ts) && Observable(cfg, o)
    ensures TimesKept(cfg, Observe(cfg, s, o).0, es + Optional(Observe(cfg, s, o).1), o.ts)
  {
    NoticeKeepsTimes(cfg, s, es, o);
    SwitchKeepsTimes(cfg, Notice(s, o), es, o);
  }

  lemma NoticeKeepsTimes(cfg: EngineConfig, s: DoorState, es: seq<DoorEvent>, o: Observation)
    requires TimesKept(cfg, s, es, o.ts) && Observable(cfg, o)
    ensures TimesKept(cfg, Notice(s, o), es, o.ts)
  {
  }

  /** An event is dated at its observation, at a recent crossing of its kind, or
      at the first time inside, and only outside the cooldown. */
  lemma DecideDates(cfg: EngineConfig, prev: Zone, s: DoorState, ts: int)
    requires s.stable != Unknown && prev != s.stable && s.firstInside.Some?
    ensures var e := Decide(cfg, prev, s, ts);
      e.Some? ==>
        && !InCooldown(s, ts, cfg.cooldown)
        && e.value.kind == (if s.stable == Inside then Entry else Exit)
        && (|| (e.value.ts == ts && (e.value.inferred ==> cfg.inferTransitions))
            || (s.crossing.Some? && e.value.ts == s.crossing.value.ts && ts - e.value.ts <= cfg.window)
            || (prev == Unknown && cfg.inferEntry && e.value.ts == s.firstInside.value))
  {
  }

  lemma SwitchKeepsTimes(cfg: EngineConfig, n: DoorState, es: seq<DoorEvent>, o: Observation)
    requires TimesKept(cfg, n, es, o.ts)
    requires o.zone == Inside ==> n.lastInside == Some(o.ts)
    ensures TimesKept(cfg, Switch(cfg, n, o).0, es + Optional(Switch(cfg, n, o).1), o.ts)
  {
    assert es + [] == es;
    if o.zone != Unknown {
      var d := Debounce(cfg, n, o.zone);
      if d.stable != n.stable && d.firstInside.Some? {
        DecideDates(cfg, n.stable, d, o.ts);
      }
    }
  }

  lemma NothingSuppressedStep(cfg: EngineConfig, s: DoorState, es: seq<DoorEvent>, o: Observation)
    requires !cfg.lineConfigured && cfg.cooldown <= 0 && cfg.inferEntry
    requires TimesKept(cfg, s, es, o.ts) && Observable(cfg, o)
    ensures var (t, e) := Observe(cfg, s, o); var flip := Flip(s.stable, t.stable);
      e.Some? == flip.Some? && (e.Some? ==> e.value.kind == flip.value)
  {
    NoticeKeepsTimes(cfg, s, es, o);
    var n := Notice(s, o);
    if o.zone != Unknown {
      var d := Debounce(cfg, n, o.zone);
      assert d.lastEvent == n.lastEvent && !InCooldown(d, o.ts, cfg.cooldown);
    }
  }

  /** With no line, no cooldown and both inferences on, nothing is suppressed:
      the run, closed by the inferred exit, alternates from an entry and has as
      many exits as entries. */
  lemma {:induction false} NothingSuppressed(cfg: EngineConfig, obs: seq<Observation>)
    requires !cfg.lineConfigured && cfg.cooldown <= 0 && cfg.inferEntry
    requires TimeOrdered(obs) && AllObservable(cfg, obs)
    ensures Kinds(Emitted(cfg, obs)) == Flips(cfg, obs)
    ensures var all := Kinds(EmittedToEnd(cfg, true, obs)); Alternating(all) && |all| % 2 == 0
  {
    if obs == [] {
    } else {
      var front, o := obs[..|obs| - 1], obs[|obs| - 1];
      NothingSuppressed(cfg, front);
      TimesAreKept(cfg, front, o.ts);
      NothingSuppressedStep(cfg, StateAfter(cfg, front), Emitted(cfg, front), o);
      KindsStep(Emitted(cfg, front), Observe(cfg, StateAfter(cfg, front), o).1);
    }
    ClosedByExit(cfg, obs);
  }

  lemma ClosedByExit(cfg: EngineConfig, obs: seq<Observation>)
    requires TimeOrdered(obs) && AllObservable(cfg, obs)
    requires Kinds(Emitted(cfg, obs)) == Flips(cfg, obs)
    ensures var all := Kinds(EmittedToEnd(cfg, true, obs)); Alternating(all) && |all| % 2 == 0
  {
    FlipsAlternate(cfg, obs);
    TimesAreKept(cfg, obs, if obs == [] then 0 else obs[|obs| - 1].ts);
    var s := StateAfter(cfg, obs);
    FinalExit(s);
    KindsStep(Emitted(cfg, obs), Finalize(s, true));
    CloseAlternation(Flips(cfg, obs), s.stable == Inside);
  }

  lemma FinalExit(s: DoorState)
    requires s.stable == Inside ==> s.lastInside.Some?
    ensures var e := Finalize(s, true); if s.stable == Inside then e.Some? && e.value.kind == Exit else e == None
  {
  }

  lemma CloseAlternation(ks: seq<EventKind>, open: bool)
    requires Alternating(ks) && (open <==> |ks| % 2 == 1)
    ensures var all := ks + if open then [Exit] else []; Alternating(all) && |all| % 2 == 0
  {
  }

  // ------------------------------------------------ where events are dated

  /** Nothing is dated before `first`, and no event later than the instant of the latest one. */
  ghost predicate Dated(s: DoorState, es: seq<DoorEvent>, first: int) {
    && (s.firstSeen.Some? ==> first <= s.firstSeen.value)
    && (s.firstInside.Some? ==> first <= s.firstInside.value)
    && (s.lastInside.Some? ==> first <= s.lastInside.value)
    && (s.crossing.Some? ==> first <= s.crossing.value.ts)
    && forall e :: e in es ==> s.lastEvent.Some? && first <= e.ts <= s.lastEvent.value
  }

  lemma DecideIsDated(cfg: EngineConfig, prev: Zone, s: DoorState, es: seq<DoorEvent>, ts: int, first: int)
    requires Dated(s, es, first) && first <= ts && s.stable != Unknown && prev != s.stable
    requires s.firstInside.Some? ==> s.firstInside.value <= ts
    requires s.firstSeen.Some? ==> s.firstSeen.value <= ts
    requires s.crossing.Some? ==> s.crossing.value.ts <= ts
    ensures var e := Decide(cfg, prev, s, ts); e.Some? ==> first <= e.value.ts <= ts
  {
  }

  lemma NoticeIsDated(s: DoorState, es: seq<DoorEvent>, o: Observation, first: int)
    requires Dated(s, es, first) && first <= o.ts
    ensures Dated(Notice(s, o), es, first)
  {
  }

  lemma SwitchIsDated(cfg: EngineConfig, n: DoorState, es: seq<DoorEvent>, o: Observation, first: int)
    requires Dated(n, es, first) && TimesKept(cfg, n, es, o.ts) && first <= o.ts
    ensures Dated(Switch(cfg, n, o).0, es + Optional(Switch(cfg, n, o).1), first)
  {
    assert es + [] == es;
    if o.zone != Unknown {
      var d := Debounce(cfg, n, o.zone);
      if d.stable != n.stable { DecideIsDated(cfg, n.stable, d, es, o.ts, first); }
    }
  }

  lemma DatedStep(cfg: EngineConfig, s: DoorState, es: seq<DoorEvent>, o: Observation, first: int)
    requires Dated(s, es, first) && TimesKept(cfg, s, es, o.ts) && Observable(cfg, o) && first <= o.ts
    ensures Dated(Observe(cfg, s, o).0, es + Optional(Observe(cfg, s, o).1), first)
  {
    NoticeKeepsTimes(cfg, s, es, o);
    NoticeIsDated(s, es, o, first);
    SwitchIsDated(cfg, Notice(s, o), es, o, first);
  }

  lemma {:induction false} EventsAreDated(cfg: EngineConfig, obs: seq<Observation>)
    requires TimeOrdered(obs) && AllObservable(cfg, obs) && obs != []
    ensures Dated(StateAfter(cfg, obs), Emitted(cfg, obs), obs[0].ts)
  {
    var front, o := obs[..|obs| - 1], obs[|obs| - 1];
    TimesAreKept(cfg, front, o.ts);
    if front == [] {
    } else {
      EventsAreDated(cfg, front);
    }
    DatedStep(cfg, StateAfter(cfg, front), Emitted(cfg, front), o, obs[0].ts);
  }

  /** For every configuration: every event, the final inferred exit included, is dated between
      the first and the last observation, and none later than that exit. Events are only
      dated back, never ahead. */
  lemma EveryEventIsWithin(cfg: EngineConfig, inferExit: bool, obs: seq<Observation>)
    requires TimeOrdered(obs) && AllObservable(cfg, obs) && obs != []
    ensures var last := Finalize(StateAfter(cfg, obs), inferExit);
      && (forall e :: e in EmittedToEnd(cfg, inferExit, obs) ==> obs[0].ts <= e.ts <= obs[|obs| - 1].ts)
      && (last.Some? ==> forall e :: e in Emitted(cfg, obs) ==> e.ts <= last.value.ts)
  {
    EventsAreDated(cfg, obs);
    TimesAreKept(cfg, obs, obs[|obs| - 1].ts);
  }

  // ------------------------------------------------------ event timestamps

  ghost predicate InOrder(es: seq<DoorEvent>) {
    forall i, j :: 0 <= i < j < |es| ==> es[i].ts <= es[j].ts
  }

  /** The configurations under which back-dating can never put an event before an earlier one. */
  predicate OrderGuaranteed(cfg: EngineConfig) {
    || cfg.window <= cfg.cooldown
    || cfg.window <= 0
    || !cfg.lineConfigured
    || (!cfg.inferEntry && !cfg.inferTransitions)
  }

  /** Where crossings are the only evidence, the latest event is no later than the latest crossing. */
  ghost predicate CrossingBound(cfg: EngineConfig, s: DoorState, es: seq<DoorEvent>) {
    es != [] && cfg.lineConfigured && !cfg.inferEntry && !cfg.inferTransitions ==>
      s.crossing.Some? && es[|es| - 1].ts <= s.crossing.value.ts
  }

  lemma OrderStep(cfg: EngineConfig, s: DoorState, es: seq<DoorEvent>, o: Observation)
    requires OrderGuaranteed(cfg) && Observable(cfg, o)
    requires TimesKept(cfg, s, es, o.ts) && CrossingBound(cfg, s, es)
    ensures var (t, e) := Observe(cfg, s, o);
      && CrossingBound(cfg, t, es + Optional(e))
      && (e.Some? && es != [] ==> es[|es| - 1].ts <= e.value.ts)
  {
    NoticeKeepsTimes(cfg, s, es, o);
    var n := Notice(s, o);
    assert CrossingBound(cfg, n, es);
    assert es + [] == es;
    if o.zone != Unknown {
      var d := Debounce(cfg, n, o.zone);
      if d.stable != n.stable && d.firstInside.Some? {
        DecideDates(cfg, n.stable, d, o.ts);
      }
    }
  }

  lemma {:induction false} EmittedInOrder(cfg: EngineConfig, obs: seq<Observation>)
    requires OrderGuaranteed(cfg) && TimeOrdered(obs) && AllObservable(cfg, obs)
    ensures InOrder(Emitted(cfg, obs))
    ensures CrossingBound(cfg, StateAfter(cfg, obs), Emitted(cfg, obs))
  {
    if obs == [] {
    } else {
      var front, o := obs[..|obs| - 1], obs[|obs| - 1];
      EmittedInOrder(cfg, front);
      TimesAreKept(cfg, front, o.ts);
      OrderStep(cfg, StateAfter(cfg, front), Emitted(cfg, front), o);
    }
  }

  // ------------------------------------------------------------------ blocks

  /** The `i`-th time from `t0` on: every instant, or one instant for all. */
  function Tick(t0: int, i: int, ticking: bool): (r: int) {
    if ticking then t0 + i else t0
  }

  /** `n` sightings of a zone, away from the line, in the gate or not. */
  function Block(z: Zone, t0: int, n: nat, gate: bool, ticking: bool): (r: seq<Observation>) {
    if n == 0 then []
    else Block(z, t0, n - 1, gate, ticking) + [Observation(Tick(t0, n - 1, ticking), z, None, gate)]
  }

  lemma {:induction false} BlockElems(z: Zone, t0: int, n: nat, gate: bool, ticking: bool)
    ensures |Block(z, t0, n, gate, ticking)| == n
    ensures forall i :: 0 <= i < n ==>
              Block(z, t0, n, gate, ticking)[i] == Observation(Tick(t0, i, ticking), z, None, gate)
  {
    if n == 0 {
    } else {
      BlockElems(z, t0, n - 1, gate, ticking);
    }
  }

  /** The sightings that it takes for a zone to become stable. */
  function SettleCount(cfg: EngineConfig): (n: nat)
    ensures n >= 1
  {
    if cfg.minStable < 1 then 1 else cfg.minStable
  }

  /** What `n` observations of a block leave in place while it has not settled. */
  ghost predicate Unsettled(s: DoorState, t: DoorState, z: Zone, t0: int, n: nat) {
    && t.stable == s.stable && t.crossing == s.crossing && t.lastEvent == s.lastEvent
    && (if n == 0 then t.candidate != z else t.candidate == z && t.streak == n)
    && t.firstInside == (if z == Inside && n > 0 then Some(s.firstInside.GetOr(t0)) else s.firstInside)
  }

  /** What the gate remembers of a block. */
  ghost predicate GateOf(s: DoorState, t: DoorState, n: nat, gate: bool, last: int) {
    t.lastInGate == if gate && n > 0 then Some(last) else s.lastInGate
  }

  lemma BlockStep(cfg: EngineConfig, s: DoorState, t: DoorState, z: Zone, t0: int, n: nat, ts: int, gate: bool)
    requires z != Unknown && Unsettled(s, t, z, t0, n) && (n == 0 ==> ts == t0)
    ensures var (u, e) := Observe(cfg, t, Observation(ts, z, None, gate));
      && u.lastInGate == (if gate then Some(ts) else t.lastInGate)
      && (n + 1 < cfg.minStable ==> Unsettled(s, u, z, t0, n + 1) && e == None)
      && (n + 1 >= cfg.minStable && s.stable != z ==>
          && Settled(cfg, s, u, z, t0)
          && e == Decide(cfg, s.stable, Settling(t, z, ts, gate), ts)
          && u.lastEvent == if e.Some? then Some(ts) else s.lastEvent)
  {
  }

  /** The state whose stable zone has just become `z`, when the event is decided. */
  function Settling(t: DoorState, z: Zone, ts: int, gate: bool): (r: DoorState) {
    var n := Notice(t, Observation(ts, z, None, gate));
    n.(candidate := z, streak := if z == t.candidate then t.streak + 1 else 1, stable := z)
  }

  ghost predicate Settled(cfg: EngineConfig, s: DoorState, t: DoorState, z: Zone, t0: int) {
    && t.stable == z && t.candidate == z && t.crossing == s.crossing
    && t.firstInside == (if z == Inside then Some(s.firstInside.GetOr(t0)) else s.firstInside)
  }

  lemma BlockGrow(obs: seq<Observation>, z: Zone, t0: int, n: nat, gate: bool, ticking: bool, mid: seq<Observation>)
    requires n > 0 && mid == obs + Block(z, t0, n - 1, gate, ticking)
    ensures mid + [Observation(Tick(t0, n - 1, ticking), z, None, gate)] == obs + Block(z, t0, n, gate, ticking)
  {
  }

  /** Observations together with what the engine makes of them. */
  datatype Trace = Trace(obs: seq<Observation>, state: DoorState, events: seq<DoorEvent>)

  ghost predicate IsTrace(cfg: EngineConfig, r: Trace) {
    r.state == StateAfter(cfg, r.obs) && r.events == Emitted(cfg, r.obs)
  }

  lemma NextTrace(cfg: EngineConfig, r: Trace, o: Observation) returns (t: Trace)
    requires IsTrace(cfg, r)
    ensures IsTrace(cfg, t) && t.obs == r.obs + [o]
    ensures t.state == Observe(cfg, r.state, o).0 && t.events == r.events + Optional(Observe(cfg, r.state, o).1)
  {
    RunStep(cfg, r.obs, o);
    t := Trace(r.obs + [o], StateAfter(cfg, r.obs + [o]), Emitted(cfg, r.obs + [o]));
  }

  /** A block too short to settle emits nothing. */
  lemma {:induction false} ShortBlock(cfg: EngineConfig, r: Trace, z: Zone, t0: int, n: nat, gate: bool, ticking: bool)
    returns (t: Trace)
    requires IsTrace(cfg, r) && z != Unknown && r.state.candidate != z
    requires n == 0 || n < cfg.minStable
    ensures IsTrace(cfg, t) && t.obs == r.obs + Block(z, t0, n, gate, ticking) && t.events == r.events
    ensures Unsettled(r.state, t.state, z, t0, n) && GateOf(r.state, t.state, n, gate, Tick(t0, n - 1, ticking))
  {
    if n == 0 {
      t := r;
    } else {
      var mid := ShortBlock(cfg, r, z, t0, n - 1, gate, ticking);
      BlockGrow(r.obs, z, t0, n, gate, ticking, mid.obs);
      t := ShortBlockStep(cfg, r.state, mid, z, t0, n, Tick(t0, n - 1, ticking), gate, Tick(t0, n - 2, ticking));
    }
  }

  lemma ShortBlockStep(cfg: EngineConfig, s: DoorState, mid: Trace, z: Zone, t0: int, n: nat, ts: int, gate: bool,
                       was: int)
    returns (t: Trace)
    requires IsTrace(cfg, mid) && z != Unknown && 0 < n < cfg.minStable && Unsettled(s, mid.state, z, t0, n - 1)
    requires (n == 1 ==> ts == t0) && GateOf(s, mid.state, n - 1, gate, was)
    ensures IsTrace(cfg, t) && t.obs == mid.obs + [Observation(ts, z, None, gate)] && t.events == mid.events
    ensures Unsettled(s, t.state, z, t0, n) && GateOf(s, t.state, n, gate, ts)
  {
    t := NextTrace(cfg, mid, Observation(ts, z, None, gate));
    BlockStep(cfg, s, mid.state, z, t0, n - 1, ts, gate);
    assert mid.events + [] == mid.events;
  }

  /** A block that settles: one change of the stable zone, decided at the block's last time. */
  lemma SettlingBlock(cfg: EngineConfig, r: Trace, z: Zone, t0: int, n: nat, gate: bool, ticking: bool)
    returns (mid: Trace, t: Trace, e: Option<DoorEvent>)
    requires IsTrace(cfg, r) && z != Unknown && r.state.candidate != z && r.state.stable != z && n == SettleCount(cfg)
    ensures IsTrace(cfg, mid) && mid.obs == r.obs + Block(z, t0, n - 1, gate, ticking) && mid.events == r.events
    ensures IsTrace(cfg, t) && t.obs == r.obs + Block(z, t0, n, gate, ticking) && t.events == r.events + Optional(e)
    ensures t.obs == mid.obs + [Observation(Tick(t0, n - 1, ticking), z, None, gate)]
    ensures Unsettled(r.state, mid.state, z, t0, n - 1) && Settled(cfg, r.state, t.state, z, t0)
    ensures GateOf(r.state, mid.state, n - 1, gate, Tick(t0, n - 2, ticking))
    ensures GateOf(r.state, t.state, n, gate, Tick(t0, n - 1, ticking))
    ensures var ts := Tick(t0, n - 1, ticking);
      && e == Decide(cfg, r.state.stable, Settling(mid.state, z, ts, gate), ts)
      && t.state.lastEvent == if e.Some? then Some(ts) else r.state.lastEvent
  {
    mid := ShortBlock(cfg, r, z, t0, n - 1, gate, ticking);
    BlockGrow(r.obs, z, t0, n, gate, ticking, mid.obs);
    t, e := LastOfBlock(cfg, r.state, mid, z, t0, n, Tick(t0, n - 1, ticking), gate);
  }

  lemma LastOfBlock(cfg: EngineConfig, s: DoorState, mid: Trace, z: Zone, t0: int, n: nat, ts: int, gate: bool)
    returns (t: Trace, e: Option<DoorEvent>)
    requires IsTrace(cfg, mid) && z != Unknown && s.stable != z && n == SettleCount(cfg)
    requires Unsettled(s, mid.state, z, t0, n - 1) && (n == 1 ==> ts == t0)
    requires mid.state.lastInGate == s.lastInGate || gate
    ensures IsTrace(cfg, t) && t.obs == mid.obs + [Observation(ts, z, None, gate)]
    ensures t.events == mid.events + Optional(e)
    ensures Settled(cfg, s, t.state, z, t0) && t.state.lastInGate == if gate then Some(ts) else s.lastInGate
    ensures e == Decide(cfg, s.stable, Settling(mid.state, z, ts, gate), ts)
    ensures t.state.lastEvent == if e.Some? then Some(ts) else s.lastEvent
  {
    t := NextTrace(cfg, mid, Observation(ts, z, None, gate));
    e := Decide(cfg, s.stable, Settling(mid.state, z, ts, gate), ts);
    BlockStep(cfg, s, mid.state, z, t0, n - 1, ts, gate);
  }

  /** The trace without observations. */
  const NOTHING := Trace([], FRESH, [])

  /** The first block of a track: only an inferred entry can come of it. */
  lemma FirstBlock(cfg: EngineConfig, z: Zone, n: nat, gate: bool, ticking: bool)
    returns (mid: Trace, t: Trace, e: Option<DoorEvent>)
    requires z != Unknown && n == SettleCount(cfg)
    ensures IsTrace(cfg, mid) && mid.obs == Block(z, 0, n - 1, gate, ticking) && mid.events == []
    ensures IsTrace(cfg, t) && t.obs == Block(z, 0, n, gate, ticking) && t.events == Optional(e)
    ensures t.obs == mid.obs + [Observation(Tick(0, n - 1, ticking), z, None, gate)]
    ensures t.state.stable == t.state.candidate == z && t.state.crossing == None
    ensures t.state.lastInGate == if gate then Some(Tick(0, n - 1, ticking)) else None
    ensures t.state.lastEvent == if e.Some? then Some(Tick(0, n - 1, ticking)) else None
    ensures e.Some? <==> z == Inside && cfg.inferEntry
    ensures e.Some? ==> e.value.reason == FirstSeenInside
  {
    mid, t, e := SettlingBlock(cfg, NOTHING, z, 0, n, gate, ticking);
    assert forall b: seq<Observation> :: [] + b == b;
    OnlyFirstSeen(cfg, Settling(mid.state, z, Tick(0, n - 1, ticking), gate), Tick(0, n - 1, ticking));
  }

  lemma OnlyFirstSeen(cfg: EngineConfig, s: DoorState, ts: int)
    requires s.crossing == None && s.lastEvent == None
    ensures var e := Decide(cfg, Unknown, s, ts);
      && (e.Some? <==> s.stable == Inside && cfg.inferEntry)
      && (e.Some? ==> e.value.reason == FirstSeenInside)
  {
  }

  // ------------------------------------------------- a run that breaks the order

  /** One run that breaks the order in every other configuration: an exit crossing
      at time 0, an entry settled at time 1, an exit settled while the crossing is still recent. */
  function BackDatedRun(cfg: EngineConfig): (r: seq<Observation>) {
    var n := SettleCount(cfg);
    Crossed(0) + (if cfg.inferEntry then [] else Block(Outside, 0, n, true, false))
    + Block(Inside, 1, n, true, false)
    + Block(Outside, if cfg.cooldown < 0 then 1 else 1 + cfg.cooldown, n, true, false)
  }

  /** An exit crossing at `t`, seen from two points in the gate at one instant. */
  function Crossed(t: int): (r: seq<Observation>) {
    [Observation(t, Unknown, Some(InsideSide), true), Observation(t, Unknown, Some(OutsideSide), true)]
  }

  lemma BackDatedRunIsLegal(cfg: EngineConfig)
    requires !OrderGuaranteed(cfg)
    ensures TimeOrdered(BackDatedRun(cfg)) && AllObservable(cfg, BackDatedRun(cfg))
  {
    var n := SettleCount(cfg);
    BlockElems(Outside, 0, n, true, false);
    BlockElems(Inside, 1, n, true, false);
    BlockElems(Outside, if cfg.cooldown < 0 then 1 else 1 + cfg.cooldown, n, true, false);
  }

  /** The opening of the run: an exit crossing, and settled or not, no event. */
  lemma BackDatedOpening(cfg: EngineConfig, n: nat) returns (p: Trace)
    requires !OrderGuaranteed(cfg) && n == SettleCount(cfg)
    ensures IsTrace(cfg, p) && p.events == []
    ensures p.obs == Crossed(0) + (if cfg.inferEntry then [] else Block(Outside, 0, n, true, false))
    ensures var s := p.state;
      && s.crossing == Some(Crossing(Exit, 0)) && s.firstInside == None && s.lastEvent == None
      && s.candidate == s.stable == if cfg.inferEntry then Unknown else Outside
  {
    p := AfterCrossed(cfg, 0);
    if cfg.inferEntry {
      assert p.obs + [] == p.obs;
    } else {
      var _, t, _ := SettlingBlock(cfg, p, Outside, 0, n, true, false);
      p := t;
    }
  }

  lemma AfterCrossed(cfg: EngineConfig, at: int) returns (t: Trace)
    ensures IsTrace(cfg, t) && t.obs == Crossed(at) && t.events == []
    ensures t.state.crossing == Some(Crossing(Exit, at)) && t.state.firstInside == None && t.state.lastEvent == None
    ensures t.state.candidate == t.state.stable == Unknown
  {
    var o0, o1 := Observation(at, Unknown, Some(InsideSide), true), Observation(at, Unknown, Some(OutsideSide), true);
    CrossedIs(at, o0, o1);
    var r := NextTrace(cfg, NOTHING, o0);
    t := NextTrace(cfg, r, o1);
  }

  lemma CrossedIs(at: int, o0: Observation, o1: Observation)
    requires o0 == Observation(at, Unknown, Some(InsideSide), true)
    requires o1 == Observation(at, Unknown, Some(OutsideSide), true)
    ensures ([] + [o0]) + [o1] == Crossed(at)
  {
  }

  /** Then the entry, dated at time 1. */
  lemma BackDatedMiddle(cfg: EngineConfig, p: Trace, n: nat) returns (t: Trace, d: DoorEvent)
    requires !OrderGuaranteed(cfg) && n == SettleCount(cfg) && IsTrace(cfg, p) && p.events == []
    requires p.state.crossing == Some(Crossing(Exit, 0)) && p.state.firstInside == None && p.state.lastEvent == None
    requires p.state.candidate == p.state.stable == if cfg.inferEntry then Unknown else Outside
    ensures IsTrace(cfg, t) && t.obs == p.obs + Block(Inside, 1, n, true, false) && t.events == [d] && d.ts == 1
    ensures t.state.stable == t.state.candidate == Inside && t.state.crossing == p.state.crossing
    ensures t.state.lastEvent == Some(1)
  {
    var m, u, e := SettlingBlock(cfg, p, Inside, 1, n, true, false);
    EntryAtOne(cfg, p.state, m.state);
    t, d := u, e.value;
  }

  lemma EntryAtOne(cfg: EngineConfig, s: DoorState, m: DoorState)
    requires !OrderGuaranteed(cfg)
    requires s.stable == (if cfg.inferEntry then Unknown else Outside)
    requires m.crossing == Some(Crossing(Exit, 0)) && m.lastEvent == None
    requires m.firstInside == None || m.firstInside == Some(1)
    ensures var d := Decide(cfg, s.stable, Settling(m, Inside, 1, true), 1); d.Some? && d.value.ts == 1
  {
  }

  lemma ExitAtZero(cfg: EngineConfig, m: DoorState, ts: int)
    requires !OrderGuaranteed(cfg)
    requires ts == if cfg.cooldown < 0 then 1 else 1 + cfg.cooldown
    requires m.crossing == Some(Crossing(Exit, 0)) && m.lastEvent == Some(1)
    ensures var e := Decide(cfg, Inside, Settling(m, Outside, ts, true), ts); e.Some? && e.value.ts == 0
  {
  }

  lemma BackDatedRunBreaksOrder(cfg: EngineConfig) returns (t: Trace)
    requires !OrderGuaranteed(cfg)
    ensures IsTrace(cfg, t) && t.obs == BackDatedRun(cfg)
    ensures !InOrder(t.events)
  {
    var n, ts := SettleCount(cfg), if cfg.cooldown < 0 then 1 else 1 + cfg.cooldown;
    var p := BackDatedOpening(cfg, n);
    var q, d := BackDatedMiddle(cfg, p, n);
    var e;
    t, e := BackDatedClosing(cfg, q, n, ts);
    NotInOrder(t.events, d, e);
    BackDatedRunIs(cfg, n, ts, p.obs, q.obs, t.obs);
  }

  lemma BackDatedRunIs(cfg: EngineConfig, n: nat, ts: int, p: seq<Observation>, q: seq<Observation>,
                       t: seq<Observation>)
    requires n == SettleCount(cfg) && ts == if cfg.cooldown < 0 then 1 else 1 + cfg.cooldown
    requires p == Crossed(0) + (if cfg.inferEntry then [] else Block(Outside, 0, n, true, false))
    requires q == p + Block(Inside, 1, n, true, false) && t == q + Block(Outside, ts, n, true, false)
    ensures t == BackDatedRun(cfg)
  {
  }

  /** Last the exit, dated back to time 0. */
  lemma BackDatedClosing(cfg: EngineConfig, q: Trace, n: nat, ts: int) returns (t: Trace, e: DoorEvent)
    requires !OrderGuaranteed(cfg) && n == SettleCount(cfg) && IsTrace(cfg, q)
    requires ts == if cfg.cooldown < 0 then 1 else 1 + cfg.cooldown
    requires q.state.stable == q.state.candidate == Inside && q.state.crossing == Some(Crossing(Exit, 0))
    requires q.state.lastEvent == Some(1)
    ensures IsTrace(cfg, t) && t.obs == q.obs + Block(Outside, ts, n, true, false)
    ensures t.events == q.events + [e] && e.ts == 0
  {
    var k, u, d := SettlingBlock(cfg, q, Outside, ts, n, true, false);
    ExitAtZero(cfg, k.state, ts);
    t, e := u, d.value;
  }

  lemma NotInOrder(es: seq<DoorEvent>, d: DoorEvent, e: DoorEvent)
    requires es == [d] + [e] && d.ts > e.ts
    ensures !InOrder(es)
  {
    assert es[0] == d && es[1] == e;
  }

  /** Event times, back-dated ones and the final inferred exit included, are
      non-decreasing in emission order in every run exactly when the
      configuration guarantees it. */
  lemma TimestampOrderExact(cfg: EngineConfig, inferExit: bool)
    ensures OrderGuaranteed(cfg) <==>
      forall obs: seq<Observation> :: TimeOrdered(obs) && AllObservable(cfg, obs) ==>
        InOrder(EmittedToEnd(cfg, inferExit, obs))
  {
    if OrderGuaranteed(cfg) {
      forall obs: seq<Observation> | TimeOrdered(obs) && AllObservable(cfg, obs)
        ensures InOrder(EmittedToEnd(cfg, inferExit, obs))
      {
        EmittedInOrder(cfg, obs);
        TimesAreKept(cfg, obs, if obs == [] then 0 else obs[|obs| - 1].ts);
      }
    } else {
      BackDatedRunIsLegal(cfg);
      var t := BackDatedRunBreaksOrder(cfg);
      BrokenToEnd(cfg, inferExit, t);
    }
  }

  lemma BrokenToEnd(cfg: EngineConfig, inferExit: bool, t: Trace)
    requires IsTrace(cfg, t) && !InOrder(t.events)
    ensures !InOrder(EmittedToEnd(cfg, inferExit, t.obs))
  {
    var all := EmittedToEnd(cfg, inferExit, t.obs);
    var i, j :| 0 <= i < j < |t.events| && t.events[i].ts > t.events[j].ts;
    assert all[i].ts > all[j].ts;
  }

  // ----------------------------------------------- runs with something suppressed

  /** Every change of the stable zone is reported: the cooldown is over before the next one can
      come, no line asks for evidence, and the first entry is inferred. */
  predicate AlwaysReported(cfg: EngineConfig, ticking: bool) {
    !cfg.lineConfigured && cfg.inferEntry && cfg.cooldown <= if ticking then SettleCount(cfg) else 0
  }

  lemma {:induction false} KindsLength(es: seq<DoorEvent>)
    ensures |Kinds(es)| == |es|
  {
    if es == [] {
    } else {
      KindsLength(es[..|es| - 1]);
    }
  }

  /** Inside, and outside again as soon as may be, never in the gate. */
  function InAndOut(n: nat, ticking: bool): (r: seq<Observation>) {
    Block(Inside, 0, n, false, ticking) + Block(Outside, if ticking then n else 0, n, false, ticking)
  }

  /** As many events as changes leave the track inside exactly when they are odd in number. */
  lemma ParityTells(cfg: EngineConfig, t: Trace)
    requires IsTrace(cfg, t) && (|t.events| % 2 == 1 <==> t.state.stable != Inside)
    ensures Kinds(t.events) != Flips(cfg, t.obs)
  {
    KindsLength(t.events);
    FlipsAlternate(cfg, t.obs);
  }

  /** A change of the stable zone that is not reported. */
  lemma SuppressedRun(cfg: EngineConfig, n: nat, ticking: bool) returns (t: Trace)
    requires !AlwaysReported(cfg, ticking) && n == SettleCount(cfg)
    ensures IsTrace(cfg, t) && Kinds(t.events) != Flips(cfg, t.obs)
    ensures t.obs == Block(Inside, 0, n, false, ticking) || t.obs == InAndOut(n, ticking)
  {
    var _, r, e := FirstBlock(cfg, Inside, n, false, ticking);
    if cfg.inferEntry {
      t := OutUnreported(cfg, r, if ticking then n else 0, n, ticking);
    } else {
      t := r;
    }
    ParityTells(cfg, t);
  }

  lemma OutUnreported(cfg: EngineConfig, r: Trace, ts: int, n: nat, ticking: bool) returns (t: Trace)
    requires IsTrace(cfg, r) && n == SettleCount(cfg) && ts == (if ticking then n else 0)
    requires !AlwaysReported(cfg, ticking) && cfg.inferEntry
    requires r.state.stable == r.state.candidate == Inside && r.state.crossing == None && r.state.lastInGate == None
    requires r.state.lastEvent == Some(Tick(0, n - 1, ticking))
    ensures IsTrace(cfg, t) && t.obs == r.obs + Block(Outside, ts, n, false, ticking)
    ensures t.events == r.events && t.state.stable == Outside
  {
    var m, u, e := SettlingBlock(cfg, r, Outside, ts, n, false, ticking);
    NoReport(cfg, Settling(m.state, Outside, Tick(ts, n - 1, ticking), false), Tick(ts, n - 1, ticking));
    t := u;
    assert r.events + [] == r.events;
  }

  lemma NoReport(cfg: EngineConfig, s: DoorState, ts: int)
    requires s.crossing == None && s.lastInGate == None && s.lastEvent.Some?
    requires cfg.lineConfigured || ts - s.lastEvent.value < cfg.cooldown
    ensures Decide(cfg, Inside, s, ts) == None
  {
  }

  lemma InAndOutIsLegal(cfg: EngineConfig, n: nat)
    ensures TimeOrdered(InAndOut(n, false)) && AllObservable(cfg, InAndOut(n, false))
    ensures var b := Block(Inside, 0, n, false, false); TimeOrdered(b) && AllObservable(cfg, b)
  {
    BlockElems(Inside, 0, n, false, false);
    BlockElems(Outside, 0, n, false, false);
  }

  /** Every change of the stable zone is reported in every run exactly when there is no line,
      no cooldown, and the first entry is inferred. */
  lemma NothingSuppressedExactly(cfg: EngineConfig)
    ensures AlwaysReported(cfg, false) <==>
      forall obs: seq<Observation> :: TimeOrdered(obs) && AllObservable(cfg, obs) ==>
        Kinds(Emitted(cfg, obs)) == Flips(cfg, obs)
  {
    if AlwaysReported(cfg, false) {
      forall obs: seq<Observation> | TimeOrdered(obs) && AllObservable(cfg, obs)
        ensures Kinds(Emitted(cfg, obs)) == Flips(cfg, obs)
      {
        NothingSuppressed(cfg, obs);
      }
    } else {
      var t := SuppressedRun(cfg, SettleCount(cfg), false);
      InAndOutIsLegal(cfg, SettleCount(cfg));
    }
  }
}
