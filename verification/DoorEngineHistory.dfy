/** The door engine told from the history alone: what a track remembers, and which event
    each observation leads to, without the state in between. */
module DoorEngineHistory {
  import opened Wrappers
  import opened DoorEngine
  import opened DoorEngineRuns

  // ------------------------------------------------------------ what is remembered

  /** Observation `j` is the last one before `i` that is on a side of the line. */
  ghost predicate LastSideBefore(obs: seq<Observation>, i: int, j: int) {
    && 0 <= j < i <= |obs| && obs[j].side.Some?
    && forall k :: j < k < i ==> obs[k].side == None
  }

  /** Observation `i` is on the other side of the line than the one before it that was on a
      side, and it or the observation just before it is in the gate. */
  ghost predicate IsCrossing(obs: seq<Observation>, i: int, kind: EventKind) {
    && 0 < i < |obs| && obs[i].side.Some? && (obs[i].inGate || obs[i - 1].inGate)
    && (exists j :: LastSideBefore(obs, i, j) && obs[j].side != obs[i].side)
    && (kind == Entry <==> obs[i].side == Some(InsideSide))
  }

  ghost predicate NoCrossingAfter(obs: seq<Observation>, i: int) {
    forall k, kind :: i < k ==> !IsCrossing(obs, k, kind)
  }

  /** Observation `i` is the latest crossing. */
  ghost predicate LatestCrossing(obs: seq<Observation>, i: int, kind: EventKind) {
    IsCrossing(obs, i, kind) && NoCrossingAfter(obs, i)
  }

  /** What a track remembers of the line and the gate is exactly this. */
  ghost predicate LineRemembered(s: DoorState, obs: seq<Observation>) {
    && (s.lastPointInGate == if obs == [] then None else Some(obs[|obs| - 1].inGate))
    && (s.lastSide == None <==> forall i :: 0 <= i < |obs| ==> obs[i].side == None)
    && (s.lastSide.Some? ==> exists j :: LastSideBefore(obs, |obs|, j) && s.lastSide == obs[j].side)
    && (s.crossing == None <==> NoCrossingAfter(obs, 0))
    && (s.crossing.Some? ==>
          exists i :: LatestCrossing(obs, i, s.crossing.value.kind) && s.crossing.value.ts == obs[i].ts)
  }

  lemma OlderCrossings(obs: seq<Observation>, o: Observation, i: int, kind: EventKind)
    requires i < |obs|
    ensures IsCrossing(obs + [o], i, kind) <==> IsCrossing(obs, i, kind)
  {
    var all := obs + [o];
    assert forall k :: 0 <= k < |obs| ==> all[k] == obs[k];
    forall j ensures LastSideBefore(all, i, j) <==> LastSideBefore(obs, i, j) {}
  }

  lemma LastSideNext(obs: seq<Observation>, o: Observation, j: int)
    ensures LastSideBefore(obs + [o], |obs|, j) <==> LastSideBefore(obs, |obs|, j)
    ensures LastSideBefore(obs + [o], |obs| + 1, j) <==>
            if o.side.Some? then j == |obs| else LastSideBefore(obs, |obs|, j)
  {
    var all := obs + [o];
    assert forall k :: 0 <= k < |obs| ==> all[k] == obs[k];
    assert all[|obs|] == o;
  }

  lemma OneLastSide(obs: seq<Observation>, i: int, j: int, k: int)
    requires LastSideBefore(obs, i, j) && LastSideBefore(obs, i, k)
    ensures j == k
  {
  }

  /** Whether one more observation is a crossing. */
  lemma NewCrossing(s: DoorState, obs: seq<Observation>, o: Observation)
    requires LineRemembered(s, obs)
    ensures var crosses := o.side.Some? && s.lastSide.Some? && o.side != s.lastSide
                           && (o.inGate || s.lastPointInGate == Some(true));
      forall kind :: IsCrossing(obs + [o], |obs|, kind) <==> crosses && (kind == Entry <==> o.side == Some(InsideSide))
  {
    var all, n := obs + [o], |obs|;
    assert all[n] == o && (n > 0 ==> all[n - 1] == obs[n - 1]);
    forall j ensures LastSideBefore(all, n, j) <==> LastSideBefore(obs, n, j) { LastSideNext(obs, o, j); }
    if s.lastSide.Some? {
      var j :| LastSideBefore(obs, n, j) && s.lastSide == obs[j].side;
      assert LastSideBefore(all, n, j) && all[j] == obs[j];
      forall k | LastSideBefore(all, n, k) ensures k == j { OneLastSide(all, n, j, k); }
    } else {
      forall j ensures !LastSideBefore(all, n, j) {}
    }
  }

  lemma LineStep(cfg: EngineConfig, s: DoorState, obs: seq<Observation>, o: Observation, t: DoorState)
    requires LineRemembered(s, obs) && t == Observe(cfg, s, o).0
    ensures LineRemembered(t, obs + [o])
  {
    NewCrossing(s, obs, o);
    SideStep(cfg, s, obs, o, t);
    CrossingStep(cfg, s, obs, o, t);
  }

  lemma SideStep(cfg: EngineConfig, s: DoorState, obs: seq<Observation>, o: Observation, t: DoorState)
    requires LineRemembered(s, obs) && t == Observe(cfg, s, o).0
    ensures t.lastPointInGate == Some((obs + [o])[|obs|].inGate)
    ensures t.lastSide == None <==> forall i :: 0 <= i < |obs + [o]| ==> (obs + [o])[i].side == None
    ensures t.lastSide.Some? ==>
              exists j :: LastSideBefore(obs + [o], |obs| + 1, j) && t.lastSide == (obs + [o])[j].side
  {
    var all := obs + [o];
    assert all[|obs|] == o && forall k :: 0 <= k < |obs| ==> all[k] == obs[k];
    if o.side.Some? {
      LastSideNext(obs, o, |obs|);
    } else if s.lastSide.Some? {
      var j :| LastSideBefore(obs, |obs|, j) && s.lastSide == obs[j].side;
      LastSideNext(obs, o, j);
      assert all[j] == obs[j];
    }
  }

  lemma CrossingStep(cfg: EngineConfig, s: DoorState, obs: seq<Observation>, o: Observation, t: DoorState)
    requires LineRemembered(s, obs) && t == Observe(cfg, s, o).0
    requires var crosses := o.side.Some? && s.lastSide.Some? && o.side != s.lastSide
                            && (o.inGate || s.lastPointInGate == Some(true));
      forall kind :: IsCrossing(obs + [o], |obs|, kind) <==> crosses && (kind == Entry <==> o.side == Some(InsideSide))
    ensures var all := obs + [o];
      && (t.crossing == None <==> NoCrossingAfter(all, 0))
      && (t.crossing.Some? ==>
            exists i :: LatestCrossing(all, i, t.crossing.value.kind) && t.crossing.value.ts == all[i].ts)
  {
    var all, n := obs + [o], |obs|;
    assert all[n] == o;
    forall i, kind | i < n ensures IsCrossing(all, i, kind) <==> IsCrossing(obs, i, kind) {
      OlderCrossings(obs, o, i, kind);
    }
    if IsCrossing(all, n, Entry) || IsCrossing(all, n, Exit) {
      assert o.side.value.InsideSide? || o.side.value.OutsideSide?;
      assert s.lastSide.value.InsideSide? || s.lastSide.value.OutsideSide?;
      assert t.crossing.Some? && LatestCrossing(all, n, t.crossing.value.kind);
    } else {
      assert forall kind :: !IsCrossing(all, n, kind);
      assert t.crossing == s.crossing;
      CrossingStays(s.crossing, obs, all);
    }
  }

  lemma CrossingStays(c: Option<Crossing>, obs: seq<Observation>, all: seq<Observation>)
    requires |all| == |obs| + 1 && all[..|obs|] == obs && forall kind :: !IsCrossing(all, |obs|, kind)
    requires forall i, kind :: i < |obs| ==> (IsCrossing(all, i, kind) <==> IsCrossing(obs, i, kind))
    requires c == None <==> NoCrossingAfter(obs, 0)
    requires c.Some? ==> exists i :: LatestCrossing(obs, i, c.value.kind) && c.value.ts == obs[i].ts
    ensures c == None <==> NoCrossingAfter(all, 0)
    ensures c.Some? ==> exists i :: LatestCrossing(all, i, c.value.kind) && c.value.ts == all[i].ts
  {
    var n := |obs|;
    if c.Some? {
      var i :| LatestCrossing(obs, i, c.value.kind) && c.value.ts == obs[i].ts;
      assert all[i] == all[..n][i];
      forall k, kind | i < k ensures !IsCrossing(all, k, kind) { if k < n { assert !IsCrossing(obs, k, kind); } }
      assert LatestCrossing(all, i, c.value.kind);
    } else {
      forall k, kind | 0 < k ensures !IsCrossing(all, k, kind) { if k < n { assert !IsCrossing(obs, k, kind); } }
    }
  }

  /** The crossing that a track remembers is the latest one of its history: a change of side with
      that point or the one before it in the gate. Its kind is the direction; there is none if
      there was no such change. */
  lemma {:induction false} CrossingIsLatest(cfg: EngineConfig, obs: seq<Observation>)
    ensures LineRemembered(StateAfter(cfg, obs), obs)
  {
    if obs == [] {
      assert NoCrossingAfter(obs, 0);
    } else {
      var front, o := obs[..|obs| - 1], obs[|obs| - 1];
      CrossingIsLatest(cfg, front);
      assert obs == front + [o];
      LineStep(cfg, StateAfter(cfg, front), front, o, StateAfter(cfg, obs));
    }
  }

  /** Observation `i` is the first, or the last, with a property. */
  ghost predicate FirstInsideAt(obs: seq<Observation>, i: int) {
    0 <= i < |obs| && obs[i].zone == Inside && forall k :: 0 <= k < i ==> obs[k].zone != Inside
  }

  ghost predicate LastInsideAt(obs: seq<Observation>, i: int) {
    0 <= i < |obs| && obs[i].zone == Inside && forall k :: i < k < |obs| ==> obs[k].zone != Inside
  }

  ghost predicate LastInGateAt(obs: seq<Observation>, i: int) {
    0 <= i < |obs| && obs[i].inGate && forall k :: i < k < |obs| ==> !obs[k].inGate
  }

  ghost predicate TimesRemembered(s: DoorState, obs: seq<Observation>) {
    && s.firstSeen == (if obs == [] then None else Some(obs[0].ts))
    && s.lastSeen == (if obs == [] then None else Some(obs[|obs| - 1].ts))
    && (s.firstInside == None <==> forall i :: 0 <= i < |obs| ==> obs[i].zone != Inside)
    && (s.firstInside.Some? ==> exists i :: FirstInsideAt(obs, i) && s.firstInside.value == obs[i].ts)
    && (s.lastInside == None <==> forall i :: 0 <= i < |obs| ==> obs[i].zone != Inside)
    && (s.lastInside.Some? ==> exists i :: LastInsideAt(obs, i) && s.lastInside.value == obs[i].ts)
    && (s.lastInGate == None <==> forall i :: 0 <= i < |obs| ==> !obs[i].inGate)
    && (s.lastInGate.Some? ==> exists i :: LastInGateAt(obs, i) && s.lastInGate.value == obs[i].ts)
  }

  lemma FirstInsideStep(cfg: EngineConfig, s: DoorState, obs: seq<Observation>, o: Observation, t: DoorState)
    requires TimesRemembered(s, obs) && t == Observe(cfg, s, o).0
    ensures var all := obs + [o];
      && (t.firstInside == None <==> forall i :: 0 <= i < |all| ==> all[i].zone != Inside)
      && (t.firstInside.Some? ==> exists i :: FirstInsideAt(all, i) && t.firstInside.value == all[i].ts)
  {
    var all, n := obs + [o], |obs|;
    assert all[n] == o && forall k :: 0 <= k < n ==> all[k] == obs[k];
    if s.firstInside.Some? {
      var i :| FirstInsideAt(obs, i) && s.firstInside.value == obs[i].ts;
      assert FirstInsideAt(all, i);
    } else if o.zone == Inside {
      assert FirstInsideAt(all, n);
    }
  }

  lemma LastInsideStep(cfg: EngineConfig, s: DoorState, obs: seq<Observation>, o: Observation, t: DoorState)
    requires TimesRemembered(s, obs) && t == Observe(cfg, s, o).0
    ensures var all := obs + [o];
      && (t.lastInside == None <==> forall i :: 0 <= i < |all| ==> all[i].zone != Inside)
      && (t.lastInside.Some? ==> exists i :: LastInsideAt(all, i) && t.lastInside.value == all[i].ts)
  {
    var all, n := obs + [o], |obs|;
    assert all[n] == o && forall k :: 0 <= k < n ==> all[k] == obs[k];
    if o.zone == Inside {
      assert LastInsideAt(all, n);
    } else if s.lastInside.Some? {
      var i :| LastInsideAt(obs, i) && s.lastInside.value == obs[i].ts;
      assert LastInsideAt(all, i);
    }
  }

  lemma GateStep(cfg: EngineConfig, s: DoorState, obs: seq<Observation>, o: Observation, t: DoorState)
    requires TimesRemembered(s, obs) && t == Observe(cfg, s, o).0
    ensures var all := obs + [o];
      && (t.lastInGate == None <==> forall i :: 0 <= i < |all| ==> !all[i].inGate)
      && (t.lastInGate.Some? ==> exists i :: LastInGateAt(all, i) && t.lastInGate.value == all[i].ts)
  {
    var all, n := obs + [o], |obs|;
    assert all[n] == o && forall k :: 0 <= k < n ==> all[k] == obs[k];
    if o.inGate {
      assert LastInGateAt(all, n);
    } else if s.lastInGate.Some? {
      var i :| LastInGateAt(obs, i) && s.lastInGate.value == obs[i].ts;
      assert LastInGateAt(all, i);
    }
  }

  /** First and last sighting, first and last time inside, last time in the gate. */
  lemma {:induction false} TimesAreFacts(cfg: EngineConfig, obs: seq<Observation>)
    ensures TimesRemembered(StateAfter(cfg, obs), obs)
  {
    if obs == [] {
    } else {
      var front, o := obs[..|obs| - 1], obs[|obs| - 1];
      TimesAreFacts(cfg, front);
      assert obs == front + [o];
      FirstInsideStep(cfg, StateAfter(cfg, front), front, o, StateAfter(cfg, obs));
      LastInsideStep(cfg, StateAfter(cfg, front), front, o, StateAfter(cfg, obs));
      GateStep(cfg, StateAfter(cfg, front), front, o, StateAfter(cfg, obs));
      SeenStep(cfg, StateAfter(cfg, front), front, o, StateAfter(cfg, obs));
    }
  }

  lemma SeenStep(cfg: EngineConfig, s: DoorState, obs: seq<Observation>, o: Observation, t: DoorState)
    requires TimesRemembered(s, obs) && t == Observe(cfg, s, o).0
    ensures var all := obs + [o]; t.firstSeen == Some(all[0].ts) && t.lastSeen == Some(all[|all| - 1].ts)
  {
  }

  // ------------------------------------------------------------ what is emitted

  /** An event was emitted at observation `i`. */
  ghost predicate EmitsAt(cfg: EngineConfig, obs: seq<Observation>, i: int) {
    0 <= i < |obs| && |Emitted(cfg, obs[..i + 1])| > |Emitted(cfg, obs[..i])|
  }

  /** Observation `i` is the last one at which an event was emitted. */
  ghost predicate LastEmission(cfg: EngineConfig, obs: seq<Observation>, i: int) {
    EmitsAt(cfg, obs, i) && forall k :: i < k ==> !EmitsAt(cfg, obs, k)
  }

  ghost predicate EmissionRemembered(cfg: EngineConfig, s: DoorState, obs: seq<Observation>) {
    && (s.lastEvent == None <==> forall i :: !EmitsAt(cfg, obs, i))
    && (s.lastEvent.Some? ==> exists i :: LastEmission(cfg, obs, i) && s.lastEvent.value == obs[i].ts)
  }

  lemma EmitsStep(cfg: EngineConfig, front: seq<Observation>, o: Observation, obs: seq<Observation>)
    requires obs == front + [o]
    ensures forall i :: i < |front| ==> (EmitsAt(cfg, obs, i) <==> EmitsAt(cfg, front, i))
    ensures EmitsAt(cfg, obs, |front|) <==> Observe(cfg, StateAfter(cfg, front), o).1.Some?
  {
    forall i | i < |front| ensures EmitsAt(cfg, obs, i) <==> EmitsAt(cfg, front, i) {
      if 0 <= i { assert obs[..i + 1] == front[..i + 1] && obs[..i] == front[..i]; }
    }
    assert obs[..|front| + 1] == obs && obs[..|front|] == front;
    RunStep(cfg, front, o);
  }

  lemma LastEventStep(cfg: EngineConfig, s: DoorState, o: Observation)
    ensures var (t, e) := Observe(cfg, s, o); t.lastEvent == if e.Some? then Some(o.ts) else s.lastEvent
  {
  }

  lemma {:induction false} LastEventIsLast(cfg: EngineConfig, obs: seq<Observation>)
    ensures EmissionRemembered(cfg, StateAfter(cfg, obs), obs)
  {
    if obs == [] {
    } else {
      var front, o, n := obs[..|obs| - 1], obs[|obs| - 1], |obs| - 1;
      LastEventIsLast(cfg, front);
      assert obs == front + [o];
      EmitsStep(cfg, front, o, obs);
      LastEventStep(cfg, StateAfter(cfg, front), o);
      EmissionStep(cfg, front, o, obs, StateAfter(cfg, front), StateAfter(cfg, obs));
    }
  }

  lemma EmissionStep(cfg: EngineConfig, front: seq<Observation>, o: Observation, obs: seq<Observation>,
                     s: DoorState, t: DoorState)
    requires EmissionRemembered(cfg, s, front) && obs == front + [o]
    requires forall i :: i < |front| ==> (EmitsAt(cfg, obs, i) <==> EmitsAt(cfg, front, i))
    requires t.lastEvent == if EmitsAt(cfg, obs, |front|) then Some(o.ts) else s.lastEvent
    ensures EmissionRemembered(cfg, t, obs)
  {
    var n := |front|;
    assert obs[n] == o;
    if EmitsAt(cfg, obs, n) {
      assert LastEmission(cfg, obs, n);
    } else if s.lastEvent.Some? {
      var i :| LastEmission(cfg, front, i) && s.lastEvent.value == front[i].ts;
      forall k | i < k ensures !EmitsAt(cfg, obs, k) { if k < n { assert !EmitsAt(cfg, front, k); } }
      assert LastEmission(cfg, obs, i) && obs[i] == front[i];
    } else {
      forall i ensures !EmitsAt(cfg, obs, i) { if i < n { assert !EmitsAt(cfg, front, i); } }
    }
  }

  /** The latest crossing is of this kind, at `ts`, and recent at `now`. */
  ghost predicate Crossed(cfg: EngineConfig, obs: seq<Observation>, kind: EventKind, now: int, ts: int) {
    exists i :: LatestCrossing(obs, i, kind) && ts == obs[i].ts && now - ts <= cfg.window
  }

  ghost predicate NearGate(cfg: EngineConfig, obs: seq<Observation>, now: int) {
    exists i :: LastInGateAt(obs, i) && now - obs[i].ts <= cfg.window
  }

  ghost predicate Cooling(cfg: EngineConfig, obs: seq<Observation>, now: int) {
    exists i :: LastEmission(cfg, obs, i) && now - obs[i].ts < cfg.cooldown
  }

  lemma OneLatest(obs: seq<Observation>, i: int, a: EventKind, j: int, b: EventKind)
    requires LatestCrossing(obs, i, a) && LatestCrossing(obs, j, b)
    ensures i == j && a == b
  {
    assert !(i < j) && !(j < i);
    assert IsCrossing(obs, i, a) && IsCrossing(obs, i, b);
  }

  lemma RecentIsCrossed(cfg: EngineConfig, s: DoorState, obs: seq<Observation>, kind: EventKind, now: int)
    requires LineRemembered(s, obs)
    ensures var c := RecentCrossing(s, kind, now, cfg.window);
      && (c.Some? ==> Crossed(cfg, obs, kind, now, c.value))
      && (forall ts :: Crossed(cfg, obs, kind, now, ts) ==> c == Some(ts))
  {
    forall ts | Crossed(cfg, obs, kind, now, ts) ensures RecentCrossing(s, kind, now, cfg.window) == Some(ts) {
      var i :| LatestCrossing(obs, i, kind) && ts == obs[i].ts && now - ts <= cfg.window;
      assert IsCrossing(obs, i, kind);
      var j :| LatestCrossing(obs, j, s.crossing.value.kind) && s.crossing.value.ts == obs[j].ts;
      OneLatest(obs, i, kind, j, s.crossing.value.kind);
    }
  }

  lemma GateIsNear(cfg: EngineConfig, s: DoorState, obs: seq<Observation>, now: int)
    requires TimesRemembered(s, obs)
    ensures RecentlyInGate(s, now, cfg.window) <==> NearGate(cfg, obs, now)
  {
    if i, j :| LastInGateAt(obs, i) && LastInGateAt(obs, j) && i != j { assert false; }
  }

  lemma CooldownIsCooling(cfg: EngineConfig, s: DoorState, obs: seq<Observation>, now: int)
    requires EmissionRemembered(cfg, s, obs)
    ensures InCooldown(s, now, cfg.cooldown) <==> Cooling(cfg, obs, now)
  {
    forall i, j | LastEmission(cfg, obs, i) && LastEmission(cfg, obs, j) ensures i == j {
      assert !(i < j) && !(j < i);
    }
  }

  /** What one more observation leads to, from the history: nothing unless the stable zone
      changes to a reportable one outside the cooldown; then the event of a recent crossing of
      the right direction, or else what is inferred. */
  lemma EventsFollowHistory(cfg: EngineConfig, front: seq<Observation>, o: Observation) returns (e: Option<DoorEvent>)
    requires AllObservable(cfg, front + [o])
    ensures Emitted(cfg, front + [o]) == Emitted(cfg, front) + Optional(e)
    ensures var prev, next := StateAfter(cfg, front).stable, StateAfter(cfg, front + [o]).stable;
      prev == next || (prev == Unknown && next == Outside) || Cooling(cfg, front, o.ts) ==> e == None
    ensures var obs, prev, next := front + [o], StateAfter(cfg, front).stable, StateAfter(cfg, front + [o]).stable;
      var kind := if next == Inside then Entry else Exit;
      prev != next && (prev != Unknown || next == Inside) && !Cooling(cfg, front, o.ts) ==>
        && (forall ts :: Crossed(cfg, obs, kind, o.ts, ts) ==>
              e == Some(DoorEvent(kind, ts, false, 0.9,
                                  if prev == Unknown then LineCrossingFirstStableInside else LineCrossing)))
        && ((forall ts :: !Crossed(cfg, obs, kind, o.ts, ts)) ==>
              if prev == Unknown then
                if !cfg.inferEntry then e == None
                else exists i ::
                       FirstInsideAt(obs, i) && e == Some(DoorEvent(Entry, obs[i].ts, true, 0.3, FirstSeenInside))
              else if !cfg.lineConfigured then
                e == Some(DoorEvent(kind, o.ts, false, 0.8, ZoneTransitionNoLine))
              else if cfg.inferTransitions && NearGate(cfg, obs, o.ts) then
                e == Some(DoorEvent(kind, o.ts, true, 0.6, ZoneTransitionWithoutLineCrossing))
              else e == None)
  {
    var s, obs := StateAfter(cfg, front), front + [o];
    var t := StateAfter(cfg, obs);
    RunStep(cfg, front, o);
    e := Observe(cfg, s, o).1;
    if s.stable != t.stable {
      CrossingIsLatest(cfg, obs);
      TimesAreFacts(cfg, obs);
      LastEventIsLast(cfg, front);
      CooldownIsCooling(cfg, s, front, o.ts);
      NeedsLine(cfg, obs);
      SettledInside(cfg, s, o, t);
      DecidedByHistory(cfg, s, o, obs, t, e);
    }
  }

  lemma NeedsLine(cfg: EngineConfig, obs: seq<Observation>)
    requires AllObservable(cfg, obs)
    ensures (exists i, kind :: IsCrossing(obs, i, kind)) ==> cfg.lineConfigured
  {
    if i, kind :| IsCrossing(obs, i, kind) { assert Observable(cfg, obs[i]); }
  }

  lemma SettledInside(cfg: EngineConfig, s: DoorState, o: Observation, t: DoorState)
    requires t == Observe(cfg, s, o).0 && s.stable != t.stable
    ensures t.stable == o.zone != Unknown && (t.stable == Inside ==> t.firstInside.Some?)
  {
  }

  lemma DecidedByHistory(cfg: EngineConfig, s: DoorState, o: Observation, obs: seq<Observation>, t: DoorState,
                         e: Option<DoorEvent>)
    requires t == Observe(cfg, s, o).0 && e == Observe(cfg, s, o).1 && s.stable != t.stable && t.stable != Unknown
    requires t.stable == Inside ==> t.firstInside.Some?
    requires LineRemembered(t, obs) && TimesRemembered(t, obs)
    requires (exists i, kind :: IsCrossing(obs, i, kind)) ==> cfg.lineConfigured
    ensures s.stable == Unknown && t.stable == Outside ==> e == None
    ensures InCooldown(s, o.ts, cfg.cooldown) ==> e == None
    ensures var kind := if t.stable == Inside then Entry else Exit;
      !InCooldown(s, o.ts, cfg.cooldown) && (s.stable != Unknown || t.stable == Inside) ==>
        && (forall ts :: Crossed(cfg, obs, kind, o.ts, ts) ==>
              e == Some(DoorEvent(kind, ts, false, 0.9,
                                  if s.stable == Unknown then LineCrossingFirstStableInside else LineCrossing)))
        && ((forall ts :: !Crossed(cfg, obs, kind, o.ts, ts)) ==>
              if s.stable == Unknown then
                if !cfg.inferEntry then e == None
                else exists i ::
                       FirstInsideAt(obs, i) && e == Some(DoorEvent(Entry, obs[i].ts, true, 0.3, FirstSeenInside))
              else if !cfg.lineConfigured then
                e == Some(DoorEvent(kind, o.ts, false, 0.8, ZoneTransitionNoLine))
              else if cfg.inferTransitions && NearGate(cfg, obs, o.ts) then
                e == Some(DoorEvent(kind, o.ts, true, 0.6, ZoneTransitionWithoutLineCrossing))
              else e == None)
  {
    var kind := if t.stable == Inside then Entry else Exit;
    RecentIsCrossed(cfg, t, obs, kind, o.ts);
    GateIsNear(cfg, t, obs, o.ts);
    var c := RecentCrossing(t, kind, o.ts, cfg.window);
    if c.Some? {
      var i :| LatestCrossing(obs, i, kind) && c.value == obs[i].ts && o.ts - c.value <= cfg.window;
      assert IsCrossing(obs, i, kind);
    }
    DecidedBy(cfg, s, o, t, e, kind, c);
  }

  /** The same from the memory that the observation leaves. */
  lemma DecidedBy(cfg: EngineConfig, s: DoorState, o: Observation, t: DoorState, e: Option<DoorEvent>, kind: EventKind,
                  c: Option<int>)
    requires t == Observe(cfg, s, o).0 && e == Observe(cfg, s, o).1 && s.stable != t.stable && t.stable != Unknown
    requires kind == (if t.stable == Inside then Entry else Exit) && c == RecentCrossing(t, kind, o.ts, cfg.window)
    requires (t.stable == Inside ==> t.firstInside.Some?) && (c.Some? ==> cfg.lineConfigured)
    ensures InCooldown(s, o.ts, cfg.cooldown) || (s.stable == Unknown && t.stable == Outside) ==> e == None
    ensures !InCooldown(s, o.ts, cfg.cooldown) && (s.stable != Unknown || t.stable == Inside) ==>
      e == if c.Some? then Some(DoorEvent(kind, c.value, false, 0.9,
                                          if s.stable == Unknown then LineCrossingFirstStableInside else LineCrossing))
           else if s.stable == Unknown then
             if cfg.inferEntry then Some(DoorEvent(Entry, t.firstInside.value, true, 0.3, FirstSeenInside)) else None
           else if !cfg.lineConfigured then Some(DoorEvent(kind, o.ts, false, 0.8, ZoneTransitionNoLine))
           else if cfg.inferTransitions && RecentlyInGate(t, o.ts, cfg.window)
           then Some(DoorEvent(kind, o.ts, true, 0.6, ZoneTransitionWithoutLineCrossing)) else None
  {
    var n := Notice(s, o);
    var d := Debounce(cfg, n, o.zone);
    assert d.crossing == t.crossing && d.lastInGate == t.lastInGate && d.firstInside == t.firstInside;
    assert d.lastEvent == s.lastEvent && d.stable == t.stable;
  }

  /** The final exit: from the history, exactly for a track that is inside at its end. */
  lemma FinalExitFollowsHistory(cfg: EngineConfig, inferExit: bool, obs: seq<Observation>)
    ensures var last := Finalize(StateAfter(cfg, obs), inferExit);
      && EmittedToEnd(cfg, inferExit, obs) == Emitted(cfg, obs) + Optional(last)
      && (last.Some? <==> inferExit && StateAfter(cfg, obs).stable == Inside)
      && (last.Some? ==>
            exists i :: LastInsideAt(obs, i) && last == Some(DoorEvent(Exit, obs[i].ts, true, 0.3, TrackEndedInside)))
  {
    TimesAreFacts(cfg, obs);
    InsideHasBeen(cfg, obs);
  }

  lemma {:induction false} InsideHasBeen(cfg: EngineConfig, obs: seq<Observation>)
    ensures var s := StateAfter(cfg, obs); s.stable == Inside ==> s.lastInside.Some?
  {
    if obs == [] {
    } else {
      var front, o := obs[..|obs| - 1], obs[|obs| - 1];
      InsideHasBeen(cfg, front);
      StaysInside(cfg, StateAfter(cfg, front), o);
    }
  }

  lemma StaysInside(cfg: EngineConfig, s: DoorState, o: Observation)
    requires s.stable == Inside ==> s.lastInside.Some?
    ensures var t := Observe(cfg, s, o).0; t.stable == Inside ==> t.lastInside.Some?
  {
  }

  /** An observed crossing event is one: it is dated at a change of side in or next to the gate,
      in its own direction, and no longer before it was reported than the window. */
  lemma {:induction false} CrossingEventsCross(cfg: EngineConfig, obs: seq<Observation>, n: nat)
    returns (i: int, j: int)
    requires AllObservable(cfg, obs) && n < |Emitted(cfg, obs)|
    requires var e := Emitted(cfg, obs)[n]; e.reason == LineCrossing || e.reason == LineCrossingFirstStableInside
    ensures var e := Emitted(cfg, obs)[n];
      && 0 < i <= j < |obs| && IsCrossing(obs, i, e.kind) && e.ts == obs[i].ts
      && obs[j].ts - e.ts <= cfg.window && EmitsAt(cfg, obs, j) && !e.inferred
  {
    var front, o := obs[..|obs| - 1], obs[|obs| - 1];
    assert obs == front + [o];
    RunStep(cfg, front, o);
    var es, e := Emitted(cfg, front), Emitted(cfg, obs)[n];
    if n < |es| {
      i, j := CrossingEventsCross(cfg, front, n);
      StillCrosses(cfg, front, o, obs, i, j, e.kind);
    } else {
      i := NewestCrosses(cfg, front, o, obs, e);
      j := |obs| - 1;
    }
  }

  lemma StillCrosses(cfg: EngineConfig, front: seq<Observation>, o: Observation, obs: seq<Observation>, i: int, j: int,
                     kind: EventKind)
    requires obs == front + [o] && i <= j < |front| && IsCrossing(front, i, kind) && EmitsAt(cfg, front, j)
    ensures IsCrossing(obs, i, kind) && EmitsAt(cfg, obs, j) && obs[i] == front[i] && obs[j] == front[j]
  {
    OlderCrossings(front, o, i, kind);
    EmitsStep(cfg, front, o, obs);
  }

  lemma SameLast(es: seq<DoorEvent>, last: Option<DoorEvent>, e: DoorEvent)
    requires es + Optional(last) == es + [e]
    ensures last == Some(e)
  {
    assert |es + Optional(last)| == |es| + 1;
    assert (es + Optional(last))[|es|] == e;
  }

  lemma NewestCrosses(cfg: EngineConfig, front: seq<Observation>, o: Observation, obs: seq<Observation>, e: DoorEvent)
    returns (i: int)
    requires obs == front + [o] && AllObservable(cfg, obs) && Emitted(cfg, obs) == Emitted(cfg, front) + [e]
    requires e.reason == LineCrossing || e.reason == LineCrossingFirstStableInside
    ensures IsCrossing(obs, i, e.kind) && e.ts == obs[i].ts && o.ts - e.ts <= cfg.window && !e.inferred
    ensures EmitsAt(cfg, obs, |front|)
  {
    assert obs[..|front| + 1] == obs && obs[..|front|] == front;
    var last := EventsFollowHistory(cfg, front, o);
    SameLast(Emitted(cfg, front), last, e);
    var kind := if StateAfter(cfg, obs).stable == Inside then Entry else Exit;
    var ts :| Crossed(cfg, obs, kind, o.ts, ts);
    i :| LatestCrossing(obs, i, kind) && ts == obs[i].ts && o.ts - ts <= cfg.window;
  }
}
