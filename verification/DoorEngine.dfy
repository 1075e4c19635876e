/** The per-track door state machine: zone debouncing, cooldown, line-crossing
    memory, and the events it emits. What the camera geometry says about a point
    (zone, side of the door line, inside the gate or not) is the input. */
module DoorEngine {
  import opened Wrappers

  datatype Zone = Inside | Outside | Unknown

  datatype EventKind = Entry | Exit

  /** The side of the oriented door line; no side at all (`None`) stands for a
      point in the neutral band, or for a line that is not configured. */
  datatype Side = InsideSide | OutsideSide

  datatype Reason =
    | LineCrossingFirstStableInside
    | FirstSeenInside
    | LineCrossing
    | ZoneTransitionWithoutLineCrossing
    | ZoneTransitionNoLine
    | TrackEndedInside

  datatype DoorEvent = DoorEvent(kind: EventKind, ts: int, inferred: bool, confidence: real, reason: Reason)

  datatype Observation = Observation(ts: int, zone: Zone, side: Option<Side>, inGate: bool)

  datatype EngineConfig = EngineConfig(
    minStable: int,
    cooldown: int,
    window: int,
    lineConfigured: bool,
    inferEntry: bool,
    inferTransitions: bool)

  /** Without a configured line no point has a side. */
  predicate Observable(cfg: EngineConfig, o: Observation) {
    o.side.Some? ==> cfg.lineConfigured
  }

  datatype Crossing = Crossing(kind: EventKind, ts: int)

  datatype DoorState = DoorState(
    stable: Zone,
    candidate: Zone,
    streak: nat,
    lastEvent: Option<int>,
    firstSeen: Option<int>,
    firstInside: Option<int>,
    lastSeen: Option<int>,
    lastInside: Option<int>,
    lastPointInGate: Option<bool>,
    lastSide: Option<Side>,
    crossing: Option<Crossing>,
    lastInGate: Option<int>)

  const FRESH := DoorState(Unknown, Unknown, 0, None, None, None, None, None, None, None, None, None)

  predicate InCooldown(s: DoorState, ts: int, cooldown: int) {
    s.lastEvent.Some? && ts - s.lastEvent.value < cooldown
  }

  function RecentCrossing(s: DoorState, expected: EventKind, ts: int, window: int): (r: Option<int>) {
    if s.crossing.Some? && s.crossing.value.kind == expected && ts - s.crossing.value.ts <= window
    then Some(s.crossing.value.ts) else None
  }

  predicate RecentlyInGate(s: DoorState, ts: int, window: int) {
    s.lastInGate.Some? && ts - s.lastInGate.value <= window
  }

  // ---------------------------------------------------------------- one step

  /** The life-cycle and gate times that every observation records. */
  function NoticeTimes(s: DoorState, o: Observation): (r: DoorState) {
    s.(firstSeen := Some(s.firstSeen.GetOr(o.ts)),
       lastSeen := Some(o.ts),
       lastInGate := if o.inGate then Some(o.ts) else s.lastInGate,
       firstInside := if o.zone == Inside then Some(s.firstInside.GetOr(o.ts)) else s.firstInside,
       lastInside := if o.zone == Inside then Some(o.ts) else s.lastInside)
  }

  /** The line evidence: a change of side near the door is remembered as a crossing. */
  function NoticeLine(s: DoorState, o: Observation): (r: DoorState) {
    var crossed := o.side.Some? && s.lastSide.Some? && o.side != s.lastSide;
    var nearDoor := o.inGate || s.lastPointInGate == Some(true);
    s.(crossing := if crossed && nearDoor
                   then Some(Crossing(if s.lastSide == Some(OutsideSide) then Entry else Exit, o.ts))
                   else s.crossing,
       lastSide := if o.side.Some? then o.side else s.lastSide,
       lastPointInGate := Some(o.inGate))
  }

  function Notice(s: DoorState, o: Observation): (r: DoorState) {
    NoticeLine(NoticeTimes(s, o), o)
  }

  /** The debounced zone after one more known zone. */
  function Debounce(cfg: EngineConfig, s: DoorState, z: Zone): (r: DoorState) {
    var streak := if z == s.candidate then s.streak + 1 else 1;
    s.(candidate := z, streak := streak, stable := if streak < cfg.minStable then s.stable else z)
  }

  /** The event for a change of the stable zone from `prev` to `s.stable`. */
  function Decide(cfg: EngineConfig, prev: Zone, s: DoorState, ts: int): (r: Option<DoorEvent>) {
    if prev == Unknown && s.stable != Inside then None
    else if InCooldown(s, ts, cfg.cooldown) then None
    else
      var kind := if s.stable == Inside then Entry else Exit;
      var crossing := RecentCrossing(s, kind, ts, cfg.window);
      if prev == Unknown then
        if crossing.Some? then
          Some(DoorEvent(Entry, crossing.value, false, 0.9, LineCrossingFirstStableInside))
        else if cfg.inferEntry then
          Some(DoorEvent(Entry, s.firstInside.GetOr(s.firstSeen.GetOr(ts)), true, 0.3, FirstSeenInside))
        else None
      else if cfg.lineConfigured && crossing.Some? then
        Some(DoorEvent(kind, crossing.value, false, 0.9, LineCrossing))
      else if cfg.lineConfigured then
        if cfg.inferTransitions && RecentlyInGate(s, ts, cfg.window)
        then Some(DoorEvent(kind, ts, true, 0.6, ZoneTransitionWithoutLineCrossing)) else None
      else
        Some(DoorEvent(kind, ts, false, 0.8, ZoneTransitionNoLine))
  }

  /** The debounced zone switch, after the evidence has been recorded. */
  function Switch(cfg: EngineConfig, seen: DoorState, o: Observation): (r: (DoorState, Option<DoorEvent>)) {
    if o.zone == Unknown then (seen, None)
    else
      var next := Debounce(cfg, seen, o.zone);
      if next.stable == seen.stable then (next, None)
      else
        var event := Decide(cfg, seen.stable, next, o.ts);
        (if event.Some? then next.(lastEvent := Some(o.ts)) else next, event)
  }

  function Observe(cfg: EngineConfig, s: DoorState, o: Observation): (r: (DoorState, Option<DoorEvent>)) {
    Switch(cfg, Notice(s, o), o)
  }

  /** The exit inferred for a track that ends while stably inside. */
  function Finalize(s: DoorState, inferExit: bool): (r: Option<DoorEvent>) {
    if !inferExit || s.stable != Inside then None
    else if s.lastInside.Some? then Some(DoorEvent(Exit, s.lastInside.value, true, 0.3, TrackEndedInside))
    else if s.lastSeen.Some? then Some(DoorEvent(Exit, s.lastSeen.value, true, 0.3, TrackEndedInside))
    else None
  }

  // ------------------------------------------------------------- whole runs

  function StateAfter(cfg: EngineConfig, obs: seq<Observation>): (r: DoorState) {
    if obs == [] then FRESH else Observe(cfg, StateAfter(cfg, obs[..|obs| - 1]), obs[|obs| - 1]).0
  }

  function Optional<T>(x: Option<T>): (r: seq<T>) {
    if x.Some? then [x.value] else []
  }

  /** The events of a track's observations, in the order they are emitted. */
  function Emitted(cfg: EngineConfig, obs: seq<Observation>): (r: seq<DoorEvent>) {
    if obs == [] then []
    else Emitted(cfg, obs[..|obs| - 1]) + Optional(Observe(cfg, StateAfter(cfg, obs[..|obs| - 1]), obs[|obs| - 1]).1)
  }

  /** The emitted events and the one inferred when the track ends. */
  function EmittedToEnd(cfg: EngineConfig, inferExit: bool, obs: seq<Observation>): (r: seq<DoorEvent>) {
    Emitted(cfg, obs) + Optional(Finalize(StateAfter(cfg, obs), inferExit))
  }

  ghost predicate TimeOrdered(obs: seq<Observation>) {
    forall i, j :: 0 <= i < j < |obs| ==> obs[i].ts <= obs[j].ts
  }

  ghost predicate AllObservable(cfg: EngineConfig, obs: seq<Observation>) {
    forall i :: 0 <= i < |obs| ==> Observable(cfg, obs[i])
  }

  /** Feeding one more observation. */
  lemma RunStep(cfg: EngineConfig, obs: seq<Observation>, o: Observation)
    ensures StateAfter(cfg, obs + [o]) == Observe(cfg, StateAfter(cfg, obs), o).0
    ensures Emitted(cfg, obs + [o]) == Emitted(cfg, obs) + Optional(Observe(cfg, StateAfter(cfg, obs), o).1)
  {
    assert (obs + [o])[..|obs + [o]| - 1] == obs;
  }

  // ---------------------------------------------------- the mutable engine

  /** The state object of one track, updated field by field. */
  class TrackDoorState {
    var stable: Zone
    var candidate: Zone
    var streak: nat
    var lastEvent: Option<int>
    var firstSeen: Option<int>
    var firstInside: Option<int>
    var lastSeen: Option<int>
    var lastInside: Option<int>
    var lastPointInGate: Option<bool>
    var lastSide: Option<Side>
    var crossing: Option<Crossing>
    var lastInGate: Option<int>

    /** The observations made so far, and what they have to add up to. */
    ghost var history: seq<Observation>

    function View(): (r: DoorState)
      reads this
    {
      DoorState(stable, candidate, streak, lastEvent, firstSeen, firstInside, lastSeen, lastInside,
                lastPointInGate, lastSide, crossing, lastInGate)
    }

    constructor ()
      ensures View() == FRESH && history == []
    {
      stable, candidate, streak := Unknown, Unknown, 0;
      lastEvent, firstSeen, firstInside, lastSeen, lastInside := None, None, None, None, None;
      lastPointInGate, lastSide, crossing, lastInGate := None, None, None, None;
      history := [];
    }

    /** One observation. The object stays the state of its whole history, and
        the event is the one that history emits last. */
    method ObserveTrackPoint(cfg: EngineConfig, o: Observation) returns (event: Option<DoorEvent>)
      requires View() == StateAfter(cfg, history)
      modifies this
      ensures history == old(history) + [o]
      ensures View() == StateAfter(cfg, history)
      ensures Emitted(cfg, history) == Emitted(cfg, old(history)) + Optional(event)
    {
      RunStep(cfg, history, o);
      history := history + [o];
      RecordTimes(o);
      RecordLine(o);
      event := Settle(cfg, o);
    }

    /** The debounced zone switch, and the event it leads to. */
    method Settle(cfg: EngineConfig, o: Observation) returns (event: Option<DoorEvent>)
      modifies this`stable, this`candidate, this`streak, this`lastEvent
      ensures (View(), event) == Switch(cfg, old(View()), o)
    {
      ghost var seen := View();
      if o.zone == Unknown { return None; }
      if o.zone == candidate {
        streak := streak + 1;
      } else {
        candidate, streak := o.zone, 1;
      }
      if streak < cfg.minStable || candidate == stable {
        assert View() == Debounce(cfg, seen, o.zone);
        return None;
      }
      var prev := stable;
      stable := candidate;
      assert View() == Debounce(cfg, seen, o.zone);
      event := Transition(cfg, prev, o.ts);
    }

    method RecordTimes(o: Observation)
      modifies this`firstSeen, this`lastSeen, this`lastInGate, this`firstInside, this`lastInside
      ensures View() == NoticeTimes(old(View()), o)
    {
      if firstSeen.None? { firstSeen := Some(o.ts); }
      lastSeen := Some(o.ts);
      if o.inGate { lastInGate := Some(o.ts); }
      if o.zone == Inside {
        if firstInside.None? { firstInside := Some(o.ts); }
        lastInside := Some(o.ts);
      }
    }

    method RecordLine(o: Observation)
      modifies this`crossing, this`lastSide, this`lastPointInGate
      ensures View() == NoticeLine(old(View()), o)
    {
      if o.side.Some? {
        if lastSide.Some? && o.side != lastSide {
          assert o.side.value.InsideSide? || o.side.value.OutsideSide?;
          var kind := if lastSide == Some(OutsideSide) && o.side == Some(InsideSide) then Entry else Exit;
          if o.inGate || lastPointInGate == Some(true) {
            crossing := Some(Crossing(kind, o.ts));
          }
        }
        lastSide := o.side;
      }
      lastPointInGate := Some(o.inGate);
    }

    /** The event, if any, for the stable zone having changed from `prev`. */
    method Transition(cfg: EngineConfig, prev: Zone, ts: int) returns (event: Option<DoorEvent>)
      requires stable != Unknown && prev != stable
      modifies this`lastEvent
      ensures event == Decide(cfg, prev, old(View()), ts)
      ensures lastEvent == if event.Some? then Some(ts) else old(lastEvent)
    {
      if prev == Unknown && stable != Inside { return None; }
      if InCooldown(View(), ts, cfg.cooldown) { return None; }
      if prev == Unknown {
        var first := RecentCrossing(View(), Entry, ts, cfg.window);
        if first.Some? {
          event := Some(DoorEvent(Entry, first.value, false, 0.9, LineCrossingFirstStableInside));
          lastEvent := Some(ts);
          return;
        }
        if !cfg.inferEntry { return None; }
        var inferred := if firstInside.Some? then firstInside.value
                        else if firstSeen.Some? then firstSeen.value else ts;
        event := Some(DoorEvent(Entry, inferred, true, 0.3, FirstSeenInside));
        lastEvent := Some(ts);
        return;
      }
      var expected := if prev == Outside && stable == Inside then Entry else Exit;
      var recent := RecentCrossing(View(), expected, ts, cfg.window);
      if cfg.lineConfigured && recent.Some? {
        event := Some(DoorEvent(expected, recent.value, false, 0.9, LineCrossing));
        lastEvent := Some(ts);
        return;
      }
      if cfg.lineConfigured && cfg.inferTransitions {
        if !RecentlyInGate(View(), ts, cfg.window) { return None; }
        event := Some(DoorEvent(expected, ts, true, 0.6, ZoneTransitionWithoutLineCrossing));
        lastEvent := Some(ts);
        return;
      }
      if !cfg.lineConfigured {
        event := Some(DoorEvent(expected, ts, false, 0.8, ZoneTransitionNoLine));
        lastEvent := Some(ts);
        return;
      }
      return None;
    }
  }
}
