/** The attendance pipeline as a state and its steps: track key allocation, the
    two-phase commit of door events, the exit grace window, identity back-fill
    through the unflushed session, and the finalisation of tracks. A run is a
    sequence of detector frames followed by the end of the video. */
module PipelineSpec {
  import opened Wrappers
  import opened StableSort
  import opened DoorEngine
  import opened Reliability
  import opened TrackKeys

  datatype Config = Config(
    engine: EngineConfig,
    inferExit: bool,
    enablePending: bool,
    minAge: int,
    minHits: int,
    enableExit: bool,
    grace: int,
    minLock: real,
    requireUnique: bool,
    ttl: int,
    faceEnabled: bool,
    maxProbes: int,
    probeCooldown: int)

  // ------------------------------------------------------------------ input

  /** An identity locked by the face system, when a probe is made. */
  datatype Lock = Lock(employee: Employee, confidence: Option<real>)

  datatype Detection = Detection(
    raw: int, zone: Zone, side: Option<Side>, inGate: bool, nearDoor: bool, lock: Option<Lock>)

  datatype Frame = Frame(ts: int, detections: seq<Detection>)

  function ObservationOf(ts: int, d: Detection): (r: Observation) {
    Observation(ts, d.zone, d.side, d.inGate)
  }

  // ------------------------------------------------------------------ state

  /** A track that ended inside, held until the grace window is over. */
  datatype Hold = Hold(started: Option<int>, exitTs: Option<int>, confidence: Option<real>, reason: Option<Reason>)

  datatype Runtime = Runtime(
    door: DoorState,
    firstTs: Option<int>,
    lastTs: Option<int>,
    firstZone: Zone,
    lastZone: Zone,
    hits: nat,
    employee: Option<Employee>,
    confidence: Option<real>,
    probes: nat,
    lastProbe: Option<int>,
    pending: seq<Pending>,
    hold: Option<Hold>)

  const FRESH_RUNTIME := Runtime(FRESH, None, None, Unknown, Unknown, 0, None, None, 0, None, [], None)

  /** How an exit row came to be written late, if it was. */
  datatype Mark = Plain | AfterGrace | AtEndOfVideo

  datatype EventRow = EventRow(
    key: string, ts: int, kind: EventKind, inferred: bool, confidence: Option<real>, reason: Reason,
    mark: Mark, employee: Option<Employee>)

  datatype TrackRow = TrackRow(
    key: string, firstTs: int, lastTs: int, employee: Option<Employee>, confidence: Option<real>,
    firstZone: Zone, lastZone: Zone)

  datatype Counts = Counts(enqueued: nat, flushed: nat, dropped: nat, started: nat, canceled: nat, expired: nat)

  /** A pending event that never became a row, and why. Only drops are counted by the program. */
  datatype Loss = Loss(key: string, event: Pending, why: LossReason)
  datatype LossReason = Dropped | Discarded | MergedAway

  datatype State = State(
    runtimes: map<string, Runtime>,
    order: seq<string>,              // the keys of `runtimes`, in insertion order
    used: set<string>,
    reuse: map<int, nat>,
    active: map<int, string>,
    table: seq<EventRow>,            // event rows the database can see
    buffer: seq<EventRow>,           // event rows added to the session, not flushed
    tracks: seq<TrackRow>,
    unsaved: nat,
    counts: Counts,
    log: map<string, seq<Observation>>,  // history: what each key has observed
    lost: seq<Loss>,                     // history: pending events that were given up
    merged: set<string>)                 // history: keys ended by an identity merge

  const INITIAL := State(map[], [], {}, map[], map[], [], [], [], 0, Counts(0, 0, 0, 0, 0, 0), map[], [], {})

  const CHECKPOINT := 200

  // ------------------------------------------------------- database session

  function AddEvents(s: State, rows: seq<EventRow>): (r: State) {
    s.(buffer := s.buffer + rows, unsaved := s.unsaved + |rows|)
  }

  function Flush(s: State): (r: State) {
    s.(table := s.table + s.buffer, buffer := [])
  }

  function Claim(row: EventRow, key: string, e: Employee): (r: EventRow) {
    if row.key == key && row.employee == None then row.(employee := Some(e)) else row
  }

  function Claimed(rows: seq<EventRow>, key: string, e: Employee): (r: seq<EventRow>) {
    if rows == [] then [] else [Claim(rows[0], key, e)] + Claimed(rows[1..], key, e)
  }

  /** The bulk update: it reaches the rows in the table, and no others. */
  function Backfill(s: State, key: string, e: Employee): (r: State) {
    s.(table := Claimed(s.table, key, e))
  }

  function PendingRow(key: string, employee: Option<Employee>, pe: Pending): (r: EventRow) {
    EventRow(key, pe.ts, pe.kind, pe.inferred, pe.confidence, pe.reason, Plain, employee)
  }

  function PendingRows(key: string, employee: Option<Employee>, pes: seq<Pending>): (r: seq<EventRow>) {
    if pes == [] then []
    else PendingRows(key, employee, pes[..|pes| - 1]) + [PendingRow(key, employee, pes[|pes| - 1])]
  }

  /** Commits pending events of one track, and counts them as flushed. */
  function CommitPending(s: State, key: string, employee: Option<Employee>, pes: seq<Pending>): (r: State) {
    AddEvents(s, PendingRows(key, employee, pes)).(counts := s.counts.(flushed := s.counts.flushed + |pes|))
  }

  function Store(s: State, key: string, rt: Runtime): (r: State) {
    s.(runtimes := s.runtimes[key := rt])
  }

  /** Commits `pes` and leaves the track with nothing pending. */
  function CommitAndClear(s: State, key: string, pes: seq<Pending>): (r: State)
    requires key in s.runtimes
    ensures r.runtimes.Keys == s.runtimes.Keys
  {
    var rt := s.runtimes[key];
    Store(CommitPending(s, key, rt.employee, pes), key, rt.(pending := []))
  }

  predicate EarlierPending(a: Pending, b: Pending) {
    a.ts <= b.ts
  }

  // ------------------------------------------------------ life of one track

  /** The key of a tracker id: the one it is live under, or a fresh one. */
  ghost function KeyOf(s: State, raw: int): (key: string) {
    if raw in s.active then s.active[raw] else KeyName(raw, NextUse(s, raw))
  }

  ghost function NextUse(s: State, raw: int): (n: nat) {
    FirstFree(s.used + s.runtimes.Keys, raw, (if raw in s.reuse then s.reuse[raw] else 0) + 1)
  }

  ghost function Admit(s: State, raw: int): (r: State) {
    var key := KeyOf(s, raw);
    var named := if raw in s.active then s
                 else s.(reuse := s.reuse[raw := NextUse(s, raw)], active := s.active[raw := key]);
    if key in s.runtimes then named
    else named.(runtimes := s.runtimes[key := FRESH_RUNTIME], order := s.order + [key])
  }

  function Remove(keys: seq<string>, key: string): (r: seq<string>) {
    if keys == [] then []
    else if keys[0] == key then Remove(keys[1..], key)
    else [keys[0]] + Remove(keys[1..], key)
  }

  /** Writes the track's summary row and forgets the track. */
  function Retire(s: State, key: string, now: int): (r: State)
    requires key in s.runtimes
    ensures r.runtimes.Keys == s.runtimes.Keys - {key}
  {
    var rt := s.runtimes[key];
    s.(tracks := s.tracks + [TrackRow(key, rt.firstTs.GetOr(rt.lastTs.GetOr(now)), rt.lastTs.GetOr(now),
                                      rt.employee, rt.confidence, rt.firstZone, rt.lastZone)],
       unsaved := s.unsaved + 1,
       runtimes := s.runtimes - {key},
       order := Remove(s.order, key),
       used := s.used + {key},
       active := map raw | raw in s.active && s.active[raw] != key :: s.active[raw])
  }

  predicate Stable(cfg: Config, rt: Runtime, now: int) {
    IsTrackStable(rt.firstTs, now, rt.hits, cfg.minAge, cfg.minHits)
  }

  // --------------------------------------------------------- one detection

  /** What one more sighting does to a runtime, before any event is handled. */
  function Sighted(cfg: Config, rt: Runtime, o: Observation): (r: Runtime) {
    rt.(hold := if cfg.enableExit then None else rt.hold,
        firstTs := Some(rt.firstTs.GetOr(o.ts)),
        lastTs := Some(o.ts),
        hits := rt.hits + 1,
        door := Observe(cfg.engine, rt.door, o).0,
        firstZone := if rt.firstZone == Unknown then o.zone else rt.firstZone,
        lastZone := o.zone)
  }

  function LogOf(s: State, key: string): (r: seq<Observation>) {
    if key in s.log then s.log[key] else []
  }

  function See(cfg: Config, s: State, key: string, o: Observation): (r: State)
    requires key in s.runtimes
    ensures r.runtimes.Keys == s.runtimes.Keys
  {
    var rt := s.runtimes[key];
    var back := cfg.enableExit && rt.hold.Some?;
    Store(s, key, Sighted(cfg, rt, o)).(
      counts := if back then s.counts.(canceled := s.counts.canceled + 1) else s.counts,
      log := s.log[key := LogOf(s, key) + [o]])
  }

  /** Two-phase commit, first phase: commit now or keep the event pending. */
  function Offer(cfg: Config, s: State, key: string, pe: Pending, now: int): (r: State)
    requires key in s.runtimes
    ensures r.runtimes.Keys == s.runtimes.Keys
  {
    var rt := s.runtimes[key];
    if !cfg.enablePending || ShouldCommitEvent(pe.strength, Stable(cfg, rt, now))
    then AddEvents(s, [PendingRow(key, rt.employee, pe)])
    else Store(s, key, rt.(pending := rt.pending + [pe])).(counts := s.counts.(enqueued := s.counts.enqueued + 1))
  }

  /** Second phase: once the track is stable, everything pending is committed in time order. */
  function FlushIfReady(cfg: Config, s: State, key: string, now: int): (r: State)
    requires key in s.runtimes
    ensures r.runtimes.Keys == s.runtimes.Keys
  {
    var rt := s.runtimes[key];
    if !cfg.enablePending || rt.pending == [] || !Stable(cfg, rt, now) then s
    else CommitAndClear(s, key, Sort(EarlierPending, rt.pending))
  }

  predicate Probes(cfg: Config, rt: Runtime, now: int, d: Detection, hadEvent: bool) {
    && cfg.faceEnabled && rt.employee == None && rt.probes < cfg.maxProbes
    && (d.nearDoor || hadEvent)
    && !(rt.lastProbe.Some? && now - rt.lastProbe.value < cfg.probeCooldown)
  }

  /** The held tracks that an identity just locked on `key` may continue. */
  function Continued(cfg: Config, s: State, keys: seq<string>, key: string, now: int): (r: seq<string>)
    requires key in s.runtimes
    ensures forall k :: k in r ==> k in keys && k != key && k in s.runtimes && s.runtimes[k].hold.Some?
  {
    if keys == [] then []
    else
      var front, k := keys[..|keys| - 1], keys[|keys| - 1];
      Continued(cfg, s, front, key, now) + if k in s.runtimes && Continues(cfg, s, k, key, now) then [k] else []
  }

  predicate Continues(cfg: Config, s: State, k: string, key: string, now: int)
    requires key in s.runtimes && k in s.runtimes
  {
    var other, rt := s.runtimes[k], s.runtimes[key];
    && k != key && other.hold.Some? && other.hold.value.started.Some?
    && ShouldCancelExit(other.employee, other.hold.value.started.value, now, cfg.grace,
                        rt.employee, rt.confidence, cfg.minLock, true)
  }

  /** The first of the most recently held tracks. */
  function LatestHeld(s: State, keys: seq<string>): (r: string)
    requires keys != [] && forall k :: k in keys ==> k in s.runtimes && s.runtimes[k].hold.Some?
    ensures r in keys
  {
    var last := keys[|keys| - 1];
    if |keys| == 1 then last
    else
      var best := LatestHeld(s, keys[..|keys| - 1]);
      if s.runtimes[last].hold.value.started.GetOr(0) > s.runtimes[best].hold.value.started.GetOr(0) then last else best
  }

  function Losses(key: string, pes: seq<Pending>, why: LossReason): (r: seq<Loss>) {
    if pes == [] then [] else Losses(key, pes[..|pes| - 1], why) + [Loss(key, pes[|pes| - 1], why)]
  }

  function AddLosses(s: State, ls: seq<Loss>): (r: State) {
    s.(lost := s.lost + ls)
  }

  function Count(s: State, c: Counts): (r: State) {
    s.(counts := c)
  }

  function MarkMerged(s: State, key: string): (r: State) {
    s.(merged := s.merged + {key})
  }

  /** Ends a held track without an exit: its pending events go with it. */
  function MergeAway(s: State, key: string, now: int): (r: State)
    requires key in s.runtimes
  {
    var noted := MarkMerged(AddLosses(s, Losses(key, s.runtimes[key].pending, MergedAway)), key);
    Retire(Count(noted, s.counts.(canceled := s.counts.canceled + 1)), key, now)
  }

  function MergeHeld(cfg: Config, s: State, key: string, now: int): (r: State)
    requires key in s.runtimes
  {
    var found := Continued(cfg, s, s.order, key, now);
    if found == [] || (cfg.requireUnique && |found| != 1) then s
    else MergeAway(s, LatestHeld(s, found), now)
  }

  function Named(rt: Runtime, lock: Lock): (r: Runtime) {
    rt.(employee := Some(lock.employee), confidence := lock.confidence)
  }

  /** Names the track, flushes the session, and back-fills the track's earlier rows. */
  function NameRows(s: State, key: string, lock: Lock): (r: State)
    requires key in s.runtimes
    ensures r.runtimes.Keys == s.runtimes.Keys
  {
    Backfill(Flush(Store(s, key, Named(s.runtimes[key], lock))), key, lock.employee)
  }

  /** Attaches an identity, then looks for a held track to continue. */
  function LockIdentity(cfg: Config, s: State, key: string, now: int, lock: Lock, continuing: bool): (r: State)
    requires key in s.runtimes
  {
    var named := NameRows(s, key, lock);
    if continuing then MergeHeld(cfg, named, key, now) else named
  }

  function ProbeCounted(rt: Runtime, now: int): (r: Runtime) {
    rt.(probes := rt.probes + 1, lastProbe := Some(now))
  }

  predicate ProbeMayContinue(cfg: Config, d: Detection) {
    cfg.enableExit && d.zone == Inside && d.nearDoor && d.lock.Some? && d.lock.value.confidence.Some?
  }

  /** What a probe finds may lock an identity. */
  function AfterProbe(cfg: Config, s: State, key: string, now: int, d: Detection): (r: State)
    requires key in s.runtimes
  {
    if d.lock == None then s else LockIdentity(cfg, s, key, now, d.lock.value, ProbeMayContinue(cfg, d))
  }

  /** The face probe, when one is due. */
  function Identify(cfg: Config, s: State, key: string, now: int, d: Detection, hadEvent: bool): (r: State)
    requires key in s.runtimes
  {
    if Probes(cfg, s.runtimes[key], now, d, hadEvent)
    then AfterProbe(cfg, Store(s, key, ProbeCounted(s.runtimes[key], now)), key, now, d)
    else s
  }

  /** The state after the door logic of one detection, before the face probe. */
  function DoorLogic(cfg: Config, s: State, key: string, o: Observation): (r: State)
    requires key in s.runtimes
    ensures r.runtimes.Keys == s.runtimes.Keys
  {
    var event := Observe(cfg.engine, s.runtimes[key].door, o).1;
    var seen := See(cfg, s, key, o);
    var offered := if event.Some? then Offer(cfg, seen, key, ToPending(event.value), o.ts) else seen;
    FlushIfReady(cfg, offered, key, o.ts)
  }

  ghost function Detect(cfg: Config, s: State, now: int, d: Detection): (r: State) {
    var key, admitted, o := KeyOf(s, d.raw), Admit(s, d.raw), ObservationOf(now, d);
    assert key in admitted.runtimes;
    Identify(cfg, DoorLogic(cfg, admitted, key, o), key, now, d,
             Observe(cfg.engine, admitted.runtimes[key].door, o).1.Some?)
  }

  // ---------------------------------------------------------- end of tracks

  function Strongs(pes: seq<Pending>): (r: seq<Pending>) {
    if pes == [] then []
    else Strongs(pes[..|pes| - 1]) +
         var pe := pes[|pes| - 1]; if pe.strength == Strong && !ShouldDropOnEnd(pe) then [pe] else []
  }

  /** The losses among events still pending when an unstable track ends. */
  function EndLosses(key: string, pes: seq<Pending>): (r: seq<Loss>) {
    if pes == [] then []
    else EndLosses(key, pes[..|pes| - 1]) +
         var pe := pes[|pes| - 1];
         if ShouldDropOnEnd(pe) then [Loss(key, pe, Dropped)]
         else if pe.strength == Strong then [] else [Loss(key, pe, Discarded)]
  }

  function DropCount(pes: seq<Pending>): (r: nat) {
    if pes == [] then 0
    else DropCount(pes[..|pes| - 1]) + if ShouldDropOnEnd(pes[|pes| - 1]) then 1 else 0
  }

  /** Settles what is pending when a track ends, judging stability at its last sighting. */
  function SettlePending(cfg: Config, s: State, key: string, now: int): (r: State)
    requires key in s.runtimes
    ensures r.runtimes.Keys == s.runtimes.Keys && r.order == s.order
    ensures r.runtimes[key] == s.runtimes[key].(pending := r.runtimes[key].pending)
  {
    var rt := s.runtimes[key];
    if !cfg.enablePending || rt.pending == [] then s
    else if Stable(cfg, rt, rt.lastTs.GetOr(now)) then CommitAndClear(s, key, Sort(EarlierPending, rt.pending))
    else SettleUnstable(s, key)
  }

  /** On an unstable end only strong events are committed; the rest is given up. */
  function SettleUnstable(s: State, key: string): (r: State)
    requires key in s.runtimes
    ensures r.runtimes == s.runtimes[key := s.runtimes[key].(pending := [])] && r.order == s.order
  {
    var pes := s.runtimes[key].pending;
    var cleared := CommitAndClear(s, key, Strongs(pes));
    AddLosses(Count(cleared, cleared.counts.(dropped := s.counts.dropped + DropCount(pes))), EndLosses(key, pes))
  }

  function HeldExitRow(key: string, rt: Runtime, hold: Hold, now: int, mark: Mark): (r: EventRow) {
    EventRow(key, hold.exitTs.GetOr(rt.lastTs.GetOr(now)), Exit, true, hold.confidence,
             hold.reason.GetOr(TrackEndedInside), mark, rt.employee)
  }

  function EndRow(key: string, rt: Runtime, e: DoorEvent): (r: EventRow) {
    EventRow(key, e.ts, e.kind, e.inferred, Some(e.confidence), e.reason, Plain, rt.employee)
  }

  /** Ends a held track by committing its inferred exit. */
  function ReleaseHeld(cfg: Config, s: State, key: string, hold: Hold, now: int, mark: Mark): (r: State)
    requires key in s.runtimes
    ensures r.runtimes.Keys == s.runtimes.Keys - {key}
  {
    var settled := SettlePending(cfg, s, key, now);
    var row := HeldExitRow(key, settled.runtimes[key], hold, now, mark);
    Retire(Count(AddEvents(settled, [row]), settled.counts.(expired := settled.counts.expired + 1)), key, now)
  }

  /** A held track that is still missing: its exit is committed once the grace is over. */
  function AwaitGrace(cfg: Config, s: State, key: string, now: int): (r: State)
    requires key in s.runtimes && s.runtimes[key].hold.Some?
    ensures r.runtimes.Keys >= s.runtimes.Keys - {key}
  {
    var rt := s.runtimes[key];
    var started := rt.hold.value.started.GetOr(now);
    var hold := rt.hold.value.(started := Some(started));
    var dated := Store(s, key, rt.(hold := Some(hold)));
    if ExitGraceExpired(started, now, cfg.grace) then ReleaseHeld(cfg, dated, key, hold, now, AfterGrace) else dated
  }

  predicate WantsHold(cfg: Config, end: Option<DoorEvent>) {
    cfg.enableExit && end.Some? && end.value.inferred && end.value.reason == TrackEndedInside
  }

  /** A track that went missing: it is held when it ended inside, and ended otherwise. */
  function EndOrHold(cfg: Config, s: State, key: string, now: int): (r: State)
    requires key in s.runtimes
    ensures r.runtimes.Keys >= s.runtimes.Keys - {key}
  {
    var rt := s.runtimes[key];
    var end := Finalize(rt.door, cfg.inferExit);
    var settled := if WantsHold(cfg, end) && !Stable(cfg, rt, rt.lastTs.GetOr(now)) then s
                   else SettlePending(cfg, s, key, now);
    if WantsHold(cfg, end) then StartHold(settled, key, end.value, now) else EndNow(settled, key, end, now)
  }

  /** Opens the grace window: the inferred exit is remembered, not committed. */
  function StartHold(s: State, key: string, end: DoorEvent, now: int): (r: State)
    requires key in s.runtimes
    ensures r.runtimes.Keys == s.runtimes.Keys
  {
    var held := s.runtimes[key].(
      hold := Some(Hold(Some(now), Some(end.ts), Some(end.confidence), Some(end.reason))));
    Count(Store(s, key, held), s.counts.(started := s.counts.started + 1))
  }

  function EndNow(s: State, key: string, end: Option<DoorEvent>, now: int): (r: State)
    requires key in s.runtimes
    ensures r.runtimes.Keys == s.runtimes.Keys - {key}
  {
    Retire(if end.Some? then AddEvents(s, [EndRow(key, s.runtimes[key], end.value)]) else s, key, now)
  }

  function Expire(cfg: Config, s: State, key: string, now: int): (r: State)
    requires key in s.runtimes
    ensures r.runtimes.Keys >= s.runtimes.Keys - {key}
  {
    if cfg.enableExit && s.runtimes[key].hold.Some? then AwaitGrace(cfg, s, key, now) else EndOrHold(cfg, s, key, now)
  }

  /** The tracks that a frame at `now` finds missing for longer than the time to live. */
  function Missing(cfg: Config, s: State, keys: seq<string>, seen: set<string>, now: int): (r: seq<string>)
  {
    if keys == [] then []
    else
      var k := keys[|keys| - 1];
      Missing(cfg, s, keys[..|keys| - 1], seen, now) +
      if k in s.runtimes && k !in seen && s.runtimes[k].lastTs.Some? && now - s.runtimes[k].lastTs.value > cfg.ttl
      then [k] else []
  }

  function ExpireAll(cfg: Config, s: State, keys: seq<string>, now: int): (r: State)
    decreases keys
  {
    if keys == [] then s
    else ExpireAll(cfg, if keys[0] in s.runtimes then Expire(cfg, s, keys[0], now) else s, keys[1..], now)
  }

  /** The end of the video ends every remaining track, held ones with their exit. */
  function Conclude(cfg: Config, s: State, key: string, now: int): (r: State)
    requires key in s.runtimes
    ensures r.runtimes.Keys == s.runtimes.Keys - {key}
  {
    var rt := s.runtimes[key];
    if cfg.enableExit && rt.hold.Some? then ReleaseHeld(cfg, s, key, rt.hold.value, now, AtEndOfVideo)
    else EndNow(SettlePending(cfg, s, key, now), key, Finalize(rt.door, cfg.inferExit), now)
  }

  function ConcludeAll(cfg: Config, s: State, keys: seq<string>, now: int): (r: State)
    decreases keys
  {
    if keys == [] then s
    else ConcludeAll(cfg, if keys[0] in s.runtimes then Conclude(cfg, s, keys[0], now) else s, keys[1..], now)
  }

  function Checkpoint(s: State): (r: State) {
    if s.unsaved >= CHECKPOINT then Flush(s).(unsaved := 0) else s
  }

  // ------------------------------------------------------------------- runs

  ghost function DetectAll(cfg: Config, s: State, now: int, ds: seq<Detection>): (r: State) {
    if ds == [] then s else Detect(cfg, DetectAll(cfg, s, now, ds[..|ds| - 1]), now, ds[|ds| - 1])
  }

  /** The keys seen in one frame. */
  ghost function SeenKeys(cfg: Config, s: State, now: int, ds: seq<Detection>): (r: set<string>) {
    if ds == [] then {}
    else SeenKeys(cfg, s, now, ds[..|ds| - 1]) + {KeyOf(DetectAll(cfg, s, now, ds[..|ds| - 1]), ds[|ds| - 1].raw)}
  }

  ghost function FrameStep(cfg: Config, s: State, f: Frame): (r: State) {
    var detected := DetectAll(cfg, s, f.ts, f.detections);
    var gone := Missing(cfg, detected, detected.order, SeenKeys(cfg, s, f.ts, f.detections), f.ts);
    Checkpoint(ExpireAll(cfg, detected, gone, f.ts))
  }

  ghost function RunFrames(cfg: Config, frames: seq<Frame>): (r: State) {
    if frames == [] then INITIAL else FrameStep(cfg, RunFrames(cfg, frames[..|frames| - 1]), frames[|frames| - 1])
  }

  /** A whole run: the frames, the end of the video at `end`, and the last commit. */
  ghost function RunToEnd(cfg: Config, frames: seq<Frame>, end: int): (r: State) {
    var s := RunFrames(cfg, frames);
    Flush(ConcludeAll(cfg, s, s.order, end))
  }

  /** What the decoder guarantees: frames in time order, and no side of a line that is not there. */
  ghost predicate LegalFrames(cfg: Config, frames: seq<Frame>) {
    && (forall i, j :: 0 <= i < j < |frames| ==> frames[i].ts <= frames[j].ts)
    && (forall i, j :: 0 <= i < |frames| && 0 <= j < |frames[i].detections| ==>
          Observable(cfg.engine, ObservationOf(frames[i].ts, frames[i].detections[j])))
  }
}
