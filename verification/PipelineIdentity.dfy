/** Whom a probe names and which held track an identity ends, told for every detection of
    every run from what the state shows before and after it. */
module PipelineIdentity {
  import opened Wrappers
  import opened StableSort
  import opened DoorEngine
  import opened Reliability
  import opened TrackKeys
  import opened PipelineSpec
  import opened PipelineViews
  import opened PipelineKeyInvariant
  import opened PipelineRuns
  import opened PipelineSpacing
  import opened PipelineTheorems

  // --------------------------------------------------------- which held track it is

  /** The track `k` is held for the employee of the lock, which is good enough, and its
      hold began no longer ago than the grace. */
  ghost predicate FitsLock(cfg: Config, s: State, key: string, k: string, lock: Lock, now: int) {
    && k != key && k in s.runtimes && s.runtimes[k].hold.Some? && s.runtimes[k].hold.value.started.Some?
    && s.runtimes[k].employee == Some(lock.employee)
    && lock.confidence.Some? && lock.confidence.value >= cfg.minLock
    && now <= s.runtimes[k].hold.value.started.value + cfg.grace
  }

  /** `a` comes before `b`. */
  ghost predicate Precedes(keys: seq<string>, a: string, b: string) {
    exists i, j :: 0 <= i < j < |keys| && keys[i] == a && keys[j] == b
  }

  /** No other held track fits better: it is the only one, or the one held last, and of
      several held last the first of the dictionary. */
  ghost predicate FitsBest(cfg: Config, s: State, key: string, k: string, lock: Lock, now: int) {
    && FitsLock(cfg, s, key, k, lock, now)
    && forall z :: FitsLock(cfg, s, key, z, lock, now) && z != k ==>
         && !cfg.requireUnique
         && var a, b := s.runtimes[z].hold.value.started.value, s.runtimes[k].hold.value.started.value;
            a < b || (a == b && Precedes(s.order, k, z))
  }

  lemma {:induction false} ContinuedAre(cfg: Config, s: State, keys: seq<string>, key: string, now: int)
    requires key in s.runtimes
    ensures var r := Continued(cfg, s, keys, key, now);
      && (forall k :: k in r <==> k in keys && k in s.runtimes && Continues(cfg, s, k, key, now))
      && forall i, j :: 0 <= i < j < |r| ==> Precedes(keys, r[i], r[j])
  {
    if keys == [] {
    } else {
      var front, k := keys[..|keys| - 1], keys[|keys| - 1];
      ContinuedAre(cfg, s, front, key, now);
      var p, r := Continued(cfg, s, front, key, now), Continued(cfg, s, keys, key, now);
      assert keys == front + [k];
      forall i, j | 0 <= i < j < |r| ensures Precedes(keys, r[i], r[j]) {
        if j < |p| {
          assert Precedes(front, p[i], p[j]);
          var x, y :| 0 <= x < y < |front| && front[x] == p[i] && front[y] == p[j];
          assert keys[x] == r[i] && keys[y] == r[j];
        } else {
          assert r[i] == p[i] && p[i] in front;
          var x :| 0 <= x < |front| && front[x] == p[i];
          assert keys[x] == r[i] && keys[|keys| - 1] == r[j];
        }
      }
    }
  }

  /** The first of the latest. */
  lemma {:induction false} LatestHeldIs(s: State, keys: seq<string>) returns (i: nat)
    requires keys != [] && forall k :: k in keys ==> k in s.runtimes && s.runtimes[k].hold.Some?
    requires forall k :: k in keys ==> s.runtimes[k].hold.value.started.Some?
    ensures i < |keys| && keys[i] == LatestHeld(s, keys)
    ensures forall j :: 0 <= j < |keys| ==>
              var a, b := s.runtimes[keys[j]].hold.value.started.value, s.runtimes[keys[i]].hold.value.started.value;
              if j < i then a < b else a <= b
  {
    var last := keys[|keys| - 1];
    if |keys| == 1 {
      i := 0;
    } else {
      var front := keys[..|keys| - 1];
      assert forall k :: k in front ==> k in keys;
      i := LatestHeldIs(s, front);
      assert keys[i] == front[i] && last in keys && front[i] in keys;
      if s.runtimes[last].hold.value.started.value > s.runtimes[front[i]].hold.value.started.value { i := |keys| - 1; }
    }
  }

  lemma ContinuesIsFit(cfg: Config, s: State, k: string, key: string, lock: Lock, now: int)
    requires key in s.runtimes && k in s.runtimes
    requires s.runtimes[key].employee == Some(lock.employee) && s.runtimes[key].confidence == lock.confidence
    ensures Continues(cfg, s, k, key, now) <==> FitsLock(cfg, s, key, k, lock, now)
  {
  }

  lemma PrecedesOnce(keys: seq<string>, a: string, b: string)
    requires NoDup(keys) && Precedes(keys, a, b)
    ensures a != b && !Precedes(keys, b, a)
  {
  }

  /** The continuity rule ends the one that fits best, if there is one, and nothing else. */
  lemma MergeHeldIs(cfg: Config, n: State, key: string, lock: Lock, now: int) returns (gone: Option<string>)
    requires key in n.runtimes && Ordered(n)
    requires n.runtimes[key].employee == Some(lock.employee) && n.runtimes[key].confidence == lock.confidence
    ensures gone.Some? ==>
              && FitsBest(cfg, n, key, gone.value, lock, now)
              && MergeHeld(cfg, n, key, now) == MergeAway(n, gone.value, now)
    ensures gone.None? ==> MergeHeld(cfg, n, key, now) == n && forall k :: !FitsBest(cfg, n, key, k, lock, now)
  {
    var found := Continued(cfg, n, n.order, key, now);
    ContinuedAre(cfg, n, n.order, key, now);
    forall k ensures k in found <==> FitsLock(cfg, n, key, k, lock, now) {
      if k in n.runtimes { ContinuesIsFit(cfg, n, k, key, lock, now); }
    }
    if found == [] {
      gone := None;
    } else if cfg.requireUnique && |found| != 1 {
      gone := None;
      NoneIsBest(cfg, n, key, lock, now, found);
    } else {
      var i := LatestHeldIs(n, found);
      gone := Some(found[i]);
      LatestFitsBest(cfg, n, key, lock, now, found, i);
    }
  }

  lemma NoneIsBest(cfg: Config, n: State, key: string, lock: Lock, now: int, found: seq<string>)
    requires Ordered(n) && cfg.requireUnique && |found| > 1
    requires forall k :: k in found <==> FitsLock(cfg, n, key, k, lock, now)
    requires forall i, j :: 0 <= i < j < |found| ==> Precedes(n.order, found[i], found[j])
    ensures forall k :: !FitsBest(cfg, n, key, k, lock, now)
  {
    assert Precedes(n.order, found[0], found[1]);
    PrecedesOnce(n.order, found[0], found[1]);
    assert found[0] in found && found[1] in found;
    forall k ensures !FitsBest(cfg, n, key, k, lock, now) {
      var z := if k == found[0] then found[1] else found[0];
      assert z in found && z != k;
    }
  }

  lemma LatestFitsBest(cfg: Config, n: State, key: string, lock: Lock, now: int, found: seq<string>, i: nat)
    requires Ordered(n) && i < |found| && (cfg.requireUnique ==> |found| == 1)
    requires forall k :: k in found <==> FitsLock(cfg, n, key, k, lock, now)
    requires forall x, y :: 0 <= x < y < |found| ==> Precedes(n.order, found[x], found[y])
    requires forall k :: k in found ==>
               k in n.runtimes && n.runtimes[k].hold.Some? && n.runtimes[k].hold.value.started.Some?
    requires forall j :: 0 <= j < |found| ==>
               var a, b := n.runtimes[found[j]].hold.value.started.value, n.runtimes[found[i]].hold.value.started.value;
               if j < i then a < b else a <= b
    ensures FitsBest(cfg, n, key, found[i], lock, now)
  {
    var k := found[i];
    assert k in found;
    forall z | FitsLock(cfg, n, key, z, lock, now) && z != k
      ensures !cfg.requireUnique
      ensures var a, b := n.runtimes[z].hold.value.started.value, n.runtimes[k].hold.value.started.value;
        a < b || (a == b && Precedes(n.order, k, z))
    {
      assert z in found;
      var j :| 0 <= j < |found| && found[j] == z;
    }
  }

  /** Only the runtime of `key` differs, so the same held tracks fit. */
  lemma SameFits(cfg: Config, s: State, t: State, key: string, lock: Lock, now: int)
    requires forall k :: k != key ==> (k in s.runtimes <==> k in t.runtimes)
    requires forall k :: k != key && k in s.runtimes ==> t.runtimes[k] == s.runtimes[k]
    requires forall a, b :: a != key && b != key ==> (Precedes(s.order, a, b) <==> Precedes(t.order, a, b))
    ensures forall k :: FitsLock(cfg, s, key, k, lock, now) <==> FitsLock(cfg, t, key, k, lock, now)
    ensures forall k :: FitsBest(cfg, s, key, k, lock, now) <==> FitsBest(cfg, t, key, k, lock, now)
  {
    forall k ensures FitsLock(cfg, s, key, k, lock, now) <==> FitsLock(cfg, t, key, k, lock, now) {}
    forall k ensures FitsBest(cfg, s, key, k, lock, now) <==> FitsBest(cfg, t, key, k, lock, now) {
      SameBest(cfg, s, t, key, k, lock, now);
      SameBest(cfg, t, s, key, k, lock, now);
    }
  }

  lemma SameBest(cfg: Config, s: State, t: State, key: string, k: string, lock: Lock, now: int)
    requires forall k :: k != key && k in s.runtimes && k in t.runtimes ==> t.runtimes[k] == s.runtimes[k]
    requires forall a, b :: a != key && b != key ==> (Precedes(s.order, a, b) <==> Precedes(t.order, a, b))
    requires forall k :: FitsLock(cfg, s, key, k, lock, now) <==> FitsLock(cfg, t, key, k, lock, now)
    ensures FitsBest(cfg, s, key, k, lock, now) ==> FitsBest(cfg, t, key, k, lock, now)
  {
  }

  lemma PrecedesAppend(keys: seq<string>, key: string, a: string, b: string)
    requires b != key
    ensures Precedes(keys + [key], a, b) <==> Precedes(keys, a, b)
  {
    var all := keys + [key];
    if Precedes(all, a, b) {
      var i, j :| 0 <= i < j < |all| && all[i] == a && all[j] == b;
      assert keys[i] == a && keys[j] == b;
    }
    if Precedes(keys, a, b) {
      var i, j :| 0 <= i < j < |keys| && keys[i] == a && keys[j] == b;
      assert all[i] == a && all[j] == b;
    }
  }

  // ------------------------------------------------------------- one detection

  /** A probe is due for a track that had this runtime before the detection. */
  predicate ProbeDue(cfg: Config, before: Runtime, now: int, d: Detection, event: bool) {
    && cfg.faceEnabled && before.employee == None && before.probes < cfg.maxProbes && (d.nearDoor || event)
    && (before.lastProbe.Some? ==> now >= before.lastProbe.value + cfg.probeCooldown)
  }

  function Earlier(s: State, key: string): (r: Runtime) {
    if key in s.runtimes then s.runtimes[key] else FRESH_RUNTIME
  }

  /** The keys of a step: only `key` and the one that is gone are touched. */
  ghost predicate OnlyTouches(s: State, t: State, key: string, gone: Option<string>) {
    && t.merged == s.merged + (if gone.Some? then {gone.value} else {})
    && t.used == s.used + (if gone.Some? then {gone.value} else {})
    && (forall k :: k in t.runtimes <==> (k in s.runtimes || k == key) && gone != Some(k))
    && (forall k :: k in t.runtimes && k != key ==> t.runtimes[k] == s.runtimes[k])
    && (forall k :: k != key ==> RowsOf(t.table + t.buffer, k) == RowsOf(s.table + s.buffer, k))
  }

  /** What the identity part of a detection leaves in the track's runtime. */
  ghost predicate Identified(cfg: Config, before: Runtime, after: Runtime, now: int, d: Detection, event: bool) {
    var due := ProbeDue(cfg, before, now, d, event);
    && after.probes == before.probes + (if due then 1 else 0)
    && after.lastProbe == (if due then Some(now) else before.lastProbe)
    && (if due && d.lock.Some?
        then after.employee == Some(d.lock.value.employee) && after.confidence == d.lock.value.confidence
        else after.employee == before.employee && after.confidence == before.confidence)
  }

  /** An identity that may continue a held track: locked now, with the track inside and near the door. */
  ghost predicate MayTake(cfg: Config, before: Runtime, now: int, d: Detection, event: bool) {
    && ProbeDue(cfg, before, now, d, event) && d.lock.Some?
    && cfg.enableExit && d.zone == Inside && d.nearDoor
  }

  /** Which held track is gone: the one that fits best, whenever there is one. */
  ghost predicate TakesBest(cfg: Config, s: State, key: string, before: Runtime, now: int, d: Detection, event: bool,
                            gone: Option<string>) {
    if MayTake(cfg, before, now, d, event) && exists k :: FitsBest(cfg, s, key, k, d.lock.value, now)
    then gone.Some? && FitsBest(cfg, s, key, gone.value, d.lock.value, now)
    else gone == None
  }

  predicate SameIdentity(x: Runtime, y: Runtime) {
    y.employee == x.employee && y.confidence == x.confidence && y.probes == x.probes && y.lastProbe == x.lastProbe
  }

  lemma DoorLogicShows(cfg: Config, a: State, key: string, o: Observation, u: State)
    requires key in a.runtimes && u == DoorLogic(cfg, a, key, o)
    ensures u.order == a.order && u.merged == a.merged && u.used == a.used && u.active == a.active
    ensures u.runtimes.Keys == a.runtimes.Keys
    ensures forall k :: k in a.runtimes && k != key ==> u.runtimes[k] == a.runtimes[k]
    ensures SameIdentity(a.runtimes[key], u.runtimes[key])
  {
    var seen, event := See(cfg, a, key, o), Observe(cfg.engine, a.runtimes[key].door, o).1;
    assert seen.runtimes[key].employee == a.runtimes[key].employee;
    if event.Some? {
      OfferShows(cfg, seen, key, ToPending(event.value), o.ts, Offer(cfg, seen, key, ToPending(event.value), o.ts));
    }
  }

  lemma OfferShows(cfg: Config, s: State, key: string, pe: Pending, now: int, t: State)
    requires key in s.runtimes && t == Offer(cfg, s, key, pe, now)
    ensures t.order == s.order && t.merged == s.merged && t.used == s.used && t.active == s.active
    ensures t.runtimes.Keys == s.runtimes.Keys
    ensures forall k :: k in s.runtimes && k != key ==> t.runtimes[k] == s.runtimes[k]
    ensures t.runtimes[key] == s.runtimes[key].(pending := t.runtimes[key].pending)
  {
  }

  lemma NameShows(cfg: Config, c: State, key: string, now: int, lock: Lock, n: State)
    requires Sound(cfg, now, c) && key in c.runtimes && c.runtimes[key].employee == None
    requires n == NameRows(c, key, lock)
    ensures key in n.runtimes && n.runtimes[key] == Named(c.runtimes[key], lock)
    ensures OnlyTouches(c, n, key, None) && n.active == c.active && n.order == c.order
  {
    LiveHere(cfg, now, c, key);
    LockKeeps(cfg, c, key, now, Named(c.runtimes[key], lock), lock.employee);
    SameRows(c, n, key);
    TouchesStored(c, n, key, Named(c.runtimes[key], lock));
  }

  lemma TouchesStored(c: State, n: State, key: string, rt: Runtime)
    requires key in c.runtimes && n.merged == c.merged && n.used == c.used && n.runtimes == c.runtimes[key := rt]
    requires forall k :: k != key ==> RowsOf(n.table + n.buffer, k) == RowsOf(c.table + c.buffer, k)
    ensures OnlyTouches(c, n, key, None)
  {
  }

  /** `s` and `t` differ in the runtime of `key` at most, as far as fitting goes. */
  lemma TouchedFits(cfg: Config, s: State, t: State, key: string, lock: Lock, now: int)
    requires OnlyTouches(s, t, key, None) && t.order == s.order
    ensures forall k :: FitsBest(cfg, s, key, k, lock, now) <==> FitsBest(cfg, t, key, k, lock, now)
  {
    SameFits(cfg, s, t, key, lock, now);
  }

  lemma LockShows(cfg: Config, c: State, key: string, now: int, lock: Lock, continuing: bool, t: State)
    returns (gone: Option<string>)
    requires Sound(cfg, now, c) && key in c.runtimes && c.runtimes[key].employee == None
    requires t == LockIdentity(cfg, c, key, now, lock, continuing)
    ensures if continuing && exists k :: FitsBest(cfg, c, key, k, lock, now)
            then gone.Some? && FitsBest(cfg, c, key, gone.value, lock, now) else gone == None
    ensures OnlyTouches(c, t, key, gone) && key in t.runtimes && t.runtimes[key] == Named(c.runtimes[key], lock)
    ensures forall raw :: raw in c.active && c.active[raw] == key ==> raw in t.active && t.active[raw] == key
  {
    var n := NameRows(c, key, lock);
    NameShows(cfg, c, key, now, lock, n);
    LockIsSound(cfg, c, key, now, Named(c.runtimes[key], lock), lock.employee);
    gone := None;
    if continuing {
      TouchedFits(cfg, c, n, key, lock, now);
      gone := MergeHeldIs(cfg, n, key, lock, now);
      if gone.Some? { GoneShows(cfg, c, n, key, lock, now, gone.value, t); }
    }
  }

  lemma GoneShows(cfg: Config, c: State, n: State, key: string, lock: Lock, now: int, k: string, t: State)
    requires OnlyTouches(c, n, key, None) && key in n.runtimes && n.active == c.active
    requires FitsBest(cfg, n, key, k, lock, now) && t == MergeAway(n, k, now)
    ensures OnlyTouches(c, t, key, Some(k)) && key in t.runtimes && t.runtimes[key] == n.runtimes[key]
    ensures forall raw :: raw in c.active && c.active[raw] == key ==> raw in t.active && t.active[raw] == key
  {
    assert FitsLock(cfg, n, key, k, lock, now);
    MergeAwayShows(n, k, now, t);
    TouchesMore(c, n, t, key, k);
  }

  lemma SameRows(s: State, t: State, key: string)
    requires OnlyKey(s, t, key)
    ensures forall k :: k != key ==> RowsOf(t.table + t.buffer, k) == RowsOf(s.table + s.buffer, k)
  {
    forall k | k != key ensures RowsOf(t.table + t.buffer, k) == RowsOf(s.table + s.buffer, k) {
      assert ViewOf(t, k) == ViewOf(s, k);
    }
  }

  lemma MergeAwayShows(n: State, k: string, now: int, t: State)
    requires k in n.runtimes && t == MergeAway(n, k, now)
    ensures t.merged == n.merged + {k} && t.used == n.used + {k}
    ensures t.runtimes == n.runtimes - {k}
    ensures forall j :: RowsOf(t.table + t.buffer, j) == RowsOf(n.table + n.buffer, j)
    ensures forall raw :: raw in n.active && n.active[raw] != k ==> raw in t.active && t.active[raw] == n.active[raw]
  {
  }

  lemma TouchesMore(c: State, n: State, t: State, key: string, k: string)
    requires OnlyTouches(c, n, key, None) && k != key && k in n.runtimes
    requires t.merged == n.merged + {k} && t.used == n.used + {k} && t.runtimes == n.runtimes - {k}
    requires forall j :: RowsOf(t.table + t.buffer, j) == RowsOf(n.table + n.buffer, j)
    ensures OnlyTouches(c, t, key, Some(k))
  {
  }

  lemma TouchesThen(s: State, u: State, t: State, key: string, gone: Option<string>)
    requires OnlyTouches(s, u, key, None) && OnlyTouches(u, t, key, gone) && key in t.runtimes
    ensures OnlyTouches(s, t, key, gone)
  {
  }

  lemma ProbeShows(cfg: Config, u: State, key: string, now: int, c: State)
    requires Sound(cfg, now, u) && key in u.runtimes && c == Store(u, key, ProbeCounted(u.runtimes[key], now))
    ensures Sound(cfg, now, c) && OnlyTouches(u, c, key, None) && c.order == u.order && c.active == u.active
    ensures key in c.runtimes && c.runtimes[key] == ProbeCounted(u.runtimes[key], now)
  {
    StoreIsSound(cfg, u, key, now, ProbeCounted(u.runtimes[key], now), c);
    TouchesStored(u, c, key, ProbeCounted(u.runtimes[key], now));
  }

  lemma IdentifyIs(cfg: Config, u: State, key: string, now: int, d: Detection, event: bool, c: State, t: State)
    requires key in u.runtimes && t == Identify(cfg, u, key, now, d, event)
    requires c == Store(u, key, ProbeCounted(u.runtimes[key], now))
    ensures !ProbeDue(cfg, u.runtimes[key], now, d, event) ==> t == u
    ensures ProbeDue(cfg, u.runtimes[key], now, d, event) ==>
      t == if d.lock == None then c else LockIdentity(cfg, c, key, now, d.lock.value, ProbeMayContinue(cfg, d))
  {
  }

  lemma IdentifyShows(cfg: Config, u: State, key: string, now: int, d: Detection, event: bool, t: State)
    returns (gone: Option<string>)
    requires Sound(cfg, now, u) && key in u.runtimes && t == Identify(cfg, u, key, now, d, event)
    ensures TakesBest(cfg, u, key, u.runtimes[key], now, d, event, gone)
    ensures OnlyTouches(u, t, key, gone) && key in t.runtimes
    ensures Identified(cfg, u.runtimes[key], t.runtimes[key], now, d, event)
    ensures forall raw :: raw in u.active && u.active[raw] == key ==> raw in t.active && t.active[raw] == key
  {
    var c := Store(u, key, ProbeCounted(u.runtimes[key], now));
    IdentifyIs(cfg, u, key, now, d, event, c, t);
    gone := None;
    if !ProbeDue(cfg, u.runtimes[key], now, d, event) {
      TouchesNothing(u, key);
    } else {
      ProbeShows(cfg, u, key, now, c);
      if d.lock.Some? { gone := LockedShows(cfg, u, c, key, now, d, t); }
    }
  }

  lemma TouchesNothing(s: State, key: string)
    requires key in s.runtimes
    ensures OnlyTouches(s, s, key, None)
  {
  }

  lemma LockedShows(cfg: Config, u: State, c: State, key: string, now: int, d: Detection, t: State)
    returns (gone: Option<string>)
    requires Sound(cfg, now, c) && key in c.runtimes && c.runtimes[key].employee == None && d.lock.Some?
    requires OnlyTouches(u, c, key, None) && c.order == u.order && c.active == u.active
    requires t == LockIdentity(cfg, c, key, now, d.lock.value, ProbeMayContinue(cfg, d))
    ensures var may := cfg.enableExit && d.zone == Inside && d.nearDoor;
      if may && exists k :: FitsBest(cfg, u, key, k, d.lock.value, now)
      then gone.Some? && FitsBest(cfg, u, key, gone.value, d.lock.value, now) else gone == None
    ensures OnlyTouches(u, t, key, gone) && key in t.runtimes && t.runtimes[key] == Named(c.runtimes[key], d.lock.value)
    ensures forall raw :: raw in u.active && u.active[raw] == key ==> raw in t.active && t.active[raw] == key
  {
    gone := LockShows(cfg, c, key, now, d.lock.value, ProbeMayContinue(cfg, d), t);
    TouchedFits(cfg, u, c, key, d.lock.value, now);
    if d.lock.value.confidence == None { forall k ensures !FitsBest(cfg, u, key, k, d.lock.value, now) {} }
    TouchesThen(u, c, t, key, gone);
  }

  lemma AdmitShows(s: State, raw: int, a: State, key: string)
    requires Ordered(s) && KeysOk(s) && a == Admit(s, raw) && key == KeyOf(s, raw)
    ensures a.merged == s.merged && a.used == s.used && a.table == s.table && a.buffer == s.buffer
    ensures key in a.runtimes && a.runtimes[key] == Earlier(s, key) && raw in a.active && a.active[raw] == key
    ensures a.runtimes.Keys == s.runtimes.Keys + {key}
    ensures forall k :: k in s.runtimes && k != key ==> a.runtimes[k] == s.runtimes[k]
    ensures forall x, y :: x != key && y != key ==> (Precedes(s.order, x, y) <==> Precedes(a.order, x, y))
  {
    forall x, y | x != key && y != key ensures Precedes(s.order, x, y) <==> Precedes(a.order, x, y) {
      PrecedesAppend(s.order, key, x, y);
    }
  }

  /** The state once the sighting has gone through the door logic. */
  lemma SightShows(cfg: Config, s: State, now: int, d: Detection, key: string, a: State, u: State)
    requires Sound(cfg, now, s) && Observable(cfg.engine, ObservationOf(now, d)) && key == KeyOf(s, d.raw)
    requires a == Admit(s, d.raw) && key in a.runtimes && u == DoorLogic(cfg, a, key, ObservationOf(now, d))
    ensures key in u.runtimes && OnlyTouches(s, u, key, None)
    ensures d.raw in u.active && u.active[d.raw] == key
    ensures SameIdentity(Earlier(s, key), u.runtimes[key])
    ensures forall x, y :: x != key && y != key ==> (Precedes(s.order, x, y) <==> Precedes(u.order, x, y))
  {
    var o := ObservationOf(now, d);
    AdmitShows(s, d.raw, a, key);
    AdmittedIsSightable(cfg, s, now, d.raw);
    DoorLogicShows(cfg, a, key, o, u);
    DoorLogicKeeps(cfg, a, key, now, o);
    SameRows(a, u, key);
    TouchesSighted(s, a, u, key);
  }

  lemma TouchesSighted(s: State, a: State, u: State, key: string)
    requires a.merged == s.merged && a.used == s.used && a.table == s.table && a.buffer == s.buffer
    requires a.runtimes.Keys == s.runtimes.Keys + {key}
    requires forall k :: k in s.runtimes && k != key ==> a.runtimes[k] == s.runtimes[k]
    requires u.merged == a.merged && u.used == a.used && u.runtimes.Keys == a.runtimes.Keys
    requires forall k :: k in a.runtimes && k != key ==> u.runtimes[k] == a.runtimes[k]
    requires forall k :: k != key ==> RowsOf(u.table + u.buffer, k) == RowsOf(a.table + a.buffer, k)
    ensures OnlyTouches(s, u, key, None)
  {
    assert forall k :: k in u.runtimes <==> k in u.runtimes.Keys;
  }

  lemma EventAtSight(cfg: Config, s: State, now: int, d: Detection, key: string)
    requires Sound(cfg, now, s) && key == KeyOf(s, d.raw) && key in Admit(s, d.raw).runtimes
    ensures var log, o := LogOf(s, key), ObservationOf(now, d);
      Observe(cfg.engine, Admit(s, d.raw).runtimes[key].door, o).1.Some? <==>
      |Emitted(cfg.engine, log + [o])| > |Emitted(cfg.engine, log)|
  {
    var log, o := LogOf(s, key), ObservationOf(now, d);
    RunStep(cfg.engine, log, o);
    AdmittedIsSightable(cfg, s, now, d.raw);
    AdmitAdds(s, d.raw, now, Admit(s, d.raw));
    DoorOfLog(cfg, now, ViewOf(Admit(s, d.raw), key));
  }

  lemma DoorOfLog(cfg: Config, now: int, v: View)
    requires Sightable(cfg, now, v)
    ensures v.rt.value.door == StateAfter(cfg.engine, v.log)
  {
  }

  lemma DetectShows(cfg: Config, s: State, now: int, d: Detection, t: State) returns (key: string, gone: Option<string>)
    requires Sound(cfg, now, s) && Observable(cfg.engine, ObservationOf(now, d)) && t == Detect(cfg, s, now, d)
    ensures key == KeyOf(s, d.raw) && key in t.runtimes && d.raw in t.active && t.active[d.raw] == key
    ensures LogOf(t, key) == LogOf(s, key) + [ObservationOf(now, d)]
    ensures var event := |Emitted(cfg.engine, LogOf(t, key))| > |Emitted(cfg.engine, LogOf(s, key))|;
      && TakesBest(cfg, s, key, Earlier(s, key), now, d, event, gone)
      && OnlyTouches(s, t, key, gone) && Identified(cfg, Earlier(s, key), t.runtimes[key], now, d, event)
  {
    key := KeyOf(s, d.raw);
    var a, o := Admit(s, d.raw), ObservationOf(now, d);
    AdmitAdds(s, d.raw, now, a);
    var event, u := Observe(cfg.engine, a.runtimes[key].door, o).1.Some?, DoorLogic(cfg, a, key, o);
    SightShows(cfg, s, now, d, key, a, u);
    SightingIsSound(cfg, s, now, d);
    EventAtSight(cfg, s, now, d, key);
    gone := IdentifyShows(cfg, u, key, now, d, event, t);
    DetectAdds(cfg, s, now, d, key, a, t);
    assert LogOf(t, key) == LogOf(s, key) + [o];
    TouchesThen(s, u, t, key, gone);
    SeenAsBefore(cfg, s, u, key, now, d, event, gone, t.runtimes[key]);
  }

  /** The door logic changes nothing that the identity part looks at. */
  lemma SeenAsBefore(cfg: Config, s: State, u: State, key: string, now: int, d: Detection, event: bool,
                     gone: Option<string>, after: Runtime)
    requires OnlyTouches(s, u, key, None) && key in u.runtimes
    requires SameIdentity(Earlier(s, key), u.runtimes[key])
    requires forall x, y :: x != key && y != key ==> (Precedes(s.order, x, y) <==> Precedes(u.order, x, y))
    requires TakesBest(cfg, u, key, u.runtimes[key], now, d, event, gone)
    requires Identified(cfg, u.runtimes[key], after, now, d, event)
    ensures TakesBest(cfg, s, key, Earlier(s, key), now, d, event, gone)
    ensures Identified(cfg, Earlier(s, key), after, now, d, event)
  {
    if d.lock.Some? { SameFits(cfg, s, u, key, d.lock.value, now); }
  }

  lemma WithinNext(cfg: Config, frames: seq<Frame>, j: nat)
    requires LegalFrames(cfg, frames) && frames != [] && j < |frames[|frames| - 1].detections|
    ensures var f := frames[|frames| - 1]; var d := f.detections[j];
      && Sound(cfg, f.ts, WithinLast(cfg, frames, j)) && Observable(cfg.engine, ObservationOf(f.ts, d))
      && WithinLast(cfg, frames, j + 1) == Detect(cfg, WithinLast(cfg, frames, j), f.ts, d)
  {
    var f := frames[|frames| - 1];
    assert f.detections[..j + 1][..j] == f.detections[..j];
    WithinIsSound(cfg, frames, j);
  }

  /** Every detection of every run, after any frames and any detections before it in its own
      frame. The detected track gets the identity of a due probe and keeps what it had
      otherwise. A held track ends without an exit exactly when this detection locks, inside and
      near the door, an employee for whom it is held and whom the lock names with enough
      confidence within the grace; with the uniqueness guard it has to be the only such track,
      and without it the one held last is taken. Every other track stays as it was. */
  lemma EveryDetectionShows(cfg: Config, frames: seq<Frame>, j: nat) returns (key: string, gone: Option<string>)
    requires LegalFrames(cfg, frames) && frames != [] && j < |frames[|frames| - 1].detections|
    ensures var f := frames[|frames| - 1]; var d := f.detections[j];
      var s, t := WithinLast(cfg, frames, j), WithinLast(cfg, frames, j + 1);
      && key in t.runtimes && d.raw in t.active && t.active[d.raw] == key
      && LogOf(t, key) == LogOf(s, key) + [Observation(f.ts, d.zone, d.side, d.inGate)]
      && var event := |Emitted(cfg.engine, LogOf(t, key))| > |Emitted(cfg.engine, LogOf(s, key))|;
      && TakesBest(cfg, s, key, Earlier(s, key), f.ts, d, event, gone)
      && OnlyTouches(s, t, key, gone) && Identified(cfg, Earlier(s, key), t.runtimes[key], f.ts, d, event)
  {
    var f := frames[|frames| - 1];
    WithinNext(cfg, frames, j);
    key, gone := DetectShows(cfg, WithinLast(cfg, frames, j), f.ts, f.detections[j], WithinLast(cfg, frames, j + 1));
  }

  // ---------------------------------------------------------------- whole runs

  lemma {:induction false} ConcludeAllKeepsMerged(cfg: Config, s: State, keys: seq<string>, now: int)
    ensures ConcludeAll(cfg, s, keys, now).merged == s.merged
    decreases keys
  {
    if keys == [] {
    } else {
      if keys[0] in s.runtimes { SettleKeepsHistory(cfg, s, keys[0], now); }
      ConcludeAllKeepsMerged(cfg, if keys[0] in s.runtimes then Conclude(cfg, s, keys[0], now) else s, keys[1..], now);
    }
  }

  /** No merge happens at the end of a frame. */
  lemma FrameEndKeepsMerged(cfg: Config, frames: seq<Frame>)
    requires frames != []
    ensures RunFrames(cfg, frames).merged == WithinLast(cfg, frames, |frames[|frames| - 1].detections|).merged
  {
    var f := frames[|frames| - 1];
    var s, d := RunFrames(cfg, frames[..|frames| - 1]), WithinLast(cfg, frames, |f.detections|);
    assert f.detections[..|f.detections|] == f.detections;
    var gone := Missing(cfg, d, d.order, SeenKeys(cfg, s, f.ts, f.detections), f.ts);
    ExpireAllKeepsHistory(cfg, d, gone, f.ts);
    var u := ExpireAll(cfg, d, gone, f.ts);
    assert Checkpoint(u).merged == u.merged;
  }

  /** The detection at which the key was merged away. */
  ghost predicate MergedAt(cfg: Config, frames: seq<Frame>, j: nat, key: string, k: string)
    requires frames != [] && j < |frames[|frames| - 1].detections|
  {
    var f := frames[|frames| - 1];
    var d, s := f.detections[j], WithinLast(cfg, frames, j);
    && k !in s.merged && k in WithinLast(cfg, frames, j + 1).merged
    && cfg.enableExit && cfg.faceEnabled && d.zone == Inside && d.nearDoor && d.lock.Some?
    && FitsBest(cfg, s, key, k, d.lock.value, f.ts)
  }

  lemma {:induction false} MergedWithin(cfg: Config, frames: seq<Frame>, n: nat, k: string)
    returns (j: nat, key: string)
    requires LegalFrames(cfg, frames) && frames != [] && n <= |frames[|frames| - 1].detections|
    requires k !in WithinLast(cfg, frames, 0).merged && k in WithinLast(cfg, frames, n).merged
    ensures j < n && MergedAt(cfg, frames, j, key, k)
  {
    if k in WithinLast(cfg, frames, n - 1).merged {
      j, key := MergedWithin(cfg, frames, n - 1, k);
    } else {
      var gone;
      j := n - 1;
      key, gone := EveryDetectionShows(cfg, frames, j);
    }
  }

  /** Over every run: each key that was ended by an identity merge was so at one detection, by a
      lock of the employee for whom it was held, as the rule says. */
  lemma {:induction false} EveryMergeHasALock(cfg: Config, frames: seq<Frame>, k: string)
    returns (prefix: seq<Frame>, j: nat, key: string)
    requires LegalFrames(cfg, frames) && k in RunFrames(cfg, frames).merged
    ensures prefix != [] && prefix <= frames
    ensures j < |prefix[|prefix| - 1].detections| && MergedAt(cfg, prefix, j, key, k)
  {
    LegalFront(cfg, frames, k);
    var front := frames[..|frames| - 1];
    if k in RunFrames(cfg, front).merged {
      prefix, j, key := EveryMergeHasALock(cfg, front, k);
      PrefixLonger(prefix, front, frames);
    } else {
      prefix := frames;
      j, key := MergedInLast(cfg, frames, k);
    }
  }

  lemma LegalFront(cfg: Config, frames: seq<Frame>, k: string)
    requires LegalFrames(cfg, frames) && k in RunFrames(cfg, frames).merged
    ensures frames != [] && LegalFrames(cfg, frames[..|frames| - 1])
  {
    assert frames != [] by {
      assert RunFrames(cfg, []).merged == {};
    }
    DecodedFront(cfg, frames, false);
  }

  lemma PrefixLonger(a: seq<Frame>, b: seq<Frame>, c: seq<Frame>)
    requires a <= b && b <= c
    ensures a <= c
  {
    assert a == b[..|a|] == c[..|b|][..|a|] == c[..|a|];
  }

  lemma MergedInLast(cfg: Config, frames: seq<Frame>, k: string) returns (j: nat, key: string)
    requires LegalFrames(cfg, frames) && k in RunFrames(cfg, frames).merged
    requires frames != [] && k !in RunFrames(cfg, frames[..|frames| - 1]).merged
    ensures j < |frames[|frames| - 1].detections| && MergedAt(cfg, frames, j, key, k)
  {
    assert frames[|frames| - 1].detections[..0] == [];
    FrameEndKeepsMerged(cfg, frames);
    j, key := MergedWithin(cfg, frames, |frames[|frames| - 1].detections|, k);
  }

  /** And nothing is merged at the end of the video. */
  lemma VideoEndMergesNothing(cfg: Config, frames: seq<Frame>, end: int)
    ensures RunToEnd(cfg, frames, end).merged == RunFrames(cfg, frames).merged
  {
    var s := RunFrames(cfg, frames);
    ConcludeAllKeepsMerged(cfg, s, s.order, end);
  }
}
