/** The reliability counters: how many exits are held and events pending is
    always exactly what the counters leave over. */
module PipelineCounts {
  import opened Wrappers
  import opened StableSort
  import opened DoorEngine
  import opened Reliability
  import opened TrackKeys
  import opened PipelineSpec
  import opened PipelineViews

  ghost predicate IsHeld(rt: Runtime) {
    rt.hold.Some?
  }

  ghost function Held(m: map<string, Runtime>): (r: set<string>) {
    set k | k in m && IsHeld(m[k])
  }

  ghost function PendingTotal(m: map<string, Runtime>, keys: seq<string>): (r: nat) {
    if keys == [] then 0
    else PendingTotal(m, keys[1..]) + if keys[0] in m then |m[keys[0]].pending| else 0
  }

  /** `started = canceled + expired + held`. */
  ghost predicate ExitBalance(s: State) {
    s.counts.started == s.counts.canceled + s.counts.expired + |Held(s.runtimes)|
  }

  /** `enqueued = flushed + lost + pending`, and only drops are counted among the lost. */
  ghost predicate PendingBalance(s: State) {
    && s.counts.enqueued == s.counts.flushed + |s.lost| + PendingTotal(s.runtimes, s.order)
    && s.counts.dropped == Drops(s.lost)
  }

  ghost predicate Balances(s: State) {
    ExitBalance(s) && PendingBalance(s)
  }

  function Drops(ls: seq<Loss>): (r: nat) {
    if ls == [] then 0 else Drops(ls[..|ls| - 1]) + if ls[|ls| - 1].why == Dropped then 1 else 0
  }

  // ------------------------------------------------------------- arithmetic

  lemma {:induction false} DropsConcat(a: seq<Loss>, b: seq<Loss>)
    ensures Drops(a + b) == Drops(a) + Drops(b)
  {
    if b == [] {
      assert a + b == a;
    } else {
      assert (a + b)[..|a + b| - 1] == a + b[..|b| - 1];
      DropsConcat(a, b[..|b| - 1]);
    }
  }

  lemma {:induction false} LossesDrops(key: string, pes: seq<Pending>)
    ensures Drops(Losses(key, pes, MergedAway)) == 0
  {
    if pes == [] {
    } else {
      LossesDrops(key, pes[..|pes| - 1]);
    }
  }

  lemma {:induction false} EndLossesCount(key: string, pes: seq<Pending>)
    ensures |Strongs(pes)| + |EndLosses(key, pes)| == |pes|
    ensures Drops(EndLosses(key, pes)) == DropCount(pes)
  {
    if pes == [] {
    } else {
      var front, last := pes[..|pes| - 1], pes[|pes| - 1];
      EndLossesCount(key, front);
      var rest := if ShouldDropOnEnd(last) then [Loss(key, last, Dropped)]
                  else if last.strength == Strong then [] else [Loss(key, last, Discarded)];
      DropsConcat(EndLosses(key, front), rest);
      if rest != [] { assert rest[..0] == []; }
    }
  }

  lemma HeldUpdate(m: map<string, Runtime>, key: string, rt: Runtime)
    ensures |Held(m[key := rt])| ==
            |Held(m)| - (if key in m && IsHeld(m[key]) then 1 else 0) + (if IsHeld(rt) then 1 else 0)
  {
    var h := Held(m);
    if IsHeld(rt) {
      assert Held(m[key := rt]) == h + {key};
    } else {
      assert Held(m[key := rt]) == h - {key};
    }
  }

  lemma HeldRemove(m: map<string, Runtime>, key: string)
    requires key in m
    ensures |Held(m - {key})| == |Held(m)| - if IsHeld(m[key]) then 1 else 0
  {
    assert Held(m - {key}) == Held(m) - {key};
  }

  lemma {:induction false} TotalUpdate(m: map<string, Runtime>, keys: seq<string>, key: string, rt: Runtime)
    requires NoDup(keys)
    ensures key !in keys ==> PendingTotal(m[key := rt], keys) == PendingTotal(m, keys)
    ensures key in keys && key in m ==>
      PendingTotal(m[key := rt], keys) == PendingTotal(m, keys) - |m[key].pending| + |rt.pending|
  {
    if keys == [] {
    } else {
      TotalUpdate(m, keys[1..], key, rt);
      assert key in keys ==> key == keys[0] || key in keys[1..];
      assert key == keys[0] ==> key !in keys[1..];
    }
  }

  lemma {:induction false} TotalRemove(m: map<string, Runtime>, keys: seq<string>, key: string)
    requires NoDup(keys) && key in m
    ensures PendingTotal(m - {key}, Remove(keys, key)) ==
            PendingTotal(m, keys) - if key in keys then |m[key].pending| else 0
  {
    if keys == [] {
    } else {
      TotalRemove(m, keys[1..], key);
      var r := Remove(keys[1..], key);
      if keys[0] == key {
        assert key !in keys[1..];
      } else {
        assert ([keys[0]] + r)[1..] == r;
        assert key in keys <==> key in keys[1..];
      }
    }
  }

  lemma {:induction false} TotalAppend(m: map<string, Runtime>, keys: seq<string>, key: string, rt: Runtime)
    requires key !in keys && rt.pending == []
    ensures PendingTotal(m[key := rt], keys + [key]) == PendingTotal(m, keys)
  {
    if keys == [] {
      assert [key][1..] == [];
    } else {
      assert (keys + [key])[1..] == keys[1..] + [key];
      TotalAppend(m, keys[1..], key, rt);
    }
  }

  // ------------------------------------------------------- steps keep it

  /** `key` is live and listed once. */
  ghost predicate Listed(s: State, key: string) {
    NoDup(s.order) && key in s.order && key in s.runtimes
  }

  lemma AdmitBalances(s: State, raw: int)
    requires Balances(s) && (KeyOf(s, raw) in s.order <==> KeyOf(s, raw) in s.runtimes)
    ensures Balances(Admit(s, raw))
  {
    var key := KeyOf(s, raw);
    if key !in s.runtimes {
      HeldUpdate(s.runtimes, key, FRESH_RUNTIME);
      TotalAppend(s.runtimes, s.order, key, FRESH_RUNTIME);
    }
  }

  lemma SeeBalances(cfg: Config, s: State, key: string, o: Observation)
    requires Balances(s) && Listed(s, key) && (s.runtimes[key].hold.Some? ==> cfg.enableExit)
    ensures Balances(See(cfg, s, key, o))
  {
    var rt := Sighted(cfg, s.runtimes[key], o);
    SightedFields(cfg, s.runtimes[key], o);
    HeldUpdate(s.runtimes, key, rt);
    TotalUpdate(s.runtimes, s.order, key, rt);
  }

  lemma SightedFields(cfg: Config, rt: Runtime, o: Observation)
    ensures Sighted(cfg, rt, o).hold == (if cfg.enableExit then None else rt.hold)
    ensures Sighted(cfg, rt, o).pending == rt.pending
  {
  }

  lemma OfferBalances(cfg: Config, s: State, key: string, pe: Pending, now: int)
    requires Balances(s) && Listed(s, key)
    ensures Balances(Offer(cfg, s, key, pe, now))
  {
    var rt := s.runtimes[key];
    HeldUpdate(s.runtimes, key, rt.(pending := rt.pending + [pe]));
    TotalUpdate(s.runtimes, s.order, key, rt.(pending := rt.pending + [pe]));
  }

  /** Committing and losing exactly what is pending. */
  lemma ClearBalances(s: State, t: State, key: string, flushed: nat, lost: seq<Loss>)
    requires Balances(s) && Listed(s, key)
    requires t.runtimes == s.runtimes[key := s.runtimes[key].(pending := [])] && t.order == s.order
    requires t.lost == s.lost + lost && flushed + |lost| == |s.runtimes[key].pending|
    requires t.counts == s.counts.(flushed := s.counts.flushed + flushed, dropped := s.counts.dropped + Drops(lost))
    ensures Balances(t)
  {
    HeldUpdate(s.runtimes, key, s.runtimes[key].(pending := []));
    TotalUpdate(s.runtimes, s.order, key, s.runtimes[key].(pending := []));
    DropsConcat(s.lost, lost);
  }

  lemma FlushIfReadyBalances(cfg: Config, s: State, key: string, now: int)
    requires Balances(s) && Listed(s, key)
    ensures Balances(FlushIfReady(cfg, s, key, now))
  {
    var t := FlushIfReady(cfg, s, key, now);
    if t != s {
      SortMultiset(EarlierPending, s.runtimes[key].pending);
      assert s.lost + [] == s.lost;
      ClearBalances(s, t, key, |s.runtimes[key].pending|, []);
    }
  }

  lemma SettleBalances(cfg: Config, s: State, key: string, now: int)
    requires Balances(s) && Listed(s, key)
    ensures Balances(SettlePending(cfg, s, key, now))
  {
    var t, rt := SettlePending(cfg, s, key, now), s.runtimes[key];
    if cfg.enablePending && rt.pending != [] {
      if Stable(cfg, rt, rt.lastTs.GetOr(now)) {
        SortMultiset(EarlierPending, rt.pending);
        assert s.lost + [] == s.lost;
        ClearBalances(s, t, key, |rt.pending|, []);
      } else {
        EndLossesCount(key, rt.pending);
        ClearBalances(s, t, key, |Strongs(rt.pending)|, EndLosses(key, rt.pending));
      }
    }
  }

  /** Retiring a key that has nothing pending, `ends` holds being counted as ended. */
  lemma RetireBalances(s: State, t: State, key: string, now: int)
    requires Listed(s, key) && t == Retire(s, key, now)
    requires s.counts.started == s.counts.canceled + s.counts.expired + |Held(s.runtimes)|
                                 - if IsHeld(s.runtimes[key]) then 1 else 0
    requires s.counts.enqueued == s.counts.flushed + |s.lost| + PendingTotal(s.runtimes, s.order)
                                  - |s.runtimes[key].pending|
    requires s.counts.dropped == Drops(s.lost)
    ensures Balances(t)
  {
    HeldRemove(s.runtimes, key);
    TotalRemove(s.runtimes, s.order, key);
  }

  lemma MergeAwayBalances(s: State, key: string, now: int)
    requires Balances(s) && Listed(s, key) && IsHeld(s.runtimes[key])
    ensures Balances(MergeAway(s, key, now))
  {
    LossesDrops(key, s.runtimes[key].pending);
    LossesAre(key, s.runtimes[key].pending, MergedAway);
    DropsConcat(s.lost, Losses(key, s.runtimes[key].pending, MergedAway));
    RetireBalances(MergeNoted(s, key), MergeAway(s, key, now), key, now);
  }

  lemma EndNowBalances(s: State, key: string, end: Option<DoorEvent>, now: int)
    requires Balances(s) && Listed(s, key) && !IsHeld(s.runtimes[key]) && s.runtimes[key].pending == []
    ensures Balances(EndNow(s, key, end, now))
  {
    var a := if end.Some? then AddEvents(s, [EndRow(key, s.runtimes[key], end.value)]) else s;
    RetireBalances(a, EndNow(s, key, end, now), key, now);
  }

  lemma ReleaseHeldBalances(cfg: Config, s: State, key: string, hold: Hold, now: int, mark: Mark)
    requires Balances(s) && Listed(s, key) && IsHeld(s.runtimes[key])
    requires SettlePending(cfg, s, key, now).runtimes[key].pending == []
    ensures Balances(ReleaseHeld(cfg, s, key, hold, now, mark))
  {
    var p := SettlePending(cfg, s, key, now);
    SettleBalances(cfg, s, key, now);
    RetireBalances(HeldExit(p, key, hold, now, mark), ReleaseHeld(cfg, s, key, hold, now, mark), key, now);
  }

  lemma StartHoldBalances(s: State, key: string, end: DoorEvent, now: int)
    requires Balances(s) && Listed(s, key) && !IsHeld(s.runtimes[key])
    ensures Balances(StartHold(s, key, end, now))
  {
    var held := s.runtimes[key].(hold := Some(Hold(Some(now), Some(end.ts), Some(end.confidence), Some(end.reason))));
    HeldUpdate(s.runtimes, key, held);
    TotalUpdate(s.runtimes, s.order, key, held);
  }

  /** A change of a runtime that neither holds nor releases, and leaves its pending events. */
  lemma StoreBalances(s: State, key: string, rt: Runtime)
    requires Balances(s) && Listed(s, key)
    requires rt.hold.Some? == s.runtimes[key].hold.Some? && rt.pending == s.runtimes[key].pending
    ensures Balances(Store(s, key, rt))
  {
    HeldUpdate(s.runtimes, key, rt);
    TotalUpdate(s.runtimes, s.order, key, rt);
  }
}
