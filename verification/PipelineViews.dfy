/** What the pipeline's state says about one track key, and how each step
    changes that: a step on one key leaves every other key's view alone. */
module PipelineViews {
  import opened Wrappers
  import opened StableSort
  import opened DoorEngine
  import opened Reliability
  import opened TrackKeys
  import opened PipelineSpec

  function RowsOf(rows: seq<EventRow>, key: string): (r: seq<EventRow>) {
    if rows == [] then []
    else RowsOf(rows[..|rows| - 1], key) + if rows[|rows| - 1].key == key then [rows[|rows| - 1]] else []
  }

  function TracksOf(rows: seq<TrackRow>, key: string): (r: seq<TrackRow>) {
    if rows == [] then []
    else TracksOf(rows[..|rows| - 1], key) + if rows[|rows| - 1].key == key then [rows[|rows| - 1]] else []
  }

  function LossesOf(ls: seq<Loss>, key: string): (r: seq<Loss>) {
    if ls == [] then []
    else LossesOf(ls[..|ls| - 1], key) + if ls[|ls| - 1].key == key then [ls[|ls| - 1]] else []
  }

  /** Everything the state holds about one key. */
  datatype View = View(
    rt: Option<Runtime>,
    retired: bool,
    merged: bool,
    rows: seq<EventRow>,
    tracks: seq<TrackRow>,
    log: seq<Observation>,
    lost: seq<Loss>)

  function ViewOf(s: State, key: string): (r: View) {
    View(if key in s.runtimes then Some(s.runtimes[key]) else None,
         key in s.used, key in s.merged,
         RowsOf(s.table + s.buffer, key), TracksOf(s.tracks, key), LogOf(s, key), LossesOf(s.lost, key))
  }

  ghost predicate OnlyKey(s: State, t: State, key: string) {
    forall j :: j != key ==> ViewOf(t, j) == ViewOf(s, j)
  }

  lemma OnlyKeyTrans(s: State, t: State, u: State, key: string)
    requires OnlyKey(s, t, key) && OnlyKey(t, u, key)
    ensures OnlyKey(s, u, key)
  {
  }

  // ------------------------------------------------------------ projections

  lemma {:induction false} RowsConcat(a: seq<EventRow>, b: seq<EventRow>, key: string)
    ensures RowsOf(a + b, key) == RowsOf(a, key) + RowsOf(b, key)
  {
    if b == [] {
      assert a + b == a;
    } else {
      assert (a + b)[..|a + b| - 1] == a + b[..|b| - 1];
      RowsConcat(a, b[..|b| - 1], key);
    }
  }

  lemma {:induction false} RowsAllOf(rows: seq<EventRow>, key: string, j: string)
    requires forall i :: 0 <= i < |rows| ==> rows[i].key == key
    ensures RowsOf(rows, j) == if j == key then rows else []
  {
    if rows == [] {
    } else {
      RowsAllOf(rows[..|rows| - 1], key, j);
      assert rows == rows[..|rows| - 1] + [rows[|rows| - 1]];
    }
  }

  lemma {:induction false} LossesConcat(a: seq<Loss>, b: seq<Loss>, key: string)
    ensures LossesOf(a + b, key) == LossesOf(a, key) + LossesOf(b, key)
  {
    if b == [] {
      assert a + b == a;
    } else {
      assert (a + b)[..|a + b| - 1] == a + b[..|b| - 1];
      LossesConcat(a, b[..|b| - 1], key);
    }
  }

  lemma {:induction false} LossesAllOf(ls: seq<Loss>, key: string, j: string)
    requires forall i :: 0 <= i < |ls| ==> ls[i].key == key
    ensures LossesOf(ls, j) == if j == key then ls else []
  {
    if ls == [] {
    } else {
      LossesAllOf(ls[..|ls| - 1], key, j);
      assert ls == ls[..|ls| - 1] + [ls[|ls| - 1]];
    }
  }

  lemma {:induction false} PendingRowsAre(key: string, employee: Option<Employee>, pes: seq<Pending>)
    ensures |PendingRows(key, employee, pes)| == |pes|
    ensures forall i :: 0 <= i < |pes| ==> PendingRows(key, employee, pes)[i] == PendingRow(key, employee, pes[i])
  {
    if pes == [] {
    } else {
      PendingRowsAre(key, employee, pes[..|pes| - 1]);
    }
  }

  lemma {:induction false} EndLossesAre(key: string, pes: seq<Pending>)
    ensures forall i :: 0 <= i < |EndLosses(key, pes)| ==> EndLosses(key, pes)[i].key == key
  {
    if pes == [] {
    } else {
      EndLossesAre(key, pes[..|pes| - 1]);
    }
  }

  lemma {:induction false} LossesAre(key: string, pes: seq<Pending>, why: LossReason)
    ensures |Losses(key, pes, why)| == |pes|
    ensures forall i :: 0 <= i < |pes| ==> Losses(key, pes, why)[i] == Loss(key, pes[i], why)
  {
    if pes == [] {
    } else {
      LossesAre(key, pes[..|pes| - 1], why);
    }
  }

  // ------------------------------------------------------------ single steps

  lemma StoreView(s: State, key: string, rt: Runtime)
    ensures ViewOf(Store(s, key, rt), key) == ViewOf(s, key).(rt := Some(rt)) && OnlyKey(s, Store(s, key, rt), key)
  {
  }

  lemma AddEventsView(s: State, key: string, rows: seq<EventRow>)
    requires forall i :: 0 <= i < |rows| ==> rows[i].key == key
    ensures ViewOf(AddEvents(s, rows), key) == ViewOf(s, key).(rows := ViewOf(s, key).rows + rows)
    ensures OnlyKey(s, AddEvents(s, rows), key)
  {
    assert s.table + (s.buffer + rows) == (s.table + s.buffer) + rows;
    forall j ensures RowsOf(s.table + (s.buffer + rows), j) ==
                     RowsOf(s.table + s.buffer, j) + if j == key then rows else []
    {
      RowsConcat(s.table + s.buffer, rows, j);
      RowsAllOf(rows, key, j);
    }
  }

  lemma CommitPendingView(s: State, key: string, employee: Option<Employee>, pes: seq<Pending>)
    ensures var t := CommitPending(s, key, employee, pes);
      && ViewOf(t, key) == ViewOf(s, key).(rows := ViewOf(s, key).rows + PendingRows(key, employee, pes))
      && OnlyKey(s, t, key)
  {
    PendingRowsAre(key, employee, pes);
    AddEventsView(s, key, PendingRows(key, employee, pes));
    var a, t := AddEvents(s, PendingRows(key, employee, pes)), CommitPending(s, key, employee, pes);
    assert forall j :: ViewOf(t, j) == ViewOf(a, j);
  }

  /** Flushing moves rows from the session to the table, and changes no view. */
  lemma FlushView(s: State)
    ensures forall j :: ViewOf(Flush(s), j) == ViewOf(s, j)
  {
    assert (s.table + s.buffer) + [] == s.table + s.buffer;
  }

  lemma {:induction false} ClaimedRows(rows: seq<EventRow>, key: string, e: Employee, j: string)
    ensures RowsOf(Claimed(rows, key, e), j) == if j == key then Claimed(RowsOf(rows, j), key, e) else RowsOf(rows, j)
  {
    if rows == [] {
    } else {
      ClaimedRows(rows[1..], key, e, j);
      var c, h := Claim(rows[0], key, e), rows[0];
      RowsConcat([h], rows[1..], j);
      RowsConcat([c], Claimed(rows[1..], key, e), j);
      assert [h] + rows[1..] == rows;
      RowsAllOf([h], h.key, j);
      RowsAllOf([c], h.key, j);
      if j == key && h.key == key {
        assert ([h] + RowsOf(rows[1..], j))[1..] == RowsOf(rows[1..], j);
      } else {
        assert [] + RowsOf(rows[1..], j) == RowsOf(rows[1..], j);
      }
    }
  }

  /** With nothing left unflushed, the back-fill reaches every row of the key, and only those. */
  lemma BackfillView(s: State, key: string, e: Employee)
    requires s.buffer == []
    ensures ViewOf(Backfill(s, key, e), key) == ViewOf(s, key).(rows := Claimed(ViewOf(s, key).rows, key, e))
    ensures OnlyKey(s, Backfill(s, key, e), key)
  {
    assert s.table + [] == s.table;
    var t := Backfill(s, key, e);
    assert t.table + [] == t.table;
    forall j
      ensures RowsOf(t.table, j) == if j == key then Claimed(RowsOf(s.table, j), key, e) else RowsOf(s.table, j)
    {
      ClaimedRows(s.table, key, e, j);
    }
  }

  lemma {:induction false} RemoveElems(keys: seq<string>, key: string)
    ensures forall k :: k in Remove(keys, key) <==> k in keys && k != key
    ensures NoDup(keys) ==> NoDup(Remove(keys, key))
    ensures key !in keys ==> Remove(keys, key) == keys
  {
    if keys == [] {
    } else {
      RemoveElems(keys[1..], key);
      if NoDup(keys) {
        assert keys[0] !in keys[1..];
        var r := Remove(keys[1..], key);
        assert keys[0] !in r;
      }
    }
  }

  function TrackRowOf(key: string, rt: Runtime, now: int): (r: TrackRow) {
    TrackRow(key, rt.firstTs.GetOr(rt.lastTs.GetOr(now)), rt.lastTs.GetOr(now),
             rt.employee, rt.confidence, rt.firstZone, rt.lastZone)
  }

  lemma RetireView(s: State, key: string, now: int)
    requires key in s.runtimes
    ensures var v := ViewOf(s, key);
      ViewOf(Retire(s, key, now), key) ==
        v.(rt := None, retired := true, tracks := v.tracks + [TrackRowOf(key, s.runtimes[key], now)])
    ensures OnlyKey(s, Retire(s, key, now), key)
  {
    var row, t := TrackRowOf(key, s.runtimes[key], now), Retire(s, key, now);
    assert t.tracks == s.tracks + [row];
    assert (s.tracks + [row])[..|s.tracks + [row]| - 1] == s.tracks;
    forall j | j != key ensures ViewOf(t, j) == ViewOf(s, j) {
      assert TracksOf(t.tracks, j) == TracksOf(s.tracks, j);
    }
  }

  lemma AddLossesView(s: State, key: string, ls: seq<Loss>)
    requires forall i :: 0 <= i < |ls| ==> ls[i].key == key
    ensures ViewOf(AddLosses(s, ls), key) == ViewOf(s, key).(lost := ViewOf(s, key).lost + ls)
    ensures OnlyKey(s, AddLosses(s, ls), key)
  {
    forall j ensures LossesOf(s.lost + ls, j) == LossesOf(s.lost, j) + if j == key then ls else [] {
      LossesConcat(s.lost, ls, j);
      LossesAllOf(ls, key, j);
    }
  }

  lemma CountView(s: State, c: Counts)
    ensures forall j :: ViewOf(Count(s, c), j) == ViewOf(s, j)
  {
  }

  // ------------------------------------------------------ steps of detection

  lemma AdmitView(s: State, raw: int)
    ensures var key, t := KeyOf(s, raw), Admit(s, raw);
      && key in t.runtimes && OnlyKey(s, t, key)
      && ViewOf(t, key) == if key in s.runtimes then ViewOf(s, key) else ViewOf(s, key).(rt := Some(FRESH_RUNTIME))
  {
  }

  lemma SeeView(cfg: Config, s: State, key: string, o: Observation)
    requires key in s.runtimes
    ensures var v := ViewOf(s, key);
      ViewOf(See(cfg, s, key, o), key) == v.(rt := Some(Sighted(cfg, s.runtimes[key], o)), log := v.log + [o])
    ensures OnlyKey(s, See(cfg, s, key, o), key)
  {
  }

  lemma OfferView(cfg: Config, s: State, key: string, pe: Pending, now: int)
    requires key in s.runtimes
    ensures var v, t, rt := ViewOf(s, key), Offer(cfg, s, key, pe, now), s.runtimes[key];
      && OnlyKey(s, t, key)
      && ViewOf(t, key) ==
           if !cfg.enablePending || ShouldCommitEvent(pe.strength, Stable(cfg, rt, now))
           then v.(rows := v.rows + [PendingRow(key, rt.employee, pe)])
           else v.(rt := Some(rt.(pending := rt.pending + [pe])))
  {
    AddEventsView(s, key, [PendingRow(key, s.runtimes[key].employee, pe)]);
  }

  /** A commit of `pes` and the clearing of the pending list. */
  lemma CommitAndClearView(s: State, key: string, pes: seq<Pending>)
    requires key in s.runtimes
    ensures var v, rt := ViewOf(s, key), s.runtimes[key];
      var t := CommitAndClear(s, key, pes);
      && OnlyKey(s, t, key)
      && ViewOf(t, key) == v.(rt := Some(rt.(pending := [])), rows := v.rows + PendingRows(key, rt.employee, pes))
  {
    var rt := s.runtimes[key];
    CommitPendingView(s, key, rt.employee, pes);
    StoreView(CommitPending(s, key, rt.employee, pes), key, rt.(pending := []));
  }

  lemma FlushIfReadyView(cfg: Config, s: State, key: string, now: int)
    requires key in s.runtimes
    ensures var v, t, rt := ViewOf(s, key), FlushIfReady(cfg, s, key, now), s.runtimes[key];
      && OnlyKey(s, t, key)
      && ViewOf(t, key) ==
           if !cfg.enablePending || rt.pending == [] || !Stable(cfg, rt, now) then v
           else v.(rt := Some(rt.(pending := [])),
                   rows := v.rows + PendingRows(key, rt.employee, Sort(EarlierPending, rt.pending)))
  {
    CommitAndClearView(s, key, Sort(EarlierPending, s.runtimes[key].pending));
  }

  lemma MergeAwayView(s: State, key: string, now: int)
    requires key in s.runtimes
    ensures var v, t, rt := ViewOf(s, key), MergeAway(s, key, now), s.runtimes[key];
      && OnlyKey(s, t, key)
      && ViewOf(t, key) == v.(rt := None, retired := true, merged := true,
                              tracks := v.tracks + [TrackRowOf(key, rt, now)],
                              lost := v.lost + Losses(key, rt.pending, MergedAway))
  {
    var c := MergeNoted(s, key);
    MergeNotedView(s, key);
    RetireView(c, key, now);
    OnlyKeyTrans(s, c, MergeAway(s, key, now), key);
  }

  function MergeNoted(s: State, key: string): (r: State)
    requires key in s.runtimes
  {
    Count(MarkMerged(AddLosses(s, Losses(key, s.runtimes[key].pending, MergedAway)), key),
          s.counts.(canceled := s.counts.canceled + 1))
  }

  lemma MergeNotedView(s: State, key: string)
    requires key in s.runtimes
    ensures var v, t := ViewOf(s, key), MergeNoted(s, key);
      && OnlyKey(s, t, key)
      && ViewOf(t, key) == v.(merged := true, lost := v.lost + Losses(key, s.runtimes[key].pending, MergedAway))
  {
    var ls := Losses(key, s.runtimes[key].pending, MergedAway);
    LossesAre(key, s.runtimes[key].pending, MergedAway);
    AddLossesView(s, key, ls);
    var a := AddLosses(s, ls);
    var m := MarkMerged(a, key);
    MarkMergedView(a, key);
    OnlyKeyTrans(s, a, m, key);
    CountView(m, s.counts.(canceled := s.counts.canceled + 1));
    OnlyKeyTrans(s, m, MergeNoted(s, key), key);
  }

  lemma MarkMergedView(s: State, key: string)
    ensures ViewOf(MarkMerged(s, key), key) == ViewOf(s, key).(merged := true) && OnlyKey(s, MarkMerged(s, key), key)
  {
  }

  // ---------------------------------------------------- steps of a track end

  lemma SettlePendingView(cfg: Config, s: State, key: string, now: int)
    requires key in s.runtimes
    ensures var v, t, rt := ViewOf(s, key), SettlePending(cfg, s, key, now), s.runtimes[key];
      && OnlyKey(s, t, key)
      && ViewOf(t, key) ==
           if !cfg.enablePending || rt.pending == [] then v
           else if Stable(cfg, rt, rt.lastTs.GetOr(now)) then
             v.(rt := Some(rt.(pending := [])),
                rows := v.rows + PendingRows(key, rt.employee, Sort(EarlierPending, rt.pending)))
           else
             v.(rt := Some(rt.(pending := [])),
                rows := v.rows + PendingRows(key, rt.employee, Strongs(rt.pending)),
                lost := v.lost + EndLosses(key, rt.pending))
  {
    CommitAndClearView(s, key, Sort(EarlierPending, s.runtimes[key].pending));
    SettleUnstableView(s, key);
  }

  lemma SettleUnstableView(s: State, key: string)
    requires key in s.runtimes
    ensures var v, rt, t := ViewOf(s, key), s.runtimes[key], SettleUnstable(s, key);
      && OnlyKey(s, t, key)
      && ViewOf(t, key) == v.(rt := Some(rt.(pending := [])),
                              rows := v.rows + PendingRows(key, rt.employee, Strongs(rt.pending)),
                              lost := v.lost + EndLosses(key, rt.pending))
  {
    var pes := s.runtimes[key].pending;
    var c := CommitAndClear(s, key, Strongs(pes));
    var d := Count(c, c.counts.(dropped := s.counts.dropped + DropCount(pes)));
    CommitAndClearView(s, key, Strongs(pes));
    EndLossesAre(key, pes);
    CountView(c, d.counts);
    OnlyKeyTrans(s, c, d, key);
    SettleUnstableLosses(s, d, key, EndLosses(key, pes), ViewOf(d, key));
  }

  lemma SettleUnstableLosses(s: State, d: State, key: string, ls: seq<Loss>, v: View)
    requires OnlyKey(s, d, key) && v == ViewOf(d, key)
    requires forall i :: 0 <= i < |ls| ==> ls[i].key == key
    ensures OnlyKey(s, AddLosses(d, ls), key) && ViewOf(AddLosses(d, ls), key) == v.(lost := v.lost + ls)
  {
    AddLossesView(d, key, ls);
    OnlyKeyTrans(s, d, AddLosses(d, ls), key);
  }

  /** An end-of-track event row and the retirement of the track. */
  lemma EndNowView(s: State, key: string, end: Option<DoorEvent>, now: int)
    requires key in s.runtimes
    ensures var v, t, rt := ViewOf(s, key), EndNow(s, key, end, now), s.runtimes[key];
      && OnlyKey(s, t, key)
      && ViewOf(t, key) == v.(rt := None, retired := true,
                              tracks := v.tracks + [TrackRowOf(key, rt, now)],
                              rows := v.rows + if end.Some? then [EndRow(key, rt, end.value)] else [])
  {
    var v, rt := ViewOf(s, key), s.runtimes[key];
    assert v.rows + [] == v.rows;
    if end.Some? {
      AddEventsView(s, key, [EndRow(key, rt, end.value)]);
      RetireView(AddEvents(s, [EndRow(key, rt, end.value)]), key, now);
    } else {
      RetireView(s, key, now);
    }
  }

  lemma ReleaseHeldView(cfg: Config, s: State, key: string, hold: Hold, now: int, mark: Mark)
    requires key in s.runtimes
    ensures var p, t := SettlePending(cfg, s, key, now), ReleaseHeld(cfg, s, key, hold, now, mark);
      var v, rt := ViewOf(p, key), p.runtimes[key];
      && OnlyKey(s, t, key)
      && ViewOf(t, key) == v.(rt := None, retired := true,
                              tracks := v.tracks + [TrackRowOf(key, rt, now)],
                              rows := v.rows + [HeldExitRow(key, rt, hold, now, mark)])
  {
    SettlePendingView(cfg, s, key, now);
    var p := SettlePending(cfg, s, key, now);
    HeldExitView(p, key, hold, now, mark);
    OnlyKeyTrans(s, p, ReleaseHeld(cfg, s, key, hold, now, mark), key);
  }

  function HeldExit(p: State, key: string, hold: Hold, now: int, mark: Mark): (r: State)
    requires key in p.runtimes
  {
    Count(AddEvents(p, [HeldExitRow(key, p.runtimes[key], hold, now, mark)]),
          p.counts.(expired := p.counts.expired + 1))
  }

  lemma HeldExitView(p: State, key: string, hold: Hold, now: int, mark: Mark)
    requires key in p.runtimes
    ensures var v, t, rt := ViewOf(p, key), Retire(HeldExit(p, key, hold, now, mark), key, now), p.runtimes[key];
      && OnlyKey(p, t, key)
      && ViewOf(t, key) == v.(rt := None, retired := true,
                              tracks := v.tracks + [TrackRowOf(key, rt, now)],
                              rows := v.rows + [HeldExitRow(key, rt, hold, now, mark)])
  {
    var row := HeldExitRow(key, p.runtimes[key], hold, now, mark);
    AddEventsView(p, key, [row]);
    var a, c := AddEvents(p, [row]), HeldExit(p, key, hold, now, mark);
    CountView(a, c.counts);
    OnlyKeyTrans(p, a, c, key);
    RetireView(c, key, now);
    OnlyKeyTrans(p, c, Retire(c, key, now), key);
  }
}
