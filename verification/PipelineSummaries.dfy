/** What the summary row of a track says about its observations, over whole runs. */
module PipelineSummaries {
  import opened Wrappers
  import opened DoorEngine
  import opened Reliability
  import opened TrackKeys
  import opened PipelineSpec
  import opened PipelineViews
  import opened PipelineKeyInvariant
  import opened PipelineRuns
  import opened PipelineSpacing
  import opened PipelineTheorems
  import opened PipelineFates
  import opened PipelineIdentity
  import opened PipelineSightings

  /** The first zone that was known, or none. */
  ghost predicate IsFirstZone(log: seq<Observation>, zone: Zone) {
    if zone == Unknown then forall i :: 0 <= i < |log| ==> log[i].zone == Unknown
    else exists i :: 0 <= i < |log| && log[i].zone == zone && forall j :: 0 <= j < i ==> log[j].zone == Unknown
  }

  /** First and last sighting, and the zones there. */
  ghost predicate Tells(log: seq<Observation>, firstTs: int, lastTs: int, firstZone: Zone, lastZone: Zone) {
    && log != [] && firstTs == log[0].ts && lastTs == log[|log| - 1].ts
    && IsFirstZone(log, firstZone) && lastZone == log[|log| - 1].zone
  }

  ghost predicate RuntimeTells(log: seq<Observation>, rt: Runtime) {
    rt.firstTs.Some? && rt.lastTs.Some? && Tells(log, rt.firstTs.value, rt.lastTs.value, rt.firstZone, rt.lastZone)
  }

  ghost predicate RowTells(log: seq<Observation>, row: TrackRow) {
    Tells(log, row.firstTs, row.lastTs, row.firstZone, row.lastZone)
  }

  ghost predicate ViewTells(v: View) {
    && (v.rt.Some? ==> RuntimeTells(v.log, v.rt.value))
    && (forall row :: row in v.tracks ==> RowTells(v.log, row))
  }

  ghost predicate AllTell(s: State) {
    forall k :: ViewTells(ViewOf(s, k))
  }

  // ----------------------------------------------------------------- one sighting

  lemma FirstZoneNext(log: seq<Observation>, zone: Zone, o: Observation)
    requires IsFirstZone(log, zone)
    ensures IsFirstZone(log + [o], if zone != Unknown then zone else o.zone)
  {
    var all := log + [o];
    assert all[|log|] == o;
    if zone != Unknown {
      var i :| 0 <= i < |log| && log[i].zone == zone && forall j :: 0 <= j < i ==> log[j].zone == Unknown;
      assert all[i].zone == zone;
    }
  }

  lemma SightedTells(cfg: Config, log: seq<Observation>, before: Runtime, after: Runtime, o: Observation)
    requires log != [] ==> RuntimeTells(log, before)
    requires log == [] ==> before.firstTs == None && before.firstZone == Unknown
    requires SightedAs(cfg, before, after, o.ts, o.zone)
    ensures RuntimeTells(log + [o], after)
  {
    FirstZoneNext(log, before.firstZone, o);
    assert (log + [o])[|log|] == o;
  }

  lemma DetectionTells(cfg: Config, s: State, now: int, d: Detection, t: State)
    requires Sound(cfg, now, s) && Observable(cfg.engine, ObservationOf(now, d)) && t == Detect(cfg, s, now, d)
    requires AllTell(s)
    ensures AllTell(t)
  {
    var key, gone, es, news, written := DetectionShows(cfg, s, now, d, t);
    DetectIsSound(cfg, s, now, d);
    LiveHere(cfg, now, t, key);
    NoSummaryYet(cfg, now, ViewOf(t, key));
    EarlierTells(cfg, now, s, key, LogOf(t, key), Observation(now, d.zone, d.side, d.inGate));
    SightedTells(cfg, LogOf(s, key), Earlier(s, key), t.runtimes[key], Observation(now, d.zone, d.side, d.inGate));
    forall k ensures ViewTells(ViewOf(t, k)) {
      if k != key { LeftTells(s, t, key, gone, k); }
    }
  }

  lemma NoSummaryYet(cfg: Config, now: int, v: View)
    requires LiveInv(cfg, now, v)
    ensures v.tracks == []
  {
  }

  /** A key that was not live has no observations yet. */
  lemma EarlierTells(cfg: Config, now: int, s: State, key: string, log: seq<Observation>, o: Observation)
    requires Sound(cfg, now, s) && AllTell(s) && (key !in s.runtimes ==> LogOf(s, key) == [])
    ensures LogOf(s, key) != [] ==> RuntimeTells(LogOf(s, key), Earlier(s, key))
    ensures LogOf(s, key) == [] ==> Earlier(s, key).firstTs == None && Earlier(s, key).firstZone == Unknown
  {
    assert ViewTells(ViewOf(s, key));
  }

  lemma LeftTells(s: State, t: State, key: string, gone: Option<string>, k: string)
    requires AllTell(s) && Leaves(s, t, key, gone) && k != key
    ensures ViewTells(ViewOf(t, k))
  {
    assert ViewTells(ViewOf(s, k));
  }

  lemma {:induction false} DetectionsTell(cfg: Config, s: State, now: int, ds: seq<Detection>)
    requires Sound(cfg, now, s) && AllTell(s)
    requires forall j :: 0 <= j < |ds| ==> Observable(cfg.engine, ObservationOf(now, ds[j]))
    ensures AllTell(DetectAll(cfg, s, now, ds))
  {
    if ds == [] {
    } else {
      var front := ds[..|ds| - 1];
      DetectionsTell(cfg, s, now, front);
      DetectAllIsSound(cfg, s, now, front);
      DetectionTells(cfg, DetectAll(cfg, s, now, front), now, ds[|ds| - 1], DetectAll(cfg, s, now, ds));
    }
  }

  // ------------------------------------------------------------------------ runs

  lemma FateTells(cfg: Config, key: string, v: View, w: View, now: int)
    requires ViewTells(v) && Fate(cfg, key, v, w, now)
    ensures ViewTells(w)
  {
  }

  lemma EndedTells(cfg: Config, key: string, v: View, w: View, mark: Mark)
    requires ViewTells(v) && Ended(cfg, key, v, w, mark)
    ensures ViewTells(w)
  {
  }

  lemma FrameTells(cfg: Config, s: State, f: Frame)
    requires Sound(cfg, f.ts, s) && AllTell(s)
    requires forall j :: 0 <= j < |f.detections| ==> Observable(cfg.engine, ObservationOf(f.ts, f.detections[j]))
    ensures AllTell(FrameStep(cfg, s, f))
  {
    var d, t := DetectAll(cfg, s, f.ts, f.detections), FrameStep(cfg, s, f);
    DetectionsTell(cfg, s, f.ts, f.detections);
    DetectAllIsSound(cfg, s, f.ts, f.detections);
    forall k ensures ViewTells(ViewOf(t, k)) {
      assert ViewTells(ViewOf(d, k));
      FrameEndShows(cfg, s, f, d, t, k);
      if MissingAt(cfg, ViewOf(s, k), ViewOf(d, k), f.ts) { FateTells(cfg, k, ViewOf(d, k), ViewOf(t, k), f.ts); }
    }
  }

  lemma {:induction false} RunTells(cfg: Config, frames: seq<Frame>)
    requires LegalFrames(cfg, frames)
    ensures AllTell(RunFrames(cfg, frames))
  {
    if frames == [] {
      forall k ensures ViewOf(INITIAL, k) == UNSEEN { assert INITIAL.table + INITIAL.buffer == []; }
    } else {
      var front, f := frames[..|frames| - 1], frames[|frames| - 1];
      DecodedFront(cfg, frames, false);
      RunTells(cfg, front);
      FrameBegins(cfg, frames, false, RunFrames(cfg, front));
      FrameTells(cfg, RunFrames(cfg, front), f);
    }
  }

  /** Every summary row at return tells when its track was seen first and last, in which known
      zone it was seen first, and in which zone last. */
  lemma SummariesTell(cfg: Config, frames: seq<Frame>, end: int, i: nat)
    requires LegalFrames(cfg, frames) && LastTime(frames, end) <= end && i < |RunToEnd(cfg, frames, end).tracks|
    ensures var s := RunToEnd(cfg, frames, end); var row := s.tracks[i]; var log := LogOf(s, row.key);
      && log != [] && row.firstTs == log[0].ts && row.lastTs == log[|log| - 1].ts
      && row.lastZone == log[|log| - 1].zone && IsFirstZone(log, row.firstZone)
  {
    var s := RunToEnd(cfg, frames, end);
    TrackIsListed(s.tracks, i);
    EndTells(cfg, frames, end, s.tracks[i].key);
    RowOfView(ViewOf(s, s.tracks[i].key), s.tracks[i]);
  }

  lemma RowOfView(v: View, row: TrackRow)
    requires ViewTells(v) && row in v.tracks
    ensures RowTells(v.log, row)
  {
  }

  lemma EndTells(cfg: Config, frames: seq<Frame>, end: int, k: string)
    requires LegalFrames(cfg, frames) && LastTime(frames, end) <= end
    ensures ViewTells(ViewOf(RunToEnd(cfg, frames, end), k))
  {
    var v := ViewOf(RunFrames(cfg, frames), k);
    RunTells(cfg, frames);
    assert ViewTells(v);
    EveryVideoEndShows(cfg, frames, end, k);
    if v.rt.Some? { EndedTells(cfg, k, v, ViewOf(RunToEnd(cfg, frames, end), k), LastMark(v)); }
  }

  lemma {:induction false} TrackIsListed(rows: seq<TrackRow>, i: nat)
    requires i < |rows|
    ensures rows[i] in TracksOf(rows, rows[i].key)
  {
    if i < |rows| - 1 { TrackIsListed(rows[..|rows| - 1], i); }
  }
}
