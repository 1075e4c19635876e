/** Stitching broken tracks of one employee into logical sessions. */
module Stitching {
  import opened Wrappers
  import opened DoorEngine
  import opened Reliability
  import opened TrackKeys

  datatype Tracklet = Tracklet(
    key: string,
    employee: Employee,
    confidence: real,
    start: int,
    end: int,
    firstZone: Option<Zone>,
    lastZone: Option<Zone>)

  datatype StitchConfig = StitchConfig(gap: int, minLock: real, requireUnique: bool, requireInside: bool)

  // ------------------------------------------------------- the parent of a tracklet

  /** Tracklet `b` may continue tracklet `a`. */
  predicate MayContinue(cfg: StitchConfig, a: Tracklet, b: Tracklet) {
    && a.employee == b.employee
    && a.confidence >= cfg.minLock && b.confidence >= cfg.minLock
    && 0 <= b.start - a.end <= cfg.gap
    && (cfg.requireInside ==> a.lastZone == Some(Inside) && b.firstZone == Some(Inside))
  }

  predicate IsCandidate(cfg: StitchConfig, ts: seq<Tracklet>, idx: int, j: int) {
    0 <= j < idx < |ts| && MayContinue(cfg, ts[j], ts[idx])
  }

  /** The candidate that `idx` continues: the only one, or with ambiguity allowed the
      one that ends last, the earliest listed of those. */
  ghost predicate IsParent(cfg: StitchConfig, ts: seq<Tracklet>, idx: int, p: int) {
    && IsCandidate(cfg, ts, idx, p)
    && (cfg.requireUnique ==> forall j :: IsCandidate(cfg, ts, idx, j) ==> j == p)
    && forall j :: IsCandidate(cfg, ts, idx, j) && j != p ==>
         ts[j].end < ts[p].end || (ts[j].end == ts[p].end && p < j)
  }

  lemma ParentIsUnique(cfg: StitchConfig, ts: seq<Tracklet>, idx: int, p: int, q: int)
    requires IsParent(cfg, ts, idx, p) && IsParent(cfg, ts, idx, q)
    ensures p == q
  {
    assert IsCandidate(cfg, ts, idx, p) && IsCandidate(cfg, ts, idx, q);
  }

  ghost function Parent(cfg: StitchConfig, ts: seq<Tracklet>, idx: int): (r: Option<nat>)
    ensures forall p: nat :: r == Some(p) <==> IsParent(cfg, ts, idx, p)
  {
    if p: nat :| IsParent(cfg, ts, idx, p) then
      assert forall q: nat :: IsParent(cfg, ts, idx, q) ==> q == p by {
        forall q: nat | IsParent(cfg, ts, idx, q) ensures q == p { ParentIsUnique(cfg, ts, idx, p, q); }
      }
      Some(p)
    else None
  }

  /** The candidates below `n`, as the search lists them. */
  ghost predicate Listed(cfg: StitchConfig, ts: seq<Tracklet>, idx: int, n: int, js: seq<nat>) {
    && (forall i :: 0 <= i < |js| ==> js[i] < n && IsCandidate(cfg, ts, idx, js[i]))
    && (forall i, k :: 0 <= i < k < |js| ==> js[i] < js[k])
    && (forall j :: j < n && IsCandidate(cfg, ts, idx, j) ==> j in js)
  }

  method FindUniqueStitchCandidate(cfg: StitchConfig, ts: seq<Tracklet>, idx: int) returns (r: Option<nat>)
    ensures r == Parent(cfg, ts, idx)
  {
    if idx <= 0 || idx >= |ts| { return None; }
    var b := ts[idx];
    if b.confidence < cfg.minLock { return None; }
    var candidates: seq<nat> := [];
    for j := 0 to idx
      invariant Listed(cfg, ts, idx, j, candidates)
    {
      var a := ts[j];
      if a.employee != b.employee { continue; }
      if a.confidence < cfg.minLock { continue; }
      if a.end > b.start { continue; }
      var gap := b.start - a.end;
      if gap < 0 || gap > cfg.gap { continue; }
      if cfg.requireInside {
        if !(a.lastZone == Some(Inside) && b.firstZone == Some(Inside)) { continue; }
      }
      candidates := candidates + [j];
    }
    if candidates == [] { return None; }
    if cfg.requireUnique && |candidates| != 1 {
      assert IsCandidate(cfg, ts, idx, candidates[0]) && IsCandidate(cfg, ts, idx, candidates[1]);
      return None;
    }
    var best := EndsLast(ts, candidates);
    LastEndingIsParent(cfg, ts, idx, candidates, best);
    return Some(best);
  }

  lemma LastEndingIsParent(cfg: StitchConfig, ts: seq<Tracklet>, idx: nat, js: seq<nat>, best: nat)
    requires Listed(cfg, ts, idx, idx, js) && best in js && (cfg.requireUnique ==> |js| == 1)
    requires forall j :: j in js && j != best ==> ts[j].end < ts[best].end || (ts[j].end == ts[best].end && best < j)
    ensures IsParent(cfg, ts, idx, best)
  {
  }

  /** The first of the listed tracklets with the largest end. */
  method EndsLast(ts: seq<Tracklet>, js: seq<nat>) returns (best: nat)
    requires js != [] && forall i :: 0 <= i < |js| ==> js[i] < |ts|
    requires forall i, k :: 0 <= i < k < |js| ==> js[i] < js[k]
    ensures best in js
    ensures forall j :: j in js && j != best ==> ts[j].end < ts[best].end || (ts[j].end == ts[best].end && best < j)
  {
    var at := 0;
    for i := 1 to |js|
      invariant 0 <= at < i
      invariant forall k :: 0 <= k < i && k != at ==>
        ts[js[k]].end < ts[js[at]].end || (ts[js[k]].end == ts[js[at]].end && at < k)
    {
      if ts[js[i]].end > ts[js[at]].end { at := i; }
    }
    best := js[at];
  }

  // ---------------------------------------------------------------- relabelling

  /** Every key labelled `from` is labelled `to`. */
  function Repoint(m: map<string, string>, from: string, to: string): (r: map<string, string>) {
    map k | k in m :: if m[k] == from then to else m[k]
  }

  ghost predicate HasKeys(ts: seq<Tracklet>, m: map<string, string>) {
    forall i :: 0 <= i < |ts| ==> ts[i].key in m
  }

  ghost function MergeAt(cfg: StitchConfig, ts: seq<Tracklet>, m: map<string, string>, idx: nat)
    : (r: map<string, string>)
    requires idx < |ts| && HasKeys(ts, m)
    ensures r.Keys == m.Keys
  {
    match Parent(cfg, ts, idx)
    case None => m
    case Some(p) =>
      assert IsParent(cfg, ts, idx, p);
      if m[ts[p].key] == m[ts[idx].key] then m else Repoint(m, m[ts[idx].key], m[ts[p].key])
  }

  ghost function SelfLabelled(ts: seq<Tracklet>): (r: map<string, string>)
    ensures HasKeys(ts, r) && forall k :: k in r ==> r[k] == k
  {
    var keys := set t | t in ts :: t.key;
    map k | k in keys :: k
  }

  /** The labels after the first `n` tracklets have been looked at. */
  ghost function Labels(cfg: StitchConfig, ts: seq<Tracklet>, n: nat): (r: map<string, string>)
    requires n <= |ts|
    ensures HasKeys(ts, r) && r.Keys == SelfLabelled(ts).Keys
  {
    if n == 0 then SelfLabelled(ts) else MergeAt(cfg, ts, Labels(cfg, ts, n - 1), n - 1)
  }

  method GroupStitchedTracklets(cfg: StitchConfig, ts: seq<Tracklet>) returns (sessionOf: map<string, string>)
    ensures sessionOf == Labels(cfg, ts, |ts|)
  {
    sessionOf := LabelSelves(ts);
    for idx := 0 to |ts|
      invariant sessionOf == Labels(cfg, ts, idx)
    {
      var candidate := FindUniqueStitchCandidate(cfg, ts, idx);
      if candidate.None? { continue; }
      assert IsParent(cfg, ts, idx, candidate.value);
      var a, b := ts[candidate.value], ts[idx];
      var aSess, bSess := sessionOf[a.key], sessionOf[b.key];
      if aSess == bSess { continue; }
      sessionOf := RepointAll(sessionOf, bSess, aSess);
    }
  }

  method LabelSelves(ts: seq<Tracklet>) returns (m: map<string, string>)
    ensures m == SelfLabelled(ts)
  {
    m := map[];
    for i := 0 to |ts|
      invariant m.Keys == set t | t in ts[..i] :: t.key
      invariant forall k :: k in m ==> m[k] == k
    {
      m := m[ts[i].key := ts[i].key];
      assert ts[..i + 1] == ts[..i] + [ts[i]];
    }
    assert ts[..|ts|] == ts;
  }

  /** One key after the other, in any order. */
  method RepointAll(before: map<string, string>, from: string, to: string) returns (m: map<string, string>)
    ensures m == Repoint(before, from, to)
  {
    m := before;
    var todo := before.Keys;
    while todo != {}
      invariant todo <= before.Keys == m.Keys
      invariant forall k :: k in before ==> m[k] == if k !in todo && before[k] == from then to else before[k]
      decreases todo
    {
      var k := Pick(todo);
      if before[k] == from { m := m[k := to]; }
      todo := todo - {k};
    }
  }

  // ------------------------------------------------------------ what it computes

  /** The tracklet that a chain of parents starts from. */
  ghost function Root(cfg: StitchConfig, ts: seq<Tracklet>, i: nat): (r: nat)
    requires i < |ts|
    ensures r <= i && Parent(cfg, ts, r) == None
  {
    match Parent(cfg, ts, i)
    case None => i
    case Some(p) => assert IsParent(cfg, ts, i, p); Root(cfg, ts, p)
  }

  /** What a tracklet continues, from the day alone: `fits` are the earlier tracklets of
      the employee with a good lock, ending at most the gap before the start, and inside
      on both sides where that is asked for. With none it starts a chain. With exactly
      one it continues that one. With several it starts a chain if the choice must be
      unique, and else continues the one that ends last, the first listed of those. */
  lemma RootFollowsTheDay(cfg: StitchConfig, ts: seq<Tracklet>, i: nat, fits: set<nat>)
    requires i < |ts|
    requires forall j: nat :: j in fits <==>
      && j < i && ts[j].employee == ts[i].employee
      && ts[j].confidence >= cfg.minLock && ts[i].confidence >= cfg.minLock
      && ts[j].end <= ts[i].start <= ts[j].end + cfg.gap
      && (cfg.requireInside ==> ts[j].lastZone == Some(Inside) && ts[i].firstZone == Some(Inside))
    ensures fits == {} ==> Root(cfg, ts, i) == i
    ensures forall p :: fits == {p} ==> Root(cfg, ts, i) == Root(cfg, ts, p)
    ensures forall p, q :: cfg.requireUnique && p in fits && q in fits && p != q ==> Root(cfg, ts, i) == i
    ensures forall p | !cfg.requireUnique && p in fits ::
      (forall j :: j in fits ==> ts[j].end < ts[p].end || (ts[j].end == ts[p].end && p <= j)) ==>
        Root(cfg, ts, i) == Root(cfg, ts, p)
    ensures fits != {} && !cfg.requireUnique ==> exists p :: p in fits && Root(cfg, ts, i) == Root(cfg, ts, p)
  {
    assert forall j: nat :: j in fits <==> IsCandidate(cfg, ts, i, j);
    forall p | fits == {p} ensures Parent(cfg, ts, i) == Some(p) {
      assert IsParent(cfg, ts, i, p);
    }
    forall p, q | cfg.requireUnique && p in fits && q in fits && p != q ensures Parent(cfg, ts, i) == None {
      assert forall n: nat :: !IsParent(cfg, ts, i, n);
    }
    forall p | !cfg.requireUnique && p in fits
        && forall j :: j in fits ==> ts[j].end < ts[p].end || (ts[j].end == ts[p].end && p <= j)
      ensures Parent(cfg, ts, i) == Some(p)
    {
      assert IsParent(cfg, ts, i, p);
    }
    if fits == {} {
      assert forall n: nat :: !IsParent(cfg, ts, i, n);
    } else {
      var p := LastToEnd(ts, fits);
    }
  }

  /** One of a set of tracklets ends last and is listed first among those. */
  lemma {:induction false} LastToEnd(ts: seq<Tracklet>, js: set<nat>) returns (p: nat)
    requires js != {} && forall j :: j in js ==> j < |ts|
    ensures p in js && forall j :: j in js ==> ts[j].end < ts[p].end || (ts[j].end == ts[p].end && p <= j)
    decreases js
  {
    var j :| j in js;
    p := j;
    if js - {j} != {} {
      var q := LastToEnd(ts, js - {j});
      p := if ts[j].end > ts[q].end || (ts[j].end == ts[q].end && j < q) then j else q;
    }
  }

  ghost function RootKey(cfg: StitchConfig, ts: seq<Tracklet>, i: nat): (r: string)
    requires i < |ts|
  {
    ts[Root(cfg, ts, i)].key
  }

  /** Tracklets that share a key share the key of their root. */
  ghost predicate KeysAgree(cfg: StitchConfig, ts: seq<Tracklet>) {
    forall i, j {:trigger RootKey(cfg, ts, i), RootKey(cfg, ts, j)} ::
      0 <= i < |ts| && 0 <= j < |ts| && ts[i].key == ts[j].key ==> RootKey(cfg, ts, i) == RootKey(cfg, ts, j)
  }

  ghost predicate DistinctKeys(ts: seq<Tracklet>) {
    forall i, j :: 0 <= i < j < |ts| ==> ts[i].key != ts[j].key
  }

  /** A tracklet with this key is among the first `n`. */
  ghost predicate Seen(ts: seq<Tracklet>, n: nat, key: string)
    requires n <= |ts|
  {
    exists j :: 0 <= j < n && ts[j].key == key
  }

  /** The label half way: that of the root for a key that has been looked at, itself for another. */
  lemma {:induction false} LabelHalfWay(cfg: StitchConfig, ts: seq<Tracklet>, n: nat, i: nat)
    requires n <= |ts| && i < |ts| && KeysAgree(cfg, ts)
    ensures Labels(cfg, ts, n)[ts[i].key] == if Seen(ts, n, ts[i].key) then RootKey(cfg, ts, i) else ts[i].key
    decreases n
  {
    if n == 0 {
    } else {
      var idx := n - 1;
      var m, key := Labels(cfg, ts, idx), ts[i].key;
      LabelHalfWay(cfg, ts, idx, i);
      SeenStep(ts, idx, key);
      if Seen(ts, idx, key) { RootKeySeen(cfg, ts, idx, i); }
      Agree(cfg, ts, idx, i);
      match Parent(cfg, ts, idx)
      case None =>
        assert RootKey(cfg, ts, idx) == ts[idx].key;
      case Some(p) =>
        ParentsRoot(cfg, ts, idx, p);
        LabelHalfWay(cfg, ts, idx, idx);
        LabelHalfWay(cfg, ts, idx, p);
        if Seen(ts, idx, ts[idx].key) { RootKeySeen(cfg, ts, idx, idx); }
        MergeAtIs(cfg, ts, m, idx, p, key);
    }
  }

  lemma Agree(cfg: StitchConfig, ts: seq<Tracklet>, i: nat, j: nat)
    requires i < |ts| && j < |ts| && KeysAgree(cfg, ts)
    ensures ts[i].key == ts[j].key ==> RootKey(cfg, ts, i) == RootKey(cfg, ts, j)
  {
  }

  lemma ParentsRoot(cfg: StitchConfig, ts: seq<Tracklet>, idx: nat, p: nat)
    requires idx < |ts| && Parent(cfg, ts, idx) == Some(p)
    ensures p < idx && RootKey(cfg, ts, idx) == RootKey(cfg, ts, p) && Seen(ts, idx, ts[p].key)
  {
    assert IsParent(cfg, ts, idx, p);
    assert ts[p].key == ts[p].key;
  }

  /** One merge, seen from one key. */
  lemma MergeAtIs(cfg: StitchConfig, ts: seq<Tracklet>, m: map<string, string>, idx: nat, p: nat, k: string)
    requires p < idx < |ts| && HasKeys(ts, m) && Parent(cfg, ts, idx) == Some(p) && k in m
    ensures MergeAt(cfg, ts, m, idx)[k] == if m[k] == m[ts[idx].key] then m[ts[p].key] else m[k]
  {
  }

  lemma SeenStep(ts: seq<Tracklet>, n: nat, key: string)
    requires n < |ts|
    ensures Seen(ts, n + 1, key) <==> Seen(ts, n, key) || ts[n].key == key
  {
  }

  /** When a key has been looked at, so has the key of its root. */
  lemma RootKeySeen(cfg: StitchConfig, ts: seq<Tracklet>, n: nat, i: nat)
    requires n <= |ts| && i < |ts| && KeysAgree(cfg, ts) && Seen(ts, n, ts[i].key)
    ensures Seen(ts, n, RootKey(cfg, ts, i))
  {
    var j :| 0 <= j < n && ts[j].key == ts[i].key;
    assert RootKey(cfg, ts, j) == RootKey(cfg, ts, i);
    assert ts[Root(cfg, ts, j)].key == RootKey(cfg, ts, i);
  }

  /** The session of a tracklet when all have been looked at. */
  ghost function SessionOf(cfg: StitchConfig, ts: seq<Tracklet>, i: nat): (r: string)
    requires i < |ts|
  {
    Labels(cfg, ts, |ts|)[ts[i].key]
  }

  lemma SessionIsRoot(cfg: StitchConfig, ts: seq<Tracklet>, i: nat)
    requires i < |ts| && KeysAgree(cfg, ts)
    ensures SessionOf(cfg, ts, i) == RootKey(cfg, ts, i)
  {
    LabelHalfWay(cfg, ts, |ts|, i);
    assert ts[i].key == ts[i].key;
  }

  lemma DistinctKeysAgree(cfg: StitchConfig, ts: seq<Tracklet>)
    requires DistinctKeys(ts)
    ensures KeysAgree(cfg, ts)
  {
  }

  /** The relabelling computes the root of every tracklet exactly when tracklets that
      share a key share the key of their root. */
  lemma RelabellingComputesRoots(cfg: StitchConfig, ts: seq<Tracklet>)
    ensures (forall i :: 0 <= i < |ts| ==> SessionOf(cfg, ts, i) == RootKey(cfg, ts, i)) <==> KeysAgree(cfg, ts)
  {
    if KeysAgree(cfg, ts) {
      forall i | 0 <= i < |ts| ensures SessionOf(cfg, ts, i) == RootKey(cfg, ts, i) {
        SessionIsRoot(cfg, ts, i);
      }
    }
  }

  /** Labels are fixed points: a session is named by a tracklet of its own. */
  lemma LabelsAreFixed(cfg: StitchConfig, ts: seq<Tracklet>, i: nat)
    requires i < |ts| && DistinctKeys(ts)
    ensures var root := Root(cfg, ts, i);
      SessionOf(cfg, ts, i) == ts[root].key && SessionOf(cfg, ts, root) == ts[root].key
  {
    DistinctKeysAgree(cfg, ts);
    SessionIsRoot(cfg, ts, i);
    SessionIsRoot(cfg, ts, Root(cfg, ts, i));
  }

  /** With distinct keys two tracklets are in one session exactly when their chains of
      parents start at the same tracklet. */
  lemma SameSession(cfg: StitchConfig, ts: seq<Tracklet>, i: nat, j: nat)
    requires i < |ts| && j < |ts| && DistinctKeys(ts)
    ensures SessionOf(cfg, ts, i) == SessionOf(cfg, ts, j) <==> Root(cfg, ts, i) == Root(cfg, ts, j)
  {
    LabelsAreFixed(cfg, ts, i);
    LabelsAreFixed(cfg, ts, j);
  }

  /** Tracklets that share a key are in one chain of parents. */
  ghost predicate KeysShareRoots(cfg: StitchConfig, ts: seq<Tracklet>) {
    forall i, j {:trigger Root(cfg, ts, i), Root(cfg, ts, j)} ::
      0 <= i < |ts| && 0 <= j < |ts| && ts[i].key == ts[j].key ==> Root(cfg, ts, i) == Root(cfg, ts, j)
  }

  /** The sessions are the chains of parents. */
  ghost predicate SessionsAreRoots(cfg: StitchConfig, ts: seq<Tracklet>) {
    forall i, j {:trigger SessionOf(cfg, ts, i), SessionOf(cfg, ts, j)} ::
      0 <= i < |ts| && 0 <= j < |ts| ==>
        (SessionOf(cfg, ts, i) == SessionOf(cfg, ts, j) <==> Root(cfg, ts, i) == Root(cfg, ts, j))
  }

  /** For any list, repeated keys or not, two tracklets are in one session exactly when
      their chains start at the same tracklet, if and only if tracklets that share a key
      are in one chain. */
  lemma SessionsAreRootsExactly(cfg: StitchConfig, ts: seq<Tracklet>)
    ensures SessionsAreRoots(cfg, ts) <==> KeysShareRoots(cfg, ts)
    ensures DistinctKeys(ts) ==> KeysShareRoots(cfg, ts)
  {
    if KeysShareRoots(cfg, ts) {
      forall i, j | 0 <= i < |ts| && 0 <= j < |ts|
        ensures SessionOf(cfg, ts, i) == SessionOf(cfg, ts, j) <==> Root(cfg, ts, i) == Root(cfg, ts, j)
      {
        SameSessionIfRooted(cfg, ts, i, j);
      }
    }
    if SessionsAreRoots(cfg, ts) {
      forall i, j | 0 <= i < |ts| && 0 <= j < |ts| && ts[i].key == ts[j].key
        ensures Root(cfg, ts, i) == Root(cfg, ts, j)
      {
        assert SessionOf(cfg, ts, i) == SessionOf(cfg, ts, j);
      }
    }
  }

  lemma RootedKeysAgree(cfg: StitchConfig, ts: seq<Tracklet>)
    requires KeysShareRoots(cfg, ts)
    ensures KeysAgree(cfg, ts)
  {
  }

  lemma SameSessionIfRooted(cfg: StitchConfig, ts: seq<Tracklet>, i: nat, j: nat)
    requires i < |ts| && j < |ts| && KeysShareRoots(cfg, ts)
    ensures SessionOf(cfg, ts, i) == SessionOf(cfg, ts, j) <==> Root(cfg, ts, i) == Root(cfg, ts, j)
  {
    RootedKeysAgree(cfg, ts);
    SessionIsRoot(cfg, ts, i);
    SessionIsRoot(cfg, ts, j);
    var a, b := Root(cfg, ts, i), Root(cfg, ts, j);
    assert Root(cfg, ts, a) == a && Root(cfg, ts, b) == b;
  }

  /** A tracklet that does not name its own session continues one in its session:
      same employee, both locks good, the gap short, and inside on both sides. */
  lemma EveryoneHasAParent(cfg: StitchConfig, ts: seq<Tracklet>, i: nat) returns (p: nat)
    requires i < |ts| && DistinctKeys(ts) && SessionOf(cfg, ts, i) != ts[i].key
    ensures p < i && IsParent(cfg, ts, i, p) && MayContinue(cfg, ts[p], ts[i])
    ensures SessionOf(cfg, ts, p) == SessionOf(cfg, ts, i)
  {
    LabelsAreFixed(cfg, ts, i);
    p := Parent(cfg, ts, i).value;
    assert IsParent(cfg, ts, i, p);
    SameSession(cfg, ts, i, p);
  }

  lemma {:induction false} RootKeepsEmployee(cfg: StitchConfig, ts: seq<Tracklet>, i: nat)
    requires i < |ts|
    ensures ts[Root(cfg, ts, i)].employee == ts[i].employee
  {
    match Parent(cfg, ts, i)
    case None =>
    case Some(p) =>
      assert IsParent(cfg, ts, i, p);
      RootKeepsEmployee(cfg, ts, p);
  }

  /** So a session never mixes employees. */
  lemma SessionsHaveOneEmployee(cfg: StitchConfig, ts: seq<Tracklet>, i: nat, j: nat)
    requires i < |ts| && j < |ts| && DistinctKeys(ts)
    requires SessionOf(cfg, ts, i) == SessionOf(cfg, ts, j)
    ensures ts[i].employee == ts[j].employee
  {
    SameSession(cfg, ts, i, j);
    RootKeepsEmployee(cfg, ts, i);
    RootKeepsEmployee(cfg, ts, j);
  }

  /** The sessions are the finest grouping that keeps every tracklet with its parent. */
  lemma {:induction false} SessionsAreFinest<T(!new)>(cfg: StitchConfig, ts: seq<Tracklet>, sessionOf: nat -> T, i: nat)
    requires i < |ts| && forall k: nat, p: nat :: IsParent(cfg, ts, k, p) ==> sessionOf(k) == sessionOf(p)
    ensures sessionOf(i) == sessionOf(Root(cfg, ts, i))
  {
    match Parent(cfg, ts, i)
    case None =>
    case Some(p) =>
      assert IsParent(cfg, ts, i, p);
      SessionsAreFinest(cfg, ts, sessionOf, p);
  }

  // -------------------------------------------------- keys are per job, not per day

  /** One employee on a day with two jobs, each with a first track. */
  function TwoJobs(): (r: seq<Tracklet>) {
    [ Tracklet(KeyName(1, 1), 1, 1.0, 0, 10, Some(Inside), Some(Inside)),
      Tracklet(KeyName(2, 1), 1, 1.0, 11, 30, Some(Inside), Some(Inside)),
      Tracklet(KeyName(1, 1), 1, 1.0, 1000, 1010, Some(Inside), Some(Inside)),
      Tracklet(KeyName(3, 1), 1, 1.0, 1011, 1030, Some(Inside), Some(Inside)) ]
  }

  /** Keys are unique for one job only: here two visits that are far apart end up in one session. */
  lemma SharedKeysJoinVisits()
    ensures var cfg, ts := StitchConfig(5, 0.5, true, true), TwoJobs();
      && !KeysShareRoots(cfg, ts)
      && SessionOf(cfg, ts, 1) == SessionOf(cfg, ts, 3) && Root(cfg, ts, 1) != Root(cfg, ts, 3)
  {
    var cfg, ts := StitchConfig(5, 0.5, true, true), TwoJobs();
    RootsOfTwoJobs();
    KeysOfTwoJobs();
    RootsShareKey(cfg, ts);
  }

  /** Four tracklets in two chains whose roots share a key. */
  lemma RootsShareKey(cfg: StitchConfig, ts: seq<Tracklet>)
    requires |ts| == 4 && ts[0].key == ts[2].key
    requires Root(cfg, ts, 0) == 0 && Root(cfg, ts, 1) == 0 && Root(cfg, ts, 2) == 2 && Root(cfg, ts, 3) == 2
    ensures !KeysShareRoots(cfg, ts) && SessionOf(cfg, ts, 1) == SessionOf(cfg, ts, 3)
  {
    forall i | 0 <= i < |ts| ensures RootKey(cfg, ts, i) == ts[0].key {
      assert i == 0 || i == 1 || i == 2 || i == 3;
    }
    SessionIsRoot(cfg, ts, 1);
    SessionIsRoot(cfg, ts, 3);
  }

  lemma RootsOfTwoJobs()
    ensures var cfg, ts := StitchConfig(5, 0.5, true, true), TwoJobs();
      Root(cfg, ts, 0) == 0 && Root(cfg, ts, 1) == 0 && Root(cfg, ts, 2) == 2 && Root(cfg, ts, 3) == 2
  {
    var cfg, ts := StitchConfig(5, 0.5, true, true), TwoJobs();
    assert IsParent(cfg, ts, 1, 0) && IsParent(cfg, ts, 3, 2);
    assert Parent(cfg, ts, 0) == None && Parent(cfg, ts, 2) == None;
  }

  lemma KeysOfTwoJobs()
    ensures KeyName(1, 1) != KeyName(2, 1) && KeyName(1, 1) != KeyName(3, 1) && KeyName(2, 1) != KeyName(3, 1)
  {
    if KeyName(1, 1) == KeyName(2, 1) { KeyNameInjective(1, 1, 2, 1); }
    if KeyName(1, 1) == KeyName(3, 1) { KeyNameInjective(1, 1, 3, 1); }
    if KeyName(2, 1) == KeyName(3, 1) { KeyNameInjective(2, 1, 3, 1); }
  }

  // ------------------------------------------------------------------- groups

  ghost function Group(m: map<string, string>, session: string): (r: set<string>) {
    set k | k in m && m[k] == session
  }

  /** The groups of a labelling, by session. */
  method IterSessionGroups(m: map<string, string>) returns (groups: map<string, set<string>>)
    ensures groups.Keys == m.Values
    ensures forall s :: s in groups ==> groups[s] == Group(m, s)
  {
    groups := map[];
    var todo := m.Keys;
    while todo != {}
      invariant todo <= m.Keys
      invariant forall s :: s in groups <==> exists k :: k in m && k !in todo && m[k] == s
      invariant forall s :: s in groups ==> groups[s] == Group(m, s) - todo
      decreases todo
    {
      var k := Pick(todo);
      var s := m[k];
      var was := if s in groups then groups[s] else {};
      assert s !in groups ==> Group(m, s) - todo == {};
      groups := groups[s := was + {k}];
      todo := todo - {k};
      assert Group(m, s) - todo == was + {k};
    }
  }

  /** A label is a key that labels itself. */
  ghost predicate Idempotent(m: map<string, string>) {
    forall k :: k in m ==> m[k] in m && m[m[k]] == m[k]
  }

  lemma RepointStaysIdempotent(m: map<string, string>, x: string, y: string)
    requires Idempotent(m) && x in m && y in m && m[x] != m[y]
    ensures Idempotent(Repoint(m, m[x], m[y]))
  {
  }

  /** For every list, repeated keys or not. */
  lemma {:induction false} LabelsAreIdempotent(cfg: StitchConfig, ts: seq<Tracklet>, n: nat)
    requires n <= |ts|
    ensures Idempotent(Labels(cfg, ts, n))
  {
    if n == 0 {
    } else {
      var m := Labels(cfg, ts, n - 1);
      LabelsAreIdempotent(cfg, ts, n - 1);
      match Parent(cfg, ts, n - 1)
      case None =>
      case Some(p) =>
        assert IsParent(cfg, ts, n - 1, p);
        if m[ts[p].key] != m[ts[n - 1].key] { RepointStaysIdempotent(m, ts[n - 1].key, ts[p].key); }
    }
  }

  /** For every list the groups are a disjoint cover of the keys, and each holds the key that
      names it. */
  lemma GroupsPartition(cfg: StitchConfig, ts: seq<Tracklet>)
    ensures var m := Labels(cfg, ts, |ts|);
      && (forall s, t :: s != t ==> Group(m, s) !! Group(m, t))
      && (forall i :: 0 <= i < |ts| ==> ts[i].key in Group(m, SessionOf(cfg, ts, i)))
      && (forall s :: s in m.Values ==> s in Group(m, s))
  {
    LabelsAreIdempotent(cfg, ts, |ts|);
  }
}
