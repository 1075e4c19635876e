/** One employee's attendance for a day: stitched tracks lose the entries and exits
    that their breaks made up, and the remaining events are paired and totalled. */
module AttendanceDay {
  import opened Wrappers
  import opened StableSort
  import opened DoorEngine
  import opened Reliability
  import opened PipelineSpec
  import opened Stitching
  import opened SessionPairing

  // ---------------------------------------------------------- stitched groups

  predicate ByStart(a: Tracklet, b: Tracklet) {
    a.start <= b.start
  }

  /** The tracklet of each key, the last one listed if a key is listed twice. */
  function ByKey(ts: seq<Tracklet>): (r: map<string, Tracklet>)
    ensures forall k :: k in r ==> r[k].key == k && r[k] in ts
    ensures forall t :: t in ts ==> t.key in r
    ensures forall i :: 0 <= i < |ts| && (forall j :: i < j < |ts| ==> ts[j].key != ts[i].key) ==> r[ts[i].key] == ts[i]
  {
    if ts == [] then map[]
    else
      var front, t := ts[..|ts| - 1], ts[|ts| - 1];
      assert ts == front + [t];
      ByKey(front)[t.key := t]
  }

  /** The members of a group in the order of their starts; ties come in any order. */
  ghost predicate IsOrdering(byKey: map<string, Tracklet>, group: set<string>, o: seq<Tracklet>) {
    && Sorted(ByStart, o) && DistinctKeys(o)
    && (forall i :: 0 <= i < |o| ==> o[i].key in group && o[i].key in byKey && o[i] == byKey[o[i].key])
    && (forall k :: k in group && k in byKey ==> byKey[k] in o)
  }

  /** The orderings of the groups that have more than one key, by session. */
  ghost predicate AreOrderings(m: map<string, string>, byKey: map<string, Tracklet>,
                               orders: map<string, seq<Tracklet>>) {
    && (forall s {:trigger s in orders} :: s in orders <==> s in m.Values && |Group(m, s)| > 1)
    && (forall s {:trigger orders[s]} :: s in orders ==> IsOrdering(byKey, Group(m, s), orders[s]))
  }

  method OrderGroup(byKey: map<string, Tracklet>, group: set<string>) returns (o: seq<Tracklet>)
    requires forall k :: k in byKey ==> byKey[k].key == k
    ensures IsOrdering(byKey, group, o)
  {
    var todo := group;
    var members: seq<Tracklet> := [];
    while todo != {}
      invariant todo <= group && DistinctKeys(members)
      invariant forall i :: 0 <= i < |members| ==>
        members[i].key in group - todo && members[i].key in byKey && members[i] == byKey[members[i].key]
      invariant forall k :: k in group - todo && k in byKey ==> byKey[k] in members
      decreases todo
    {
      var k := Pick(todo);
      if k in byKey { members := members + [byKey[k]]; }
      todo := todo - {k};
    }
    o := Sort(ByStart, members);
    SortSorted(ByStart, members);
    SortElems(ByStart, members);
    SortKeepsDistinct(members);
    forall i | 0 <= i < |o| ensures o[i].key in group && o[i].key in byKey && o[i] == byKey[o[i].key] {
      assert o[i] in members;
    }
  }

  lemma {:induction false} DistinctByCount(ts: seq<Tracklet>)
    ensures |KeySet(ts)| <= |ts|
    ensures DistinctKeys(ts) <==> |KeySet(ts)| == |ts|
  {
    if ts == [] {
    } else {
      var front, t := ts[..|ts| - 1], ts[|ts| - 1];
      DistinctByCount(front);
      KeySetGrows(front, t);
      assert ts == front + [t];
    }
  }

  lemma KeySetGrows(front: seq<Tracklet>, t: Tracklet)
    ensures KeySet(front + [t]) == KeySet(front) + {t.key}
    ensures DistinctKeys(front + [t]) <==> DistinctKeys(front) && t.key !in KeySet(front)
  {
    var ts := front + [t];
    if u :| u in front && u.key == t.key {
      var i :| 0 <= i < |front| && front[i] == u;
      assert ts[i].key == ts[|front|].key;
    }
    assert forall i :: 0 <= i < |front| ==> ts[i] == front[i] && front[i] in front;
    assert DistinctKeys(ts) ==> DistinctKeys(front) by {
      if DistinctKeys(ts) {
        forall i, j | 0 <= i < j < |front| ensures front[i].key != front[j].key { assert ts[i].key != ts[j].key; }
      }
    }
  }

  ghost function KeySet(ts: seq<Tracklet>): (r: set<string>) {
    set t | t in ts :: t.key
  }

  lemma SortKeepsDistinct(ts: seq<Tracklet>)
    requires DistinctKeys(ts)
    ensures DistinctKeys(Sort(ByStart, ts))
  {
    SortElems(ByStart, ts);
    SortMultiset(ByStart, ts);
    assert KeySet(Sort(ByStart, ts)) == KeySet(ts);
    DistinctByCount(ts);
    DistinctByCount(Sort(ByStart, ts));
  }

  // -------------------------------------------------------------- suppression

  /** The keys whose made-up entries, and whose made-up exits, are to be ignored. */
  datatype Cut = Cut(entries: set<string>, exits: set<string>)

  /** An event that a track break made up, as the program decides it. */
  predicate IsBoundary(cut: Cut, e: EventRow) {
    if e.key in cut.entries then e.kind == Entry && e.inferred && e.reason == FirstSeenInside
    else if e.key in cut.exits then e.kind == Exit && e.inferred && e.reason == TrackEndedInside
    else false
  }

  function Keeper(cut: Cut): (r: EventRow -> bool) {
    e => !IsBoundary(cut, e)
  }

  function Kept(cut: Cut, es: seq<EventRow>): (r: seq<EventRow>) {
    Filter(Keeper(cut), es)
  }

  ghost predicate LaterIn(o: seq<Tracklet>, key: string) {
    exists i :: 1 <= i < |o| && o[i].key == key
  }

  ghost predicate NotLastIn(o: seq<Tracklet>, key: string) {
    exists i :: 0 <= i < |o| - 1 && o[i].key == key
  }

  /** All but the first lose their made-up entries, all but the last are listed for their exits. */
  ghost predicate IsCut(orders: map<string, seq<Tracklet>>, cut: Cut) {
    && (forall k :: k in cut.entries <==> exists s :: s in orders && LaterIn(orders[s], k))
    && (forall k :: k in cut.exits <==> exists s :: s in orders && NotLastIn(orders[s], k))
  }

  method CollectCut(byKey: map<string, Tracklet>, groups: map<string, set<string>>)
    returns (cut: Cut, orders: map<string, seq<Tracklet>>)
    requires forall k :: k in byKey ==> byKey[k].key == k
    requires forall s, k :: s in groups && k in groups[s] ==> k in byKey
    ensures forall s :: s in orders <==> s in groups && |groups[s]| > 1
    ensures forall s :: s in orders ==> IsOrdering(byKey, groups[s], orders[s])
    ensures IsCut(orders, cut)
  {
    cut, orders := Cut({}, {}), map[];
    var todo := groups.Keys;
    while todo != {}
      invariant todo <= groups.Keys
      invariant forall s :: s in orders <==> s in groups.Keys - todo && |groups[s]| > 1
      invariant forall s :: s in orders ==> IsOrdering(byKey, groups[s], orders[s])
      invariant IsCut(orders, cut)
      decreases todo
    {
      var s := Pick(todo);
      todo := todo - {s};
      if |groups[s]| > 1 {
        var o := OrderGroup(byKey, groups[s]);
        GroupSize(byKey, groups[s], o);
        ghost var was := orders;
        orders := orders[s := o];
        var grown := Grow(cut, o);
        CutGrows(was, cut, s, o, grown);
        cut := grown;
      }
    }
  }

  function Grow(cut: Cut, o: seq<Tracklet>): (r: Cut)
    requires o != []
  {
    Cut(cut.entries + (set t | t in o[1..] :: t.key), cut.exits + (set t | t in o[..|o| - 1] :: t.key))
  }

  lemma GroupSize(byKey: map<string, Tracklet>, group: set<string>, o: seq<Tracklet>)
    requires IsOrdering(byKey, group, o) && forall k :: k in group ==> k in byKey && byKey[k].key == k
    ensures |o| == |group|
  {
    assert KeySet(o) == group by {
      forall k | k in group ensures k in KeySet(o) { assert byKey[k] in o; }
    }
    DistinctByCount(o);
  }

  lemma CutGrows(orders: map<string, seq<Tracklet>>, cut: Cut, s: string, o: seq<Tracklet>, grown: Cut)
    requires IsCut(orders, cut) && s !in orders && o != [] && grown == Grow(cut, o)
    ensures IsCut(orders[s := o], grown)
  {
    var bigger := orders[s := o];
    forall k ensures k in grown.entries <==> exists z :: z in bigger && LaterIn(bigger[z], k) {
      TailKeys(o, k);
      if z :| z in orders && LaterIn(orders[z], k) { assert z in bigger && LaterIn(bigger[z], k); }
      assert bigger[s] == o;
    }
    forall k ensures k in grown.exits <==> exists z :: z in bigger && NotLastIn(bigger[z], k) {
      TailKeys(o, k);
      if z :| z in orders && NotLastIn(orders[z], k) { assert z in bigger && NotLastIn(bigger[z], k); }
      assert bigger[s] == o;
    }
  }

  lemma TailKeys(o: seq<Tracklet>, k: string)
    requires o != []
    ensures LaterIn(o, k) <==> k in (set t | t in o[1..] :: t.key)
    ensures NotLastIn(o, k) <==> k in (set t | t in o[..|o| - 1] :: t.key)
  {
    if i :| 1 <= i < |o| && o[i].key == k { assert o[i] == o[1..][i - 1]; }
    if i :| 0 <= i < |o| - 1 && o[i].key == k { assert o[i] == o[..|o| - 1][i]; }
  }

  /** A key of a group: where it stands in the group decides what it loses. */
  lemma WhatAKeyLoses(m: map<string, string>, byKey: map<string, Tracklet>, orders: map<string, seq<Tracklet>>,
                      cut: Cut, s: string, i: nat)
    requires AreOrderings(m, byKey, orders) && IsCut(orders, cut) && s in orders && i < |orders[s]|
    ensures orders[s][i].key in cut.entries <==> i > 0
    ensures orders[s][i].key in cut.exits <==> i < |orders[s]| - 1
  {
    var o := orders[s];
    var key := o[i].key;
    assert key in Group(m, s);
    forall z | z in orders && (LaterIn(orders[z], key) || NotLastIn(orders[z], key)) ensures z == s {
      assert exists j :: 0 <= j < |orders[z]| && orders[z][j].key == key;
      assert key in Group(m, z);
    }
    assert LaterIn(o, key) <==> i > 0;
    assert NotLastIn(o, key) <==> i < |o| - 1;
  }

  lemma StartOrder(m: map<string, string>, byKey: map<string, Tracklet>, orders: map<string, seq<Tracklet>>)
    requires AreOrderings(m, byKey, orders)
    ensures forall s, i, j :: s in orders && 0 <= i < j < |orders[s]| ==> orders[s][i].start <= orders[s][j].start
  {
    forall s, i, j | s in orders && 0 <= i < j < |orders[s]| ensures orders[s][i].start <= orders[s][j].start {
      assert ByStart(orders[s][i], orders[s][j]);
    }
  }

  /** Exactly these events are removed: the entry "first seen inside" of a tracklet that
      is not the first of its group, and the exit "ended inside" of one that is the
      first. Nothing observed is ever removed. */
  lemma RemovedExactly(m: map<string, string>, byKey: map<string, Tracklet>, orders: map<string, seq<Tracklet>>,
                       cut: Cut, e: EventRow)
    requires AreOrderings(m, byKey, orders) && IsCut(orders, cut)
    requires forall s :: s in orders ==> |orders[s]| > 1
    ensures IsBoundary(cut, e) <==> e.inferred && exists s, i ::
      && s in orders && 0 <= i < |orders[s]| && orders[s][i].key == e.key
      && e.kind == (if i > 0 then Entry else Exit) && e.reason == if i > 0 then FirstSeenInside else TrackEndedInside
    ensures forall s, i, j :: s in orders && 0 <= i < j < |orders[s]| ==> orders[s][i].start <= orders[s][j].start
  {
    StartOrder(m, byKey, orders);
    forall s, i | s in orders && 0 <= i < |orders[s]| && orders[s][i].key == e.key
      ensures (e.key in cut.entries <==> i > 0) && (e.key in cut.exits <==> i < |orders[s]| - 1)
    {
      WhatAKeyLoses(m, byKey, orders, cut, s, i);
    }
    if e.key in cut.entries {
      var s :| s in orders && LaterIn(orders[s], e.key);
      var i :| 1 <= i < |orders[s]| && orders[s][i].key == e.key;
      assert IsBoundary(cut, e) <==> e.inferred && e.kind == Entry && e.reason == FirstSeenInside;
    } else if e.key in cut.exits {
      var s :| s in orders && NotLastIn(orders[s], e.key);
      var i :| 0 <= i < |orders[s]| - 1 && orders[s][i].key == e.key;
      assert i == 0;
    }
  }

  // ------------------------------------------------------------- broken visits

  /** One stretch of a visit, between its entry and its exit event. */
  datatype Stretch = Stretch(key: string, entry: int, exit: int)

  predicate EntryOf(e: EventRow, v: Stretch) {
    e.key == v.key && e.kind == Entry && e.ts == v.entry
  }

  predicate ExitOf(e: EventRow, v: Stretch) {
    e.key == v.key && e.kind == Exit && e.ts == v.exit
  }

  /** The later stretches of a visit, from `after` on, their entries made up by the breaks. */
  ghost predicate LaterStretches(after: int, vs: seq<Stretch>, es: seq<EventRow>)
    decreases vs
  {
    if vs == [] then es == []
    else
      && |es| >= 2 && EntryOf(es[0], vs[0]) && es[0].inferred && es[0].reason == FirstSeenInside && ExitOf(es[1], vs[0])
      && after <= vs[0].entry < vs[0].exit && LaterStretches(vs[0].exit, vs[1..], es[2..])
  }

  /** A visit in stretches: it starts with any entry, and its first break made up an exit. */
  ghost predicate IsBroken(vs: seq<Stretch>, es: seq<EventRow>) {
    && |vs| >= 2 && |es| >= 2
    && EntryOf(es[0], vs[0]) && ExitOf(es[1], vs[0]) && es[1].inferred && es[1].reason == TrackEndedInside
    && vs[0].entry < vs[0].exit && LaterStretches(vs[0].exit, vs[1..], es[2..])
  }

  /** What stitching the stretches asks to be ignored. */
  ghost predicate CutFor(vs: seq<Stretch>, cut: Cut) {
    && vs != [] && vs[0].key !in cut.entries && vs[0].key in cut.exits
    && forall k :: 1 <= k < |vs| ==> vs[k].key in cut.entries
  }

  function Length(vs: seq<Stretch>): (r: int) {
    if vs == [] then 0 else vs[0].exit - vs[0].entry + Length(vs[1..])
  }

  /** Unstitched, every stretch is a session of its own. */
  lemma {:induction false} UnstitchedStretches(after: int, vs: seq<Stretch>, es: seq<EventRow>)
    requires LaterStretches(after, vs, es)
    ensures var p := Pair(None, es);
      |p.sessions| == |vs| && Total(p.sessions) == Length(vs) && Clean(p)
    decreases vs
  {
    if vs == [] {
    } else {
      UnstitchedStretches(vs[0].exit, vs[1..], es[2..]);
      OneStretch(es, vs[0]);
    }
  }

  lemma OneStretch(es: seq<EventRow>, v: Stretch)
    requires |es| >= 2 && EntryOf(es[0], v) && ExitOf(es[1], v) && v.entry < v.exit
    ensures var p := Pair(None, es[2..]);
      Pair(None, es) == p.(sessions := [Session(v.entry, v.exit)] + p.sessions)
  {
    assert es[1..][1..] == es[2..];
    assert Pair(None, es) == Pair(Some(v.entry), es[1..]);
  }

  /** Exits with no entry open pair with nothing. */
  lemma {:induction false} OnlyExits(es: seq<EventRow>)
    requires forall e :: e in es ==> e.kind == Exit
    ensures Pair(None, es) == Pairing([], 0, |es|, None)
  {
    if es == [] {
    } else {
      assert es[0] in es;
      OnlyExits(es[1..]);
    }
  }

  /** Of the later stretches the exits are kept, and only they. */
  lemma {:induction false} LaterExitsStay(cut: Cut, after: int, vs: seq<Stretch>, es: seq<EventRow>)
    requires LaterStretches(after, vs, es) && forall k :: 0 <= k < |vs| ==> vs[k].key in cut.entries
    ensures var kept := Kept(cut, es);
      && |kept| == |vs| && (forall e :: e in kept ==> e.kind == Exit)
      && (vs != [] ==> kept[0].ts == vs[0].exit)
    decreases vs
  {
    if vs == [] {
    } else {
      LaterExitsStay(cut, vs[0].exit, vs[1..], es[2..]);
      assert es[1..][1..] == es[2..];
      assert [] + Filter(Keeper(cut), es[1..]) == Filter(Keeper(cut), es[1..]);
      assert Kept(cut, es) == [es[1]] + Kept(cut, es[2..]);
    }
  }

  /** A visit broken into n stretches: stitching joins its first entry with the exit of
      the second stretch, and leaves the exits of the others unmatched. So the whole
      visit becomes one session exactly when there are two stretches; the total grows
      by the first gap and loses what lies in later stretches. */
  lemma StitchedVisit(cut: Cut, vs: seq<Stretch>, es: seq<EventRow>)
    requires IsBroken(vs, es) && CutFor(vs, cut)
    ensures var stitched, unstitched := Pair(None, Kept(cut, es)), Pair(None, es);
      && stitched == Pairing([Session(vs[0].entry, vs[1].exit)], 0, |vs| - 2, None)
      && (stitched.sessions == [Session(vs[0].entry, vs[|vs| - 1].exit)] && Clean(stitched) <==> |vs| == 2)
      && |unstitched.sessions| == |vs| && Clean(unstitched)
      && Total(stitched.sessions) + Length(vs[2..]) == Total(unstitched.sessions) + (vs[1].entry - vs[0].exit)
  {
    var keep, rest := Keeper(cut), es[2..];
    assert es[1..][1..] == rest;
    UnstitchedStretches(vs[0].exit, vs[1..], rest);
    OneStretch(es, vs[0]);
    LaterExitsStay(cut, vs[0].exit, vs[1..], rest);
    var exits := Kept(cut, rest);
    assert [] + exits == exits && Filter(keep, es[1..]) == exits;
    assert Kept(cut, es) == [es[0]] + exits;
    FirstExitCloses(es[0], exits);
    assert vs[1..][1..] == vs[2..];
  }

  lemma FirstExitCloses(e: EventRow, exits: seq<EventRow>)
    requires e.kind == Entry && exits != [] && e.ts < exits[0].ts
    requires forall x :: x in exits ==> x.kind == Exit
    ensures Pair(None, [e] + exits) == Pairing([Session(e.ts, exits[0].ts)], 0, |exits[1..]|, None)
  {
    assert ([e] + exits)[1..] == exits;
    assert exits[0] in exits;
    assert Pair(None, [e] + exits) == Pair(Some(e.ts), exits);
    OnlyExits(exits[1..]);
  }

  /** Suppressing and then sorting is sorting and then suppressing. */
  lemma SuppressionCommutes(cut: Cut, events: seq<EventRow>)
    ensures Sort(Earlier, Kept(cut, events)) == Kept(cut, Sort(Earlier, events))
  {
    FilterSort(Earlier, Keeper(cut), events);
  }

  // ------------------------------------------------------------ the day's row

  const MINUTE: int := 60_000_000

  /** So many whole minutes are in this many microseconds. */
  ghost predicate IsMinutes(t: int, minutes: int) {
    minutes * 60_000_000 <= t < minutes * 60_000_000 + 60_000_000
  }

  /** Whole minutes. */
  function InMinutes(t: int): (r: int)
    ensures r * MINUTE <= t < (r + 1) * MINUTE
  {
    t / MINUTE
  }

  ghost predicate IsPick(es: seq<EventRow>, kind: EventKind, inferred: bool, t: int) {
    exists e :: e in es && e.kind == kind && e.inferred == inferred && e.ts == t
  }

  function Earliest(es: seq<EventRow>, kind: EventKind, inferred: bool): (r: Option<int>)
    ensures r.Some? ==> IsPick(es, kind, inferred, r.value)
    ensures forall e :: e in es && e.kind == kind && e.inferred == inferred ==> r.Some? && r.value <= e.ts
  {
    if es == [] then None
    else
      var front, e := es[..|es| - 1], es[|es| - 1];
      var r := Earliest(front, kind, inferred);
      assert es == front + [e] && e in es;
      if e.kind == kind && e.inferred == inferred && (r.Some? ==> e.ts < r.value) then Some(e.ts) else r
  }

  function Latest(es: seq<EventRow>, kind: EventKind, inferred: bool): (r: Option<int>)
    ensures r.Some? ==> IsPick(es, kind, inferred, r.value)
    ensures forall e :: e in es && e.kind == kind && e.inferred == inferred ==> r.Some? && e.ts <= r.value
  {
    if es == [] then None
    else
      var front, e := es[..|es| - 1], es[|es| - 1];
      var r := Latest(front, kind, inferred);
      assert es == front + [e] && e in es;
      if e.kind == kind && e.inferred == inferred && (r.Some? ==> e.ts > r.value) then Some(e.ts) else r
  }

  datatype Punch = Punch(ts: Option<int>, inferred: bool)

  /** An observed event is preferred to an inferred one. */
  function Prefer(observed: Option<int>, inferred: Option<int>): (r: Punch) {
    if observed.Some? then Punch(observed, false) else Punch(inferred, inferred.Some?)
  }

  function PunchIn(es: seq<EventRow>): (r: Punch)
    ensures r.ts.Some? <==> exists e :: e in es && e.kind == Entry
    ensures r.ts.Some? ==> IsPick(es, Entry, r.inferred, r.ts.value)
    ensures forall e :: e in es && e.kind == Entry && !e.inferred ==> !r.inferred && r.ts.value <= e.ts
    ensures r.inferred ==> forall e :: e in es && e.kind == Entry ==> e.inferred && r.ts.value <= e.ts
  {
    Prefer(Earliest(es, Entry, false), Earliest(es, Entry, true))
  }

  function PunchOut(es: seq<EventRow>): (r: Punch)
    ensures r.ts.Some? <==> exists e :: e in es && e.kind == Exit
    ensures r.ts.Some? ==> IsPick(es, Exit, r.inferred, r.ts.value)
    ensures forall e :: e in es && e.kind == Exit && !e.inferred ==> !r.inferred && e.ts <= r.ts.value
    ensures r.inferred ==> forall e :: e in es && e.kind == Exit ==> e.inferred && e.ts <= r.ts.value
  {
    Prefer(Latest(es, Exit, false), Latest(es, Exit, true))
  }

  datatype DayAnomalies =
    | Absent
    | Noted(pairs: PairAnomalies, missingEntry: bool, inferredEntry: bool, inferredExit: bool, stitched: bool)

  datatype Daily = Daily(punchIn: Option<int>, punchOut: Option<int>, totalMinutes: Option<int>,
                         anomalies: DayAnomalies)

  function TotalMinutes(ss: seq<Session>, punchIn: Option<int>, punchOut: Option<int>): (r: Option<int>) {
    if ss != [] then Some(InMinutes(Total(ss)))
    else if punchIn.Some? && punchOut.Some? && punchOut.value > punchIn.value
    then Some(InMinutes(punchOut.value - punchIn.value))
    else None
  }

  /** The row of a day whose events are `events`, of which `kept` are paired. */
  function DayOf(events: seq<EventRow>, kept: seq<EventRow>, stitched: bool): (r: Daily) {
    var first, last := PunchIn(events), PunchOut(events);
    var p := Pair(None, Sort(Earlier, kept));
    if first.ts == None && last.ts == None then Daily(None, None, Some(0), Absent)
    else
      Daily(first.ts, last.ts, TotalMinutes(p.sessions, first.ts, last.ts),
            Noted(AnomaliesOf(p).(missingExit := p.open.Some? || last.ts == None || last.inferred),
                  first.ts == None || first.inferred, first.inferred, last.inferred, stitched))
  }

  ghost function Those(es: seq<EventRow>, kind: EventKind, inferred: bool): (r: set<EventRow>) {
    set e | e in es && e.kind == kind && e.inferred == inferred
  }

  ghost predicate IsFirstOf(es: set<EventRow>, t: Option<int>) {
    if es == {} then t == None
    else t.Some? && (exists e :: e in es && e.ts == t.value) && forall e :: e in es ==> t.value <= e.ts
  }

  ghost predicate IsLastOf(es: set<EventRow>, t: Option<int>) {
    if es == {} then t == None
    else t.Some? && (exists e :: e in es && e.ts == t.value) && forall e :: e in es ==> e.ts <= t.value
  }

  /** The punches of a day and their notes, from its events. */
  lemma PunchesFollowEvents(es: seq<EventRow>, first: Punch, last: Punch)
    requires first == PunchIn(es) && last == PunchOut(es)
    ensures var seen, guessed := Those(es, Entry, false), Those(es, Entry, true);
      IsFirstOf(if seen != {} then seen else guessed, first.ts) && first.inferred == (seen == {} && guessed != {})
    ensures var seen, guessed := Those(es, Exit, false), Those(es, Exit, true);
      IsLastOf(if seen != {} then seen else guessed, last.ts) && last.inferred == (seen == {} && guessed != {})
  {
    var entries, exits := Those(es, Entry, false), Those(es, Exit, false);
    if e :| e in entries { assert e in es && e.kind == Entry && !e.inferred; }
    if e :| e in Those(es, Entry, true) { assert e in es && e.kind == Entry; }
    if e :| e in exits { assert e in es && e.kind == Exit && !e.inferred; }
    if e :| e in Those(es, Exit, true) { assert e in es && e.kind == Exit; }
    if first.ts.Some? {
      var e :| e in es && e.kind == Entry && e.inferred == first.inferred && e.ts == first.ts.value;
      assert e in Those(es, Entry, first.inferred);
    }
    if last.ts.Some? {
      var e :| e in es && e.kind == Exit && e.inferred == last.inferred && e.ts == last.ts.value;
      assert e in Those(es, Exit, last.inferred);
    }
  }

  /** The punches of a row, from the day's events: the first observed entry, or if none was
      observed the first inferred one, which is then noted; and the last exit likewise. Only
      a day without events is an absence. */
  ghost predicate PunchesTold(events: seq<EventRow>, day: Daily) {
    var (entries, guessedEntries) := (Those(events, Entry, false), Those(events, Entry, true));
    var (exits, guessedExits) := (Those(events, Exit, false), Those(events, Exit, true));
    && IsFirstOf(if entries != {} then entries else guessedEntries, day.punchIn)
    && IsLastOf(if exits != {} then exits else guessedExits, day.punchOut)
    && (day.anomalies == Absent <==> events == [])
    && (events != [] ==>
      && (day.anomalies.missingEntry <==> entries == {})
      && (day.anomalies.inferredEntry <==> entries == {} && guessedEntries != {})
      && (exits == {} ==> day.anomalies.pairs.missingExit)
      && (day.anomalies.inferredExit <==> exits == {} && guessedExits != {}))
  }

  /** What pairing adds: its notes, and the whole minutes of its sessions, or without a session
      those from punch-in to punch-out. */
  ghost predicate PairsTold(events: seq<EventRow>, p: Pairing, stitched: bool, day: Daily) {
    var exits := Those(events, Exit, false);
    var span := if day.punchIn.Some? && day.punchOut.Some? then day.punchOut.value - day.punchIn.value else 0;
    if events == [] then day.totalMinutes == Some(0)
    else
      && day.anomalies.Noted? && (day.anomalies.stitched <==> stitched)
      && day.anomalies.pairs == PairAnomalies(p.duplicates > 0, p.unmatched > 0, exits == {} || p.open.Some?)
      && if p.sessions == [] && span <= 0 then day.totalMinutes == None
         else day.totalMinutes.Some?
              && IsMinutes(if p.sessions != [] then Total(p.sessions) else span, day.totalMinutes.value)
  }

  lemma DayTells(events: seq<EventRow>, kept: seq<EventRow>, stitched: bool)
    ensures PunchesTold(events, DayOf(events, kept, stitched))
    ensures PairsTold(events, Pair(None, Sort(Earlier, kept)), stitched, DayOf(events, kept, stitched))
  {
    AbsentExactly(events, kept, stitched);
    PunchesFollowEvents(events, PunchIn(events), PunchOut(events));
    if events == [] {
      assert Those(events, Entry, false) == {} && Those(events, Entry, true) == {};
      assert Those(events, Exit, false) == {} && Those(events, Exit, true) == {};
    }
  }

  method RecomputeDay(enabled: bool, cfg: StitchConfig, events: seq<EventRow>, tracklets: seq<Tracklet>)
    returns (day: Daily, cut: Cut, orders: map<string, seq<Tracklet>>)
    ensures enabled ==>
      AreOrderings(Labels(cfg, Sort(ByStart, tracklets), |Sort(ByStart, tracklets)|), ByKey(tracklets), orders)
    ensures !enabled ==> orders == map[]
    ensures IsCut(orders, cut)
    ensures day == DayOf(events, Kept(cut, events), orders != map[])
    ensures PunchesTold(events, day)
    ensures PairsTold(events, Pair(None, Sort(Earlier, Kept(cut, events))), orders != map[], day)
  {
    cut, orders := Cut({}, {}), map[];
    if enabled {
      cut, orders := FindCut(cfg, tracklets);
    }
    DayTells(events, Kept(cut, events), orders != map[]);
    var kept := Kept(cut, events);
    var first, last := PunchIn(events), PunchOut(events);
    var sessions, pairs := PairSessions(kept);
    if first.ts == None && last.ts == None {
      return Daily(None, None, Some(0), Absent), cut, orders;
    }
    var noted := Noted(pairs, false, false, false, orders != map[]);
    if first.ts == None || first.inferred {
      noted := noted.(missingEntry := true);
      if first.inferred { noted := noted.(inferredEntry := true); }
    }
    if last.ts == None || last.inferred {
      noted := noted.(pairs := noted.pairs.(missingExit := true));
      if last.inferred { noted := noted.(inferredExit := true); }
    }
    day := Daily(first.ts, last.ts, TotalMinutes(sessions, first.ts, last.ts), noted);
  }

  method FindCut(cfg: StitchConfig, tracklets: seq<Tracklet>) returns (cut: Cut, orders: map<string, seq<Tracklet>>)
    ensures var ts := Sort(ByStart, tracklets); AreOrderings(Labels(cfg, ts, |ts|), ByKey(tracklets), orders)
    ensures IsCut(orders, cut)
  {
    var ts := Sort(ByStart, tracklets);
    var mapping := GroupStitchedTracklets(cfg, ts);
    var groups := IterSessionGroups(mapping);
    SortElems(ByStart, tracklets);
    cut, orders := CollectCut(ByKey(tracklets), groups);
  }

  /** Whatever is suppressed, a day's total is never negative and never exceeds the
      time between any bounds of its events. */
  lemma TotalFitsDay(events: seq<EventRow>, cut: Cut, stitched: bool, lo: int, hi: int)
    requires events != [] && forall e :: e in events ==> lo <= e.ts <= hi
    ensures var total := DayOf(events, Kept(cut, events), stitched).totalMinutes;
      total.Some? ==> 0 <= total.value * MINUTE <= hi - lo
  {
    var es, first, last := Sort(Earlier, Kept(cut, events)), PunchIn(events), PunchOut(events);
    assert events[0] in events;
    KeptWithin(events, cut, lo, hi, es);
    PairedWithin(lo, None, es, hi);
    WithinMeans(lo, Pair(None, es).sessions, hi);
    PunchesWithin(events, first, last, lo, hi);
    MinutesFit(Pair(None, es).sessions, first.ts, last.ts, lo, hi);
    TotalOfDay(events, Kept(cut, events), stitched, first, last);
  }

  lemma TotalOfDay(events: seq<EventRow>, kept: seq<EventRow>, stitched: bool, first: Punch, last: Punch)
    requires events != [] && first == PunchIn(events) && last == PunchOut(events)
    ensures DayOf(events, kept, stitched).totalMinutes
            == TotalMinutes(Pair(None, Sort(Earlier, kept)).sessions, first.ts, last.ts)
  {
    AbsentExactly(events, kept, stitched);
  }

  lemma KeptWithin(events: seq<EventRow>, cut: Cut, lo: int, hi: int, es: seq<EventRow>)
    requires es == Sort(Earlier, Kept(cut, events)) && forall e :: e in events ==> lo <= e.ts <= hi
    ensures Sorted(Earlier, es) && forall i :: 0 <= i < |es| ==> lo <= es[i].ts <= hi
  {
    FilterElems(Keeper(cut), events);
    SortElems(Earlier, Kept(cut, events));
    SortSorted(Earlier, Kept(cut, events));
    forall i | 0 <= i < |es| ensures lo <= es[i].ts <= hi { assert es[i] in es; }
  }

  lemma PunchesWithin(events: seq<EventRow>, first: Punch, last: Punch, lo: int, hi: int)
    requires first == PunchIn(events) && last == PunchOut(events) && forall e :: e in events ==> lo <= e.ts <= hi
    ensures (first.ts.Some? ==> lo <= first.ts.value) && (last.ts.Some? ==> last.ts.value <= hi)
  {
  }

  lemma MinutesFit(ss: seq<Session>, punchIn: Option<int>, punchOut: Option<int>, lo: int, hi: int)
    requires 0 <= Total(ss) <= hi - lo
    requires (punchIn.Some? ==> lo <= punchIn.value) && (punchOut.Some? ==> punchOut.value <= hi)
    ensures var total := TotalMinutes(ss, punchIn, punchOut); total.Some? ==> 0 <= total.value * MINUTE <= hi - lo
  {
  }

  /** Nobody is absent with an event: exactly an empty day is an absence. */
  lemma AbsentExactly(events: seq<EventRow>, kept: seq<EventRow>, stitched: bool)
    ensures DayOf(events, kept, stitched).anomalies == Absent <==> events == []
  {
    if events != [] {
      assert events[0] in events;
    }
  }

  /** Without suppression the total always comes from sessions: the span from punch-in
      to punch-out is only ever used when stitching has removed the events between. */
  lemma SpanOnlyWhenSuppressed(events: seq<EventRow>, stitched: bool)
    requires events != []
    ensures var ss := Pair(None, Sort(Earlier, events)).sessions;
      DayOf(events, events, stitched).totalMinutes == if ss == [] then None else Some(InMinutes(Total(ss)))
  {
    var es := Sort(Earlier, events);
    AbsentExactly(events, events, stitched);
    if Pair(None, es).sessions == [] {
      SortSorted(Earlier, events);
      NoSessionExactly(es);
      SortElems(Earlier, events);
      NoSpan(events, es, PunchIn(events), PunchOut(events));
    }
  }

  lemma NoSpan(events: seq<EventRow>, es: seq<EventRow>, first: Punch, last: Punch)
    requires NoExitAfterEntry(es) && forall e :: e in events ==> e in es
    requires first.ts.Some? ==> IsPick(events, Entry, first.inferred, first.ts.value)
    requires last.ts.Some? ==> IsPick(events, Exit, last.inferred, last.ts.value)
    ensures first.ts.Some? && last.ts.Some? ==> last.ts.value <= first.ts.value
  {
    if first.ts.Some? && last.ts.Some? {
      var e :| e in events && e.kind == Entry && e.ts == first.ts.value;
      var x :| x in events && x.kind == Exit && x.ts == last.ts.value;
      assert e in es && x in es;
    }
  }

  /** A day with a session is totalled by its sessions. */
  lemma TotalFromSessions(events: seq<EventRow>, kept: seq<EventRow>, stitched: bool)
    requires events != [] && Pair(None, Sort(Earlier, kept)).sessions != []
    ensures DayOf(events, kept, stitched).totalMinutes
            == Some(InMinutes(Total(Pair(None, Sort(Earlier, kept)).sessions)))
  {
    AbsentExactly(events, kept, stitched);
  }
}
