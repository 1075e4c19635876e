/** A visit that broke into several tracks, in the middle of a day with other visits. */
module BrokenVisits {
  import opened Wrappers
  import opened StableSort
  import opened DoorEngine
  import opened PipelineSpec
  import opened TrackKeys
  import opened Stitching
  import opened SessionPairing
  import opened AttendanceDay

  // ------------------------------------------------------------ the group of a visit

  /** The members of a session, in the order of the list. */
  function Members(m: map<string, string>, ts: seq<Tracklet>, s: string): (r: seq<Tracklet>) {
    Filter((t: Tracklet) => t.key in m && m[t.key] == s, ts)
  }

  /** No two tracklets start together. */
  ghost predicate StartsApart(ts: seq<Tracklet>) {
    forall i, j :: 0 <= i < j < |ts| ==> ts[i].start < ts[j].start
  }

  lemma {:induction false} CountOfNoDup<T>(s: seq<T>, x: T)
    requires NoDup(s)
    ensures multiset(s)[x] == if x in s then 1 else 0
  {
    if s == [] {
    } else {
      var front, last := s[..|s| - 1], s[|s| - 1];
      assert s == front + [last];
      CountOfNoDup(front, x);
      assert last !in front;
    }
  }

  lemma SameMultiset<T>(a: seq<T>, b: seq<T>)
    requires NoDup(a) && NoDup(b) && forall x :: x in a <==> x in b
    ensures multiset(a) == multiset(b)
  {
    forall x ensures multiset(a)[x] == multiset(b)[x] {
      CountOfNoDup(a, x);
      CountOfNoDup(b, x);
    }
  }

  lemma ByKeyOfDistinct(ts: seq<Tracklet>, t: Tracklet)
    requires DistinctKeys(ts) && t in ts
    ensures t.key in ByKey(ts) && ByKey(ts)[t.key] == t
  {
    var i :| 0 <= i < |ts| && ts[i] == t;
    assert forall j :: i < j < |ts| ==> ts[j].key != ts[i].key;
  }

  /** A group that no two members of start together is ordered in one way only. */
  lemma OrderingIsMembers(m: map<string, string>, tracklets: seq<Tracklet>, s: string, o: seq<Tracklet>)
    requires DistinctKeys(tracklets) && IsOrdering(ByKey(tracklets), Group(m, s), o)
    requires StartsApart(Members(m, Sort(ByStart, tracklets), s))
    ensures o == Members(m, Sort(ByStart, tracklets), s)
  {
    var r := Members(m, Sort(ByStart, tracklets), s);
    MembersAre(m, tracklets, s);
    forall t ensures t in o <==> t in r { SameMember(m, tracklets, s, o, r, t); }
    ApartIsSorted(r);
    DistinctIsNoDup(o);
    SameMultiset(r, o);
    SortedUnique(ByStart, r, o);
  }

  lemma MembersAre(m: map<string, string>, tracklets: seq<Tracklet>, s: string)
    ensures forall t :: t in Members(m, Sort(ByStart, tracklets), s) <==> t in tracklets && t.key in m && m[t.key] == s
  {
    SortElems(ByStart, tracklets);
    FilterElems((t: Tracklet) => t.key in m && m[t.key] == s, Sort(ByStart, tracklets));
  }

  lemma ApartIsSorted(r: seq<Tracklet>)
    requires StartsApart(r)
    ensures Sorted(ByStart, r) && NoDup(r) && TotalPreorder(ByStart, r)
    ensures forall x, y :: x in r && y in r && ByStart(x, y) && ByStart(y, x) ==> x == y
  {
    forall i, j | 0 <= i < j < |r| ensures ByStart(r[i], r[j]) && r[i] != r[j] { assert r[i].start < r[j].start; }
    forall x, y | x in r && y in r && ByStart(x, y) && ByStart(y, x) ensures x == y {
      var i :| 0 <= i < |r| && r[i] == x;
      var j :| 0 <= j < |r| && r[j] == y;
      SameStart(r, i, j);
    }
  }

  lemma SameStart(r: seq<Tracklet>, i: nat, j: nat)
    requires StartsApart(r) && i < |r| && j < |r| && r[i].start == r[j].start
    ensures i == j
  {
  }

  lemma DistinctIsNoDup(o: seq<Tracklet>)
    requires DistinctKeys(o)
    ensures NoDup(o)
  {
    forall i, j | 0 <= i < j < |o| ensures o[i] != o[j] { assert o[i].key != o[j].key; }
  }

  lemma SameMember(m: map<string, string>, tracklets: seq<Tracklet>, s: string, o: seq<Tracklet>, r: seq<Tracklet>,
                   t: Tracklet)
    requires DistinctKeys(tracklets) && IsOrdering(ByKey(tracklets), Group(m, s), o)
    requires forall x :: x in r <==> x in tracklets && x.key in m && m[x.key] == s
    ensures t in o <==> t in r
  {
    if t in o {
      var i :| 0 <= i < |o| && o[i] == t;
      assert o[i].key in Group(m, s) && o[i] == ByKey(tracklets)[o[i].key];
    }
    if t in r { ByKeyOfDistinct(tracklets, t); }
  }

  // ------------------------------------------------------------ the visit in its day

  /** The pairing of the kept events of a day that contains a broken visit: what came
      before, the first entry joined with the exit of the second stretch, and what
      comes after. An entry still open from before takes the place of the first entry. */
  function Joined(before: Pairing, vs: seq<Stretch>, after: Pairing): (r: Pairing)
    requires |vs| >= 2
  {
    Pairing(before.sessions + [Session(before.open.GetOr(vs[0].entry), vs[1].exit)] + after.sessions,
            before.duplicates + One(before.open) + after.duplicates,
            before.unmatched + (|vs| - 2) + after.unmatched,
            after.open)
  }

  lemma OpenVisit(open: Option<int>, e: EventRow, exits: seq<EventRow>)
    requires e.kind == Entry && exits != [] && e.ts < exits[0].ts && (open.Some? ==> open.value <= e.ts)
    requires forall x :: x in exits ==> x.kind == Exit
    ensures Pair(open, [e] + exits)
            == Pairing([Session(open.GetOr(e.ts), exits[0].ts)], One(open), |exits[1..]|, None)
  {
    assert ([e] + exits)[1..] == exits;
    assert exits[0] in exits;
    OnlyExits(exits[1..]);
    var from := Some(open.GetOr(e.ts));
    assert Pair(from, exits) == Pairing([Session(open.GetOr(e.ts), exits[0].ts)], 0, |exits[1..]|, None);
  }

  lemma VisitFrom(open: Option<int>, cut: Cut, vs: seq<Stretch>, es: seq<EventRow>)
    requires IsBroken(vs, es) && CutFor(vs, cut) && (open.Some? ==> open.value <= vs[0].entry)
    ensures Pair(open, Kept(cut, es))
            == Pairing([Session(open.GetOr(vs[0].entry), vs[1].exit)], One(open), |vs| - 2, None)
  {
    var keep, rest := Keeper(cut), es[2..];
    assert es[1..][1..] == rest;
    LaterExitsStay(cut, vs[0].exit, vs[1..], rest);
    var exits := Kept(cut, rest);
    assert [] + exits == exits && Filter(keep, es[1..]) == exits;
    assert Kept(cut, es) == [es[0]] + exits;
    OpenVisit(open, es[0], exits);
  }

  /** A broken visit anywhere in a day: it becomes one session exactly when it has two
      stretches, and the rest of the day is paired as if the visit were not there. */
  lemma VisitInDay(cut: Cut, pre: seq<EventRow>, vs: seq<Stretch>, es: seq<EventRow>, post: seq<EventRow>)
    requires IsBroken(vs, es) && CutFor(vs, cut) && forall e :: e in pre ==> e.ts <= vs[0].entry
    ensures Pair(None, Kept(cut, pre + es + post))
            == Joined(Pair(None, Kept(cut, pre)), vs, Pair(None, Kept(cut, post)))
  {
    var a, b, c := Kept(cut, pre), Kept(cut, es), Kept(cut, post);
    FilterConcat(Keeper(cut), pre + es, post);
    FilterConcat(Keeper(cut), pre, es);
    FilterElems(Keeper(cut), pre);
    OpenIsAnEvent(None, a, vs[0].entry);
    VisitFrom(Pair(None, a).open, cut, vs, es);
    PairConcat(None, a, b);
    PairConcat(None, a + b, c);
  }

  /** Unstitched, the visit adds all its stretches and nothing else, if nothing is open before it. */
  lemma UnstitchedInDay(pre: seq<EventRow>, vs: seq<Stretch>, es: seq<EventRow>, post: seq<EventRow>)
    requires IsBroken(vs, es) && Pair(None, pre).open == None
    ensures var p := Pair(None, pre + es + post);
      Total(p.sessions) == Total(Pair(None, pre).sessions) + Length(vs) + Total(Pair(None, post).sessions)
  {
    assert es[1..][1..] == es[2..];
    UnstitchedStretches(vs[0].exit, vs[1..], es[2..]);
    OneStretch(es, vs[0]);
    PairConcat(None, pre, es);
    PairConcat(None, pre + es, post);
    TotalConcat(Pair(None, pre).sessions, Pair(None, es).sessions);
    TotalConcat(Pair(None, pre).sessions + Pair(None, es).sessions, Pair(None, post).sessions);
  }

  /** The cut of a day, for the stretches of one of its groups. */
  lemma CutOfGroup(m: map<string, string>, byKey: map<string, Tracklet>, orders: map<string, seq<Tracklet>>,
                   cut: Cut, s: string, vs: seq<Stretch>)
    requires AreOrderings(m, byKey, orders) && IsCut(orders, cut) && s in orders && |vs| >= 2
    requires |vs| == |orders[s]| && forall i :: 0 <= i < |vs| ==> vs[i].key == orders[s][i].key
    ensures CutFor(vs, cut)
  {
    forall i | 0 <= i < |vs|
      ensures (vs[i].key in cut.entries <==> i > 0) && (vs[i].key in cut.exits <==> i < |vs| - 1)
    {
      WhatAKeyLoses(m, byKey, orders, cut, s, i);
    }
  }

  /** What `RecomputeDay` promises about its results, with stitching on and with `ts`
      the tracklets sorted by start. */
  ghost predicate IsDay(cfg: StitchConfig, ts: seq<Tracklet>, tracklets: seq<Tracklet>, events: seq<EventRow>,
                        orders: map<string, seq<Tracklet>>, cut: Cut, day: Daily) {
    && AreOrderings(Labels(cfg, ts, |ts|), ByKey(tracklets), orders) && IsCut(orders, cut)
    && day == DayOf(events, Kept(cut, events), orders != map[])
  }

  /** One visit of the day was recorded as the tracklets of the group `s`, whatever order the
      program took them in: `vs` are its stretches in that order, and `es` its events, which
      stand together in the sorted events of the day. */
  ghost predicate HasVisit(orders: map<string, seq<Tracklet>>, events: seq<EventRow>, s: string,
                           pre: seq<EventRow>, vs: seq<Stretch>, es: seq<EventRow>, post: seq<EventRow>) {
    && s in orders && |vs| == |orders[s]| && (forall i :: 0 <= i < |vs| ==> vs[i].key == orders[s][i].key)
    && Sort(Earlier, events) == pre + es + post && IsBroken(vs, es)
  }

  /** The sessions of the day. */
  function SessionsOf(cut: Cut, events: seq<EventRow>): (r: Pairing) {
    Pair(None, Sort(Earlier, Kept(cut, events)))
  }

  lemma TwoInGroup(m: map<string, string>, s: string, a: string, b: string)
    requires a != b && a in m && b in m && m[a] == s && m[b] == s
    ensures s in m.Values && |Group(m, s)| > 1
  {
    var pair := {a, b};
    assert pair <= Group(m, s) && |pair| == 2;
    assert Group(m, s) == pair + (Group(m, s) - pair);
  }

  /** The day of a broken visit, as it is computed from any tracklets and any events: the
      sessions are those before, the first entry joined with the exit of the second
      stretch, and those after; every further stretch leaves one exit unmatched. */
  lemma BrokenVisitDay(cfg: StitchConfig, ts: seq<Tracklet>, tracklets: seq<Tracklet>, events: seq<EventRow>, s: string,
                       orders: map<string, seq<Tracklet>>, cut: Cut, day: Daily,
                       pre: seq<EventRow>, vs: seq<Stretch>, es: seq<EventRow>, post: seq<EventRow>)
    requires IsDay(cfg, ts, tracklets, events, orders, cut, day)
    requires HasVisit(orders, events, s, pre, vs, es, post)
    ensures SessionsOf(cut, events) == Joined(Pair(None, Kept(cut, pre)), vs, Pair(None, Kept(cut, post)))
    ensures RowShows(day, SessionsOf(cut, events))
  {
    CutOfGroup(Labels(cfg, ts, |ts|), ByKey(tracklets), orders, cut, s, vs);
    VisitDay(events, cut, day, pre, vs, es, post);
  }

  /** The same, once it is known what the cut does to the visit. */
  lemma VisitDay(events: seq<EventRow>, cut: Cut, day: Daily,
                 pre: seq<EventRow>, vs: seq<Stretch>, es: seq<EventRow>, post: seq<EventRow>)
    requires CutFor(vs, cut) && IsBroken(vs, es) && Sort(Earlier, events) == pre + es + post
    requires day == DayOf(events, Kept(cut, events), true)
    ensures SessionsOf(cut, events) == Joined(Pair(None, Kept(cut, pre)), vs, Pair(None, Kept(cut, post)))
    ensures RowShows(day, SessionsOf(cut, events))
  {
    SuppressionCommutes(cut, events);
    EarlierBefore(events, pre, es, post);
    VisitInDay(cut, pre, vs, es, post);
    SortMultiset(Earlier, events);
    RowOfDay(events, Kept(cut, events));
  }

  /** The row of a stitched day shows the total and the anomalies of its pairing. */
  predicate RowShows(day: Daily, p: Pairing) {
    && day.totalMinutes == Some(InMinutes(Total(p.sessions)))
    && day.anomalies.Noted? && day.anomalies.stitched
    && day.anomalies.pairs.duplicateEntry == (p.duplicates > 0)
    && day.anomalies.pairs.exitWithoutEntry == (p.unmatched > 0)
  }

  lemma EarlierBefore(events: seq<EventRow>, pre: seq<EventRow>, es: seq<EventRow>, post: seq<EventRow>)
    requires Sort(Earlier, events) == pre + es + post && es != []
    ensures forall e :: e in pre ==> e.ts <= es[0].ts
  {
    var all := pre + es + post;
    SortSorted(Earlier, events);
    forall e | e in pre ensures e.ts <= es[0].ts {
      var i :| 0 <= i < |pre| && pre[i] == e;
      assert all[i] == e && all[|pre|] == es[0] && Earlier(all[i], all[|pre|]);
    }
  }

  /** What the row of a day with sessions says of its pairing. */
  lemma RowOfDay(events: seq<EventRow>, kept: seq<EventRow>)
    requires events != [] && Pair(None, Sort(Earlier, kept)).sessions != []
    ensures RowShows(DayOf(events, kept, true), Pair(None, Sort(Earlier, kept)))
  {
    TotalFromSessions(events, kept, true);
  }

  /** A visit with one break, nothing open before it, in any day: it is one session from
      its first entry to its last exit. Where nothing else is suppressed, the day comes to
      exactly the gap more than the unstitched day. */
  lemma BrokenOnce(cfg: StitchConfig, ts: seq<Tracklet>, tracklets: seq<Tracklet>, events: seq<EventRow>, s: string,
                   orders: map<string, seq<Tracklet>>, cut: Cut, day: Daily,
                   pre: seq<EventRow>, vs: seq<Stretch>, es: seq<EventRow>, post: seq<EventRow>)
    requires IsDay(cfg, ts, tracklets, events, orders, cut, day)
    requires HasVisit(orders, events, s, pre, vs, es, post) && |vs| == 2
    requires Pair(None, Kept(cut, pre)).open == None
    ensures JoinedOnce(day, SessionsOf(cut, events), cut, pre, vs, post, Sort(Earlier, events))
  {
    BrokenVisitDay(cfg, ts, tracklets, events, s, orders, cut, day, pre, vs, es, post);
    OnceInDay(day, SessionsOf(cut, events), cut, pre, vs, es, post, Sort(Earlier, events));
  }

  /** The sessions of `p` are those before, one from the first entry to the last exit of
      the visit, and those after, and the row counts them. */
  ghost predicate JoinedOnce(day: Daily, p: Pairing, cut: Cut, pre: seq<EventRow>, vs: seq<Stretch>,
                             post: seq<EventRow>, all: seq<EventRow>)
    requires |vs| == 2
  {
    var before, after := Pair(None, Kept(cut, pre)), Pair(None, Kept(cut, post));
    var total := Total(before.sessions) + (vs[1].exit - vs[0].entry) + Total(after.sessions);
    && p.sessions == before.sessions + [Session(vs[0].entry, vs[1].exit)] + after.sessions
    && p.unmatched == before.unmatched + after.unmatched && p.duplicates == before.duplicates + after.duplicates
    && day.totalMinutes == Some(InMinutes(total))
    && (Kept(cut, pre) == pre && Kept(cut, post) == post ==>
          total == Total(Pair(None, all).sessions) + (vs[1].entry - vs[0].exit))
  }

  lemma OnceInDay(day: Daily, p: Pairing, cut: Cut, pre: seq<EventRow>, vs: seq<Stretch>, es: seq<EventRow>,
                  post: seq<EventRow>, all: seq<EventRow>)
    requires IsBroken(vs, es) && |vs| == 2 && all == pre + es + post && Pair(None, Kept(cut, pre)).open == None
    requires p == Joined(Pair(None, Kept(cut, pre)), vs, Pair(None, Kept(cut, post))) && RowShows(day, p)
    ensures JoinedOnce(day, p, cut, pre, vs, post, all)
  {
    JoinedTotal(Pair(None, Kept(cut, pre)), vs, Pair(None, Kept(cut, post)));
    LengthOfTwo(vs);
    if Kept(cut, pre) == pre && Kept(cut, post) == post { UnstitchedInDay(pre, vs, es, post); }
  }

  lemma JoinedTotal(before: Pairing, vs: seq<Stretch>, after: Pairing)
    requires |vs| >= 2 && before.open == None
    ensures Total(Joined(before, vs, after).sessions)
            == Total(before.sessions) + (vs[1].exit - vs[0].entry) + Total(after.sessions)
  {
    var j := [Session(vs[0].entry, vs[1].exit)];
    assert Total(j) == vs[1].exit - vs[0].entry;
    TotalConcat(before.sessions, j);
    TotalConcat(before.sessions + j, after.sessions);
  }

  lemma LengthOfTwo(vs: seq<Stretch>)
    requires |vs| == 2
    ensures Length(vs) == vs[0].exit - vs[0].entry + (vs[1].exit - vs[1].entry)
  {
    assert vs[1..] == [vs[1]] && [vs[1]][1..] == [];
    assert Length([vs[1]]) == vs[1].exit - vs[1].entry;
  }

  // ------------------------------------------------------------- visits that break twice

  lemma {:induction false} RootIsFirst(cfg: StitchConfig, ts: seq<Tracklet>, i: nat)
    requires i < |ts| && forall k :: 0 < k < |ts| ==> Parent(cfg, ts, k).Some?
    ensures Root(cfg, ts, i) == 0
  {
    if i == 0 {
      assert Root(cfg, ts, 0) <= 0;
    } else {
      var p := Parent(cfg, ts, i).value;
      assert IsParent(cfg, ts, i, p);
      RootIsFirst(cfg, ts, p);
    }
  }

  lemma {:induction false} FilterAll<T>(p: T -> bool, s: seq<T>)
    requires forall x :: x in s ==> p(x)
    ensures Filter(p, s) == s
  {
    if s == [] {
    } else {
      assert s == [s[0]] + s[1..];
      FilterAll(p, s[1..]);
    }
  }

  ghost predicate IsChain(cfg: StitchConfig, ts: seq<Tracklet>) {
    && |ts| >= 2 && DistinctKeys(ts) && StartsApart(ts)
    && forall k :: 0 < k < |ts| ==> Parent(cfg, ts, k).Some?
  }

  lemma ChainLabels(cfg: StitchConfig, ts: seq<Tracklet>, m: map<string, string>)
    requires IsChain(cfg, ts) && m == Labels(cfg, ts, |ts|)
    ensures m.Keys == KeySet(ts) && forall k :: k in m ==> m[k] == ts[0].key
  {
    assert m.Keys == SelfLabelled(ts).Keys == KeySet(ts);
    forall k | k in m ensures m[k] == ts[0].key {
      var t :| t in ts && t.key == k;
      var i :| 0 <= i < |ts| && ts[i] == t;
      LabelsAreFixed(cfg, ts, i);
      RootIsFirst(cfg, ts, i);
      assert SessionOf(cfg, ts, i) == m[ts[i].key];
    }
  }

  lemma OneGroup(ts: seq<Tracklet>, m: map<string, string>, s: string, orders: map<string, seq<Tracklet>>)
    requires |ts| >= 2 && DistinctKeys(ts) && StartsApart(ts) && Sort(ByStart, ts) == ts && s == ts[0].key
    requires m.Keys == KeySet(ts) && forall k :: k in m ==> m[k] == s
    requires AreOrderings(m, ByKey(ts), orders)
    ensures orders.Keys == {s} && orders[s] == ts
  {
    AllMembers(ts, m, s);
    TwoInGroup(m, s, ts[0].key, ts[1].key);
    OrderingIsMembers(m, ts, s, orders[s]);
    OneName(m, s, orders);
  }

  lemma OneName(m: map<string, string>, s: string, orders: map<string, seq<Tracklet>>)
    requires s in orders && (forall k :: k in m ==> m[k] == s) && forall z :: z in orders ==> z in m.Values
    ensures orders.Keys == {s}
  {
    assert forall z :: z in m.Values ==> z == s;
  }

  lemma AllMembers(ts: seq<Tracklet>, m: map<string, string>, s: string)
    requires |ts| >= 2 && DistinctKeys(ts) && m.Keys == KeySet(ts) && forall k :: k in m ==> m[k] == s
    ensures Members(m, ts, s) == ts
    ensures ts[0].key in m && ts[1].key in m && ts[0].key != ts[1].key
  {
    forall t | t in ts ensures t.key in m && m[t.key] == s { assert t.key in KeySet(ts); }
    FilterAll((t: Tracklet) => t.key in m && m[t.key] == s, ts);
    assert ts[0] in ts && ts[1] in ts;
  }

  /** A list in which every tracklet but the first continues another one is one group, in
      the order of the list, whatever its length. */
  lemma ChainIsOneGroup(cfg: StitchConfig, ts: seq<Tracklet>, orders: map<string, seq<Tracklet>>)
    requires IsChain(cfg, ts) && AreOrderings(Labels(cfg, ts, |ts|), ByKey(ts), orders)
    ensures orders.Keys == {ts[0].key} && orders[ts[0].key] == ts
  {
    ChainLabels(cfg, ts, Labels(cfg, ts, |ts|));
    ChainGroup(cfg, ts, Labels(cfg, ts, |ts|), orders);
  }

  lemma ChainGroup(cfg: StitchConfig, ts: seq<Tracklet>, m: map<string, string>, orders: map<string, seq<Tracklet>>)
    requires IsChain(cfg, ts) && m.Keys == KeySet(ts) && (forall k :: k in m ==> m[k] == ts[0].key)
    requires AreOrderings(m, ByKey(ts), orders)
    ensures orders.Keys == {ts[0].key} && orders[ts[0].key] == ts
  {
    ChainInOrder(cfg, ts);
    OneGroup(ts, m, ts[0].key, orders);
  }

  lemma ChainInOrder(cfg: StitchConfig, ts: seq<Tracklet>)
    requires IsChain(cfg, ts)
    ensures Sort(ByStart, ts) == ts
  {
    ApartIsSorted(ts);
    SortOfSorted(ByStart, ts);
  }

  /** A visit recorded as a chain of any length is cut as one visit. */
  lemma CutOfChain(ts: seq<Tracklet>, vs: seq<Stretch>, orders: map<string, seq<Tracklet>>, cut: Cut)
    requires |ts| >= 2 && DistinctKeys(ts) && IsCut(orders, cut)
    requires orders.Keys == {ts[0].key} && orders[ts[0].key] == ts
    requires |vs| == |ts| && forall i :: 0 <= i < |vs| ==> vs[i].key == ts[i].key
    ensures CutFor(vs, cut) && orders != map[]
  {
    var s := ts[0].key;
    assert s in orders && LaterIn(orders[s], ts[1].key) && NotLastIn(orders[s], s);
    assert !LaterIn(ts, s);
    forall k | 1 <= k < |vs| ensures vs[k].key in cut.entries { assert LaterIn(orders[s], ts[k].key); }
  }

  const SECOND: int := 1_000_000

  /** Three tracks of one visit, each a second after the one before. */
  function ThreeTracks(): (r: seq<Tracklet>) {
    [ Tracklet(KeyName(1, 1), 1, 1.0, 0, 60 * SECOND, Some(Inside), Some(Inside)),
      Tracklet(KeyName(2, 1), 1, 1.0, 61 * SECOND, 121 * SECOND, Some(Inside), Some(Inside)),
      Tracklet(KeyName(3, 1), 1, 1.0, 122 * SECOND, 182 * SECOND, Some(Inside), Some(Inside)) ]
  }

  function ThreeStretches(): (r: seq<Stretch>) {
    [ Stretch(KeyName(1, 1), 0, 60 * SECOND), Stretch(KeyName(2, 1), 61 * SECOND, 121 * SECOND),
      Stretch(KeyName(3, 1), 122 * SECOND, 182 * SECOND) ]
  }

  /** The entry and the exit that the pipeline infers for a track seen inside only. */
  function Inferred(v: Stretch): (r: seq<EventRow>) {
    [ EventRow(v.key, v.entry, Entry, true, Some(0.3), FirstSeenInside, Plain, Some(1)),
      EventRow(v.key, v.exit, Exit, true, Some(0.3), TrackEndedInside, AfterGrace, Some(1)) ]
  }

  const USUAL := StitchConfig(8 * SECOND, 0.75, true, true)

  lemma ThreeTracksAreAChain(ts: seq<Tracklet>)
    requires ts == ThreeTracks()
    ensures IsChain(USUAL, ts)
  {
    KeysOfTwoJobs();
    assert IsParent(USUAL, ts, 1, 0) && IsParent(USUAL, ts, 2, 1);
  }

  lemma ThreeStretchesAreBroken(vs: seq<Stretch>, es: seq<EventRow>)
    requires vs == ThreeStretches() && es == ThreeVisitEvents()
    ensures IsBroken(vs, es) && Sort(Earlier, es) == es
  {
    SortOfSorted(Earlier, es);
    assert es[2..] == Inferred(vs[1]) + Inferred(vs[2]) && es[2..][2..] == Inferred(vs[2]);
    assert Inferred(vs[2])[2..] == [] && vs[1..] == [vs[1], vs[2]] && vs[1..][1..] == [vs[2]];
    assert [vs[2]][1..] == [];
    assert LaterStretches(vs[1].exit, [vs[2]], Inferred(vs[2]));
    assert LaterStretches(vs[0].exit, vs[1..], es[2..]);
  }

  /** The events of the visit. */
  function ThreeVisitEvents(): (r: seq<EventRow>) {
    var vs := ThreeStretches();
    Inferred(vs[0]) + Inferred(vs[1]) + Inferred(vs[2])
  }

  lemma NothingAround(cut: Cut, vs: seq<Stretch>)
    requires |vs| >= 2
    ensures var p := Joined(Pair(None, Kept(cut, [])), vs, Pair(None, Kept(cut, [])));
      p == Pairing([Session(vs[0].entry, vs[1].exit)], 0, |vs| - 2, None)
      && Total(p.sessions) == vs[1].exit - vs[0].entry
  {
    var j := [Session(vs[0].entry, vs[1].exit)];
    assert Pair(None, Kept(cut, [])) == Pairing([], 0, 0, None);
    assert [] + j + [] == j && j[1..] == [];
  }

  /** A day with nothing but one visit that is cut as a whole. */
  lemma VisitAlone(cut: Cut, vs: seq<Stretch>, es: seq<EventRow>, day: Daily)
    requires CutFor(vs, cut) && IsBroken(vs, es) && Sort(Earlier, es) == es && day == DayOf(es, Kept(cut, es), true)
    ensures day.totalMinutes == Some(InMinutes(vs[1].exit - vs[0].entry))
    ensures day.anomalies.Noted? && day.anomalies.pairs.exitWithoutEntry == (|vs| > 2)
  {
    RowAlone(cut, vs, es, day);
    ShowsAlone(cut, vs, es, day);
  }

  lemma RowAlone(cut: Cut, vs: seq<Stretch>, es: seq<EventRow>, day: Daily)
    requires CutFor(vs, cut) && IsBroken(vs, es) && Sort(Earlier, es) == es && day == DayOf(es, Kept(cut, es), true)
    ensures RowShows(day, SessionsOf(cut, es))
    ensures SessionsOf(cut, es) == Joined(Pair(None, Kept(cut, [])), vs, Pair(None, Kept(cut, [])))
  {
    Around(es);
    VisitDay(es, cut, day, [], vs, es, []);
  }

  lemma Around(es: seq<EventRow>)
    ensures es == [] + es + []
  {
  }

  lemma ShowsAlone(cut: Cut, vs: seq<Stretch>, es: seq<EventRow>, day: Daily)
    requires |vs| >= 2 && RowShows(day, SessionsOf(cut, es))
    requires SessionsOf(cut, es) == Joined(Pair(None, Kept(cut, [])), vs, Pair(None, Kept(cut, [])))
    ensures day.totalMinutes == Some(InMinutes(vs[1].exit - vs[0].entry))
    ensures day.anomalies.Noted? && day.anomalies.pairs.exitWithoutEntry == (|vs| > 2)
  {
    NothingAround(cut, vs);
    ShownAlone(day, SessionsOf(cut, es), vs[0].entry, vs[1].exit, |vs| - 2);
  }

  lemma ShownAlone(day: Daily, p: Pairing, from: int, to: int, unmatched: nat)
    requires RowShows(day, p) && p == Pairing([Session(from, to)], 0, unmatched, None)
    ensures day.totalMinutes == Some(InMinutes(to - from))
    ensures day.anomalies.Noted? && day.anomalies.pairs.exitWithoutEntry == (unmatched > 0)
  {
    assert Total(p.sessions) == to - from;
  }

  /** A day with nothing but one visit, recorded as a chain of tracks of any length. */
  lemma ChainAlone(cfg: StitchConfig, ts: seq<Tracklet>, vs: seq<Stretch>, es: seq<EventRow>,
                   orders: map<string, seq<Tracklet>>, cut: Cut, day: Daily)
    requires IsChain(cfg, ts) && IsDay(cfg, ts, ts, es, orders, cut, day)
    requires |vs| == |ts| && (forall i :: 0 <= i < |vs| ==> vs[i].key == ts[i].key)
    requires IsBroken(vs, es) && Sort(Earlier, es) == es
    ensures day.totalMinutes == Some(InMinutes(vs[1].exit - vs[0].entry))
    ensures day.anomalies.Noted? && day.anomalies.pairs.exitWithoutEntry == (|vs| > 2)
  {
    ChainIsOneGroup(cfg, ts, orders);
    CutOfChain(ts, vs, orders, cut);
    VisitAlone(cut, vs, es, day);
  }

  /** A visit of three tracks that last three minutes by themselves: it broke twice. */
  lemma ThreeTracksExample() returns (ts: seq<Tracklet>, vs: seq<Stretch>, es: seq<EventRow>)
    ensures IsChain(USUAL, ts) && Sort(ByStart, ts) == ts && |vs| == |ts| == 3
    ensures forall i :: 0 <= i < |vs| ==> vs[i].key == ts[i].key
    ensures IsBroken(vs, es) && Sort(Earlier, es) == es
    ensures Length(vs) == 3 * MINUTE && InMinutes(vs[1].exit - vs[0].entry) == 2
  {
    ts, vs, es := ThreeTracks(), ThreeStretches(), ThreeVisitEvents();
    ThreeTracksAreAChain(ts);
    ChainInOrder(USUAL, ts);
    ThreeStretchesAreBroken(vs, es);
    LengthOfThree(vs);
  }

  /** There is a visit of three minutes of which the program, whatever it chooses, counts
      two, with an exit without entry: stitching a visit that broke twice loses time. */
  lemma BrokenTwice() returns (ts: seq<Tracklet>, vs: seq<Stretch>, es: seq<EventRow>)
    ensures IsChain(USUAL, ts) && Sort(ByStart, ts) == ts && |vs| == |ts| == 3
    ensures forall i :: 0 <= i < |vs| ==> vs[i].key == ts[i].key
    ensures IsBroken(vs, es) && Sort(Earlier, es) == es && Length(vs) == 3 * MINUTE
    ensures forall orders, cut, day :: IsDay(USUAL, ts, ts, es, orders, cut, day) ==>
              day.totalMinutes == Some(2) && day.anomalies.Noted? && day.anomalies.pairs.exitWithoutEntry
  {
    ts, vs, es := ThreeTracksExample();
    forall orders, cut, day | IsDay(USUAL, ts, ts, es, orders, cut, day)
      ensures day.totalMinutes == Some(2) && day.anomalies.Noted? && day.anomalies.pairs.exitWithoutEntry
    {
      ChainAlone(USUAL, ts, vs, es, orders, cut, day);
    }
  }

  lemma LengthOfThree(vs: seq<Stretch>)
    requires vs == ThreeStretches()
    ensures Length(vs) == 3 * MINUTE
  {
    assert vs[1..] == [vs[1], vs[2]] && vs[1..][1..] == [vs[2]] && [vs[2]][1..] == [];
    assert Length([vs[2]]) == vs[2].exit - vs[2].entry;
    assert Length(vs[1..]) == vs[1].exit - vs[1].entry + Length([vs[2]]);
  }
}
