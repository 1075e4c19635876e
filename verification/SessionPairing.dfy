/** Pairing the entries and exits of one employee's day into work sessions. */
module SessionPairing {
  import opened Wrappers
  import opened StableSort
  import opened DoorEngine
  import opened PipelineSpec

  datatype Session = Session(from: int, to: int)

  /** The result of pairing: the sessions, what was passed over, and an entry left open. */
  datatype Pairing = Pairing(sessions: seq<Session>, duplicates: nat, unmatched: nat, open: Option<int>)

  predicate Earlier(a: EventRow, b: EventRow) {
    a.ts <= b.ts
  }

  /** Greedy pairing of events that come in time order, with an entry possibly open. */
  function Pair(open: Option<int>, es: seq<EventRow>): (r: Pairing)
    decreases es
  {
    if es == [] then Pairing([], 0, 0, open)
    else
      var e, rest := es[0], es[1..];
      if e.kind == Entry then
        if open == None then Pair(Some(e.ts), rest)
        else var r := Pair(open, rest); r.(duplicates := r.duplicates + 1)
      else if open.Some? && e.ts > open.value then
        var r := Pair(None, rest); r.(sessions := [Session(open.value, e.ts)] + r.sessions)
      else
        var r := Pair(open, rest); r.(unmatched := r.unmatched + 1)
  }

  datatype PairAnomalies = PairAnomalies(duplicateEntry: bool, exitWithoutEntry: bool, missingExit: bool)

  function AnomaliesOf(p: Pairing): (r: PairAnomalies) {
    PairAnomalies(p.duplicates > 0, p.unmatched > 0, p.open.Some?)
  }

  method PairSessions(events: seq<EventRow>) returns (sessions: seq<Session>, anomalies: PairAnomalies)
    ensures var p := Pair(None, Sort(Earlier, events)); sessions == p.sessions && anomalies == AnomaliesOf(p)
  {
    var es := Sort(Earlier, events);
    ghost var p := Pair(None, es);
    var openIn: Option<int> := None;
    sessions, anomalies := [], PairAnomalies(false, false, false);
    assert es[0..] == es && [] + p.sessions == p.sessions;
    for i := 0 to |es|
      invariant Resumes(p, sessions, anomalies, Pair(openIn, es[i..]))
    {
      var e := es[i];
      assert es[i..][1..] == es[i + 1..];
      if e.kind == Entry {
        if openIn.None? {
          openIn := Some(e.ts);
        } else {
          anomalies := anomalies.(duplicateEntry := true);
        }
      } else {
        if openIn.Some? && e.ts > openIn.value {
          SessionMoves(p, sessions, Session(openIn.value, e.ts), anomalies, Pair(None, es[i + 1..]));
          sessions := sessions + [Session(openIn.value, e.ts)];
          openIn := None;
        } else {
          anomalies := anomalies.(exitWithoutEntry := true);
        }
      }
    }
    if openIn.Some? {
      anomalies := anomalies.(missingExit := true);
    }
  }

  /** What has been paired so far, and what the rest pairs to, make up the whole. */
  ghost predicate Resumes(p: Pairing, ss: seq<Session>, a: PairAnomalies, rest: Pairing) {
    && ss + rest.sessions == p.sessions && rest.open == p.open && !a.missingExit
    && (a.duplicateEntry || rest.duplicates > 0 <==> p.duplicates > 0)
    && (a.exitWithoutEntry || rest.unmatched > 0 <==> p.unmatched > 0)
  }

  lemma SessionMoves(p: Pairing, ss: seq<Session>, s: Session, a: PairAnomalies, rest: Pairing)
    requires Resumes(p, ss, a, rest.(sessions := [s] + rest.sessions))
    ensures Resumes(p, ss + [s], a, rest)
  {
    assert ss + ([s] + rest.sessions) == ss + [s] + rest.sessions;
  }

  // --------------------------------------------------------- what pairing does

  predicate Wanted(e: EventRow, kind: EventKind, after: Option<int>) {
    e.kind == kind && (after.Some? ==> e.ts > after.value)
  }

  /** The position of the first event of a kind, strictly after a time if one is given. */
  function Next(es: seq<EventRow>, kind: EventKind, after: Option<int>): (i: nat)
    ensures i <= |es|
  {
    if es == [] || Wanted(es[0], kind, after) then 0 else 1 + Next(es[1..], kind, after)
  }

  lemma {:induction false} NextIsFirst(es: seq<EventRow>, kind: EventKind, after: Option<int>)
    ensures var i := Next(es, kind, after);
      && (i < |es| ==> Wanted(es[i], kind, after))
      && (forall j :: 0 <= j < i ==> !Wanted(es[j], kind, after))
  {
    if es == [] || Wanted(es[0], kind, after) {
    } else {
      NextIsFirst(es[1..], kind, after);
      assert es == [es[0]] + es[1..];
    }
  }

  /** Sessions as jumps: from the next entry to the next exit strictly after it, and on from there. */
  function Jumps(es: seq<EventRow>): (r: seq<Session>)
    decreases |es|
  {
    var i := Next(es, Entry, None);
    if i == |es| then [] else JumpsFrom(es[i].ts, es[i + 1..])
  }

  function JumpsFrom(t: int, es: seq<EventRow>): (r: seq<Session>)
    decreases |es|
  {
    var j := Next(es, Exit, Some(t));
    if j == |es| then [] else [Session(t, es[j].ts)] + Jumps(es[j + 1..])
  }

  lemma {:induction false} OpenPairs(t: int, es: seq<EventRow>)
    ensures var i := Next(es, Exit, Some(t));
      Pair(Some(t), es).sessions ==
        if i == |es| then [] else [Session(t, es[i].ts)] + Pair(None, es[i + 1..]).sessions
  {
    if es == [] || Wanted(es[0], Exit, Some(t)) {
    } else {
      OpenPairs(t, es[1..]);
      SkipOne(es, Next(es[1..], Exit, Some(t)));
    }
  }

  lemma SkipOne(es: seq<EventRow>, i: nat)
    requires es != [] && i <= |es| - 1
    ensures i < |es| - 1 ==> es[1..][i] == es[i + 1] && es[1..][i + 1..] == es[i + 2..]
  {
  }

  lemma {:induction false} ClosedPairs(es: seq<EventRow>)
    ensures var i := Next(es, Entry, None);
      Pair(None, es).sessions == if i == |es| then [] else Pair(Some(es[i].ts), es[i + 1..]).sessions
  {
    if es == [] || es[0].kind == Entry {
    } else {
      ClosedPairs(es[1..]);
      SkipOne(es, Next(es[1..], Entry, None));
    }
  }

  /** The one-pass pairing jumps from entry to exit. */
  lemma {:induction false} PairingJumps(es: seq<EventRow>)
    ensures Pair(None, es).sessions == Jumps(es)
    decreases |es|
  {
    ClosedPairs(es);
    var i := Next(es, Entry, None);
    if i >= |es| {
    } else {
      PairingJumpsFrom(es[i].ts, es[i + 1..]);
    }
  }

  lemma {:induction false} PairingJumpsFrom(t: int, es: seq<EventRow>)
    ensures Pair(Some(t), es).sessions == JumpsFrom(t, es)
    decreases |es|
  {
    OpenPairs(t, es);
    var j := Next(es, Exit, Some(t));
    if j >= |es| {
    } else {
      PairingJumps(es[j + 1..]);
    }
  }

  /** Sessions one after the other between two times, each of them longer than nothing. */
  ghost predicate Within(lo: int, ss: seq<Session>, hi: int)
    decreases ss
  {
    if ss == [] then lo <= hi
    else lo <= ss[0].from < ss[0].to <= hi && Within(ss[0].to, ss[1..], hi)
  }

  lemma {:induction false} PairedWithin(lo: int, open: Option<int>, es: seq<EventRow>, hi: int)
    requires Sorted(Earlier, es) && lo <= hi && forall i :: 0 <= i < |es| ==> lo <= es[i].ts <= hi
    requires open.Some? ==> lo <= open.value
    ensures Within(lo, Pair(open, es).sessions, hi)
    decreases es
  {
    if es == [] {
    } else {
      var e := es[0];
      if e.kind == Entry {
        PairedWithin(lo, if open == None then Some(e.ts) else open, es[1..], hi);
      } else if open.Some? && e.ts > open.value {
        PairedWithin(e.ts, None, es[1..], hi);
      } else {
        PairedWithin(lo, open, es[1..], hi);
      }
    }
  }

  function Total(ss: seq<Session>): (r: int) {
    if ss == [] then 0 else ss[0].to - ss[0].from + Total(ss[1..])
  }

  lemma {:induction false} WithinMeans(lo: int, ss: seq<Session>, hi: int)
    requires Within(lo, ss, hi)
    ensures forall i :: 0 <= i < |ss| ==> lo <= ss[i].from < ss[i].to <= hi
    ensures forall i, j :: 0 <= i < j < |ss| ==> ss[i].to <= ss[j].from
    ensures 0 <= Total(ss) <= hi - lo && (ss != [] ==> Total(ss) > 0)
    decreases ss
  {
    if ss == [] {
    } else {
      WithinMeans(ss[0].to, ss[1..], hi);
    }
  }

  /** Whatever the events of a day, its sessions are longer than nothing, come one
      after the other, and together last no longer than from its first event to its last. */
  lemma SessionsInOrder(events: seq<EventRow>)
    requires events != []
    ensures var es := Sort(Earlier, events); var ss := Pair(None, es).sessions;
      && |es| == |events|
      && (forall i :: 0 <= i < |ss| ==> ss[i].from < ss[i].to)
      && (forall i, j :: 0 <= i < j < |ss| ==> ss[i].to <= ss[j].from)
      && 0 <= Total(ss) <= es[|es| - 1].ts - es[0].ts
  {
    var es := Sort(Earlier, events);
    SortMultiset(Earlier, events);
    SortSorted(Earlier, events);
    PairedWithin(es[0].ts, None, es, es[|es| - 1].ts);
    WithinMeans(es[0].ts, Pair(None, es).sessions, es[|es| - 1].ts);
  }

  function Count(kind: EventKind, es: seq<EventRow>): (r: nat) {
    if es == [] then 0 else (if es[0].kind == kind then 1 else 0) + Count(kind, es[1..])
  }

  function One(o: Option<int>): (r: nat) {
    if o.Some? then 1 else 0
  }

  /** Every entry starts a session, is passed over as a duplicate or is left open;
      every exit ends a session or is passed over. */
  lemma {:induction false} EveryEventAccountedFor(open: Option<int>, es: seq<EventRow>)
    ensures var p := Pair(open, es);
      && Count(Entry, es) + One(open) == |p.sessions| + p.duplicates + One(p.open)
      && Count(Exit, es) == |p.sessions| + p.unmatched
    decreases es
  {
    if es == [] {
    } else {
      var e := es[0];
      EveryEventAccountedFor(
        if e.kind == Entry then (if open == None then Some(e.ts) else open)
        else if open.Some? && e.ts > open.value then None else open, es[1..]);
    }
  }

  /** Entry, then a strictly later exit, and so on to the end. */
  ghost predicate Alternates(es: seq<EventRow>) {
    es == [] || (|es| >= 2 && es[0].kind == Entry && es[1].kind == Exit && es[0].ts < es[1].ts && Alternates(es[2..]))
  }

  predicate Clean(p: Pairing) {
    p.duplicates == 0 && p.unmatched == 0 && p.open == None
  }

  /** Pairing reports nothing exactly when the day alternates. */
  lemma {:induction false} CleanExactly(es: seq<EventRow>)
    ensures Clean(Pair(None, es)) <==> Alternates(es)
    ensures AnomaliesOf(Pair(None, es)) == PairAnomalies(false, false, false) <==> Alternates(es)
    decreases |es|
  {
    if |es| < 2 || es[0].kind != Entry {
    } else {
      assert es[1..][1..] == es[2..];
      CleanExactly(es[2..]);
      if es[1].kind == Exit && es[0].ts < es[1].ts {
        assert Pair(None, es) == Pair(Some(es[0].ts), es[1..]);
      }
    }
  }

  ghost predicate NoExitAfterEntry(es: seq<EventRow>) {
    forall i, j :: 0 <= i < |es| && 0 <= j < |es| && es[i].kind == Entry && es[j].kind == Exit ==> es[j].ts <= es[i].ts
  }

  /** No session at all means that no exit comes strictly after an entry. */
  lemma {:induction false} NoSessionExactly(es: seq<EventRow>)
    requires Sorted(Earlier, es)
    ensures Pair(None, es).sessions == [] <==> NoExitAfterEntry(es)
  {
    ClosedPairs(es);
    NextIsFirst(es, Entry, None);
    var i := Next(es, Entry, None);
    if i >= |es| {
    } else {
      var t, rest := es[i].ts, es[i + 1..];
      OpenPairs(t, rest);
      NextIsFirst(rest, Exit, Some(t));
      var k := Next(rest, Exit, Some(t));
      assert k < |rest| ==> rest[k] == es[i + 1 + k];
      forall a, j | k == |rest| && 0 <= a < |es| && 0 <= j < |es| && es[a].kind == Entry && es[j].kind == Exit
        ensures es[j].ts <= es[a].ts
      {
        assert i <= a;
        if i < j { assert rest[j - i - 1] == es[j]; }
      }
    }
  }

  /** Pairing goes on from where it stands. */
  lemma {:induction false} PairConcat(open: Option<int>, a: seq<EventRow>, b: seq<EventRow>)
    ensures var p := Pair(open, a); var q := Pair(p.open, b);
      Pair(open, a + b) ==
        Pairing(p.sessions + q.sessions, p.duplicates + q.duplicates, p.unmatched + q.unmatched, q.open)
    decreases a
  {
    if a == [] {
      assert a + b == b;
      assert [] + Pair(open, b).sessions == Pair(open, b).sessions;
    } else {
      var e := a[0];
      assert (a + b)[1..] == a[1..] + b;
      if e.kind == Entry {
        PairConcat(if open == None then Some(e.ts) else open, a[1..], b);
      } else if open.Some? && e.ts > open.value {
        PairConcat(None, a[1..], b);
        var p := Pair(None, a[1..]);
        var q := Pair(p.open, b);
        assert [Session(open.value, e.ts)] + (p.sessions + q.sessions)
            == ([Session(open.value, e.ts)] + p.sessions) + q.sessions;
      } else {
        PairConcat(open, a[1..], b);
      }
    }
  }

  /** An entry left open is one of the events. */
  lemma {:induction false} OpenIsAnEvent(open: Option<int>, es: seq<EventRow>, hi: int)
    requires (open.Some? ==> open.value <= hi) && forall e :: e in es ==> e.ts <= hi
    ensures var p := Pair(open, es); p.open.Some? ==> p.open.value <= hi
    decreases es
  {
    if es == [] {
    } else {
      var e := es[0];
      assert e in es;
      OpenIsAnEvent(
        if e.kind == Entry then (if open == None then Some(e.ts) else open)
        else if open.Some? && e.ts > open.value then None else open, es[1..], hi);
    }
  }

  lemma {:induction false} TotalConcat(a: seq<Session>, b: seq<Session>)
    ensures Total(a + b) == Total(a) + Total(b)
  {
    if a == [] {
      assert a + b == b;
    } else {
      assert (a + b)[1..] == a[1..] + b;
      TotalConcat(a[1..], b);
    }
  }
}
