/** What splitting a SQL script keeps: the pieces make up the script again, and
    statements joined with a semicolon of their own split into the same statements. */
module SqlRoundTrip {
  import opened Wrappers
  import opened SqlLexer

  function Join(sep: string, ps: seq<string>): (r: string) {
    if ps == [] then "" else if |ps| == 1 then ps[0] else ps[0] + sep + Join(sep, ps[1..])
  }

  /** The unstripped pieces, joined with semicolons, are the script. */
  lemma {:induction false} PiecesJoin(w: Alnum, m: Mode, s: string)
    ensures Join(";", Pieces(w, m, s)) == s
    decreases |s|
  {
    if s == "" {
    } else {
      assert s == [s[0]] + s[1..];
      if Separates(m, s[0]) {
        PiecesJoin(w, Normal, s[1..]);
        var ps := Pieces(w, Normal, s[1..]);
        assert ([""] + ps)[1..] == ps;
      } else {
        PiecesJoin(w, Next(w, m, s[0]), s[1..]);
        JoinGlue(";", [s[0]], Pieces(w, Next(w, m, s[0]), s[1..]));
      }
    }
  }

  lemma JoinGlue(sep: string, x: string, ps: seq<string>)
    requires ps != []
    ensures Join(sep, Glue(x, ps)) == x + Join(sep, ps)
  {
    assert Glue(x, ps)[1..] == ps[1..];
    if |ps| > 1 {
      assert x + ps[0] + sep + Join(sep, ps[1..]) == x + (ps[0] + sep + Join(sep, ps[1..]));
    }
  }

  // ------------------------------------------------------------------ stripping

  ghost predicate AllSpace(s: string) {
    forall i :: 0 <= i < |s| ==> IsSpace(s[i])
  }

  predicate Tight(s: string) {
    s != "" ==> !IsSpace(s[0]) && !IsSpace(s[|s| - 1])
  }

  lemma {:induction false} LeftParts(s: string) returns (a: string)
    ensures s == a + StripLeft(s) && AllSpace(a) && (StripLeft(s) != "" ==> !IsSpace(StripLeft(s)[0]))
  {
    a := "";
    if s == "" || !IsSpace(s[0]) {
    } else {
      var b := LeftParts(s[1..]);
      a := [s[0]] + b;
      assert s == [s[0]] + s[1..];
    }
  }

  lemma SpaceMore(a: string, c: char, t: string)
    requires AllSpace(a) && IsSpace(c)
    ensures AllSpace(a + [c]) && (t + a) + [c] == t + (a + [c])
  {
  }

  lemma {:induction false} RightParts(s: string) returns (b: string)
    ensures s == StripRight(s) + b && AllSpace(b)
    ensures (StripRight(s) != "" ==> !IsSpace(StripRight(s)[|StripRight(s)| - 1]))
  {
    b := "";
    if s == "" || !IsSpace(s[|s| - 1]) {
    } else {
      var front, c := s[..|s| - 1], s[|s| - 1];
      assert s == front + [c];
      var a := RightParts(front);
      b := a + [c];
      SpaceMore(a, c, StripRight(front));
    }
  }

  /** Stripping takes white space from both ends and nothing else. */
  lemma StripParts(s: string) returns (a: string, b: string)
    ensures s == a + Strip(s) + b && AllSpace(a) && AllSpace(b) && Tight(Strip(s))
  {
    a := LeftParts(s);
    b := RightParts(StripLeft(s));
    assert s == a + (Strip(s) + b) == a + Strip(s) + b;
    if Strip(s) != "" { assert Strip(s)[0] == StripLeft(s)[0]; }
  }

  lemma {:induction false} StripLeftOf(a: string, t: string)
    requires AllSpace(a) && (t != "" ==> !IsSpace(t[0]))
    ensures StripLeft(a + t) == t
  {
    if a == "" {
      assert a + t == t;
    } else {
      assert (a + t)[1..] == a[1..] + t;
      StripLeftOf(a[1..], t);
    }
  }

  lemma {:induction false} StripRightOf(t: string, b: string)
    requires AllSpace(b) && (t != "" ==> !IsSpace(t[|t| - 1]))
    ensures StripRight(t + b) == t
  {
    if b == "" {
      assert t + b == t;
    } else {
      assert (t + b)[..|t + b| - 1] == t + b[..|b| - 1];
      StripRightOf(t, b[..|b| - 1]);
    }
  }

  lemma {:induction false} StripSpaces(b: string)
    requires AllSpace(b)
    ensures Strip(b) == ""
  {
    StripLeftOf(b, "");
    assert b + "" == b;
  }

  lemma StripBetween(a: string, t: string, b: string)
    requires AllSpace(a) && AllSpace(b) && Tight(t)
    ensures Strip(a + t + b) == t
  {
    assert a + t + b == a + (t + b);
    if t == "" {
      assert a + (t + b) == a + b;
      StripSpaces(a + b);
    } else {
      StripLeftOf(a, t + b);
      StripRightOf(t, b);
    }
  }

  /** White space around a text does not change what stripping leaves. */
  lemma StripAround(a: string, x: string, b: string)
    requires AllSpace(a) && AllSpace(b)
    ensures Strip(a + x + b) == Strip(x)
  {
    var c, d := StripParts(x);
    var t := Strip(x);
    assert a + x + b == (a + c) + t + (d + b);
    StripBetween(a + c, t, d + b);
  }

  // --------------------------------------------------------------- well-formed pieces

  /** The modes that the machine can reach. */
  ghost predicate Sane(w: Alnum, m: Mode) {
    match m
    case Tag(t) => t != "" && t[0] == '$' && forall k :: 0 < k < |t| ==> IsTagChar(w, t[k])
    case Dollar(t, g) => IsTag(w, t) && g < |t|
    case _ => true
  }

  lemma {:induction false} EndIsSane(w: Alnum, m: Mode, x: string)
    requires Sane(w, m)
    ensures Sane(w, End(w, m, x))
    decreases |x|
  {
    if x == "" {
    } else {
      NextIsSane(w, m, x[0]);
      EndIsSane(w, Next(w, m, x[0]), x[1..]);
    }
  }

  lemma NextIsSane(w: Alnum, m: Mode, c: char)
    requires Sane(w, m)
    ensures Sane(w, Next(w, m, c))
  {
    if m.Tag? {
      var t := m.tag + [c];
      assert forall k :: 0 < k < |m.tag| ==> t[k] == m.tag[k];
    }
  }

  /** The machine is where a line break and a semicolon end the statement. */
  predicate Closes(m: Mode) {
    Plain(m) || m.Line?
  }

  /** White space does not lead out of quotes, block comments or dollar quotes. */
  lemma {:induction false} SpacesStay(w: Alnum, m: Mode, b: string)
    requires Sane(w, m) && AllSpace(b) && Plain(End(w, m, b))
    ensures Closes(m)
    decreases |b|
  {
    if b == "" {
    } else {
      NextIsSane(w, m, b[0]);
      SpacesStay(w, Next(w, m, b[0]), b[1..]);
    }
  }

  lemma {:induction false} SpacesFromNormal(w: Alnum, a: string)
    requires AllSpace(a)
    ensures Quiet(w, Normal, a) && End(w, Normal, a) == Normal
  {
    if a == "" {
    } else {
      SpacesFromNormal(w, a[1..]);
    }
  }

  /** Every piece runs without a separator, and each but the last ends where a separator counts. */
  ghost predicate Proper(w: Alnum, m: Mode, ps: seq<string>)
    decreases |ps|
  {
    && ps != [] && Quiet(w, m, ps[0])
    && (|ps| > 1 ==> Plain(End(w, m, ps[0])) && Proper(w, Normal, ps[1..]))
  }

  lemma {:induction false} PiecesAreProper(w: Alnum, m: Mode, s: string)
    ensures Proper(w, m, Pieces(w, m, s))
    decreases |s|
  {
    if s == "" {
    } else {
      if Separates(m, s[0]) {
        PiecesAreProper(w, Normal, s[1..]);
        var ps := Pieces(w, Normal, s[1..]);
        assert ([""] + ps)[1..] == ps;
      } else {
        PiecesAreProper(w, Next(w, m, s[0]), s[1..]);
        ProperGlue(w, m, s[0], Pieces(w, Next(w, m, s[0]), s[1..]));
      }
    }
  }

  lemma ProperGlue(w: Alnum, m: Mode, c: char, ps: seq<string>)
    requires !Separates(m, c) && Proper(w, Next(w, m, c), ps)
    ensures Proper(w, m, Glue([c], ps))
  {
    assert ([c] + ps[0])[1..] == ps[0];
    assert Glue([c], ps)[1..] == ps[1..];
  }

  /** Statements that can be joined and split again. */
  ghost predicate Splittable(w: Alnum, ts: seq<string>) {
    ts != [] ==>
      && ts[0] != "" && Tight(ts[0]) && Quiet(w, Normal, ts[0])
      && (|ts| > 1 ==> Closes(End(w, Normal, ts[0])))
      && Splittable(w, ts[1..])
  }

  lemma StripIsQuiet(w: Alnum, p: string)
    requires Quiet(w, Normal, p)
    ensures Quiet(w, Normal, Strip(p))
    ensures Plain(End(w, Normal, p)) ==> Closes(End(w, Normal, Strip(p)))
  {
    var a, b := StripParts(p);
    var t := Strip(p);
    assert p == a + (t + b);
    SpacesFromNormal(w, a);
    EndOfConcat(w, Normal, a, t + b);
    EndOfConcat(w, Normal, t, b);
    EndIsSane(w, Normal, t);
    if Plain(End(w, Normal, p)) { SpacesStay(w, End(w, Normal, t), b); }
  }

  lemma {:induction false} KeptAreSplittable(w: Alnum, ps: seq<string>)
    requires Proper(w, Normal, ps)
    ensures Splittable(w, Keep(ps))
  {
    var t := Strip(ps[0]);
    StripIsQuiet(w, ps[0]);
    var a, b := StripParts(ps[0]);
    if |ps| > 1 {
      KeptAreSplittable(w, ps[1..]);
      assert t == "" ==> Keep(ps) == Keep(ps[1..]);
      assert t != "" ==> Keep(ps)[1..] == Keep(ps[1..]);
    } else {
      assert Keep(ps[1..]) == [];
    }
  }

  // ----------------------------------------------------------------- the round trip

  const SEPARATOR := "\n;\n"

  lemma {:induction false} SplitJoined(w: Alnum, ts: seq<string>)
    requires Splittable(w, ts)
    ensures Statements(w, Join(SEPARATOR, ts)) == ts
  {
    if ts == [] {
      assert Pieces(w, Normal, "") == [""] && Strip("") == "" && [""][1..] == [];
    } else {
      StripBetween("", ts[0], "");
      assert "" + ts[0] + "" == ts[0];
      if |ts| == 1 {
        QuietPieces(w, Normal, ts[0], "");
        assert ts[0] + "" == ts[0];
        assert Pieces(w, Normal, ts[0]) == Glue(ts[0], [""]) == [ts[0]];
        assert Keep([ts[0]]) == [ts[0]] == ts;
      } else {
        SplitJoined(w, ts[1..]);
        var rest := Join(SEPARATOR, ts[1..]);
        FirstOfJoined(w, ts[0], rest);
        KeepFirst(ts[0], Pieces(w, Normal, rest));
        assert [ts[0]] + ts[1..] == ts;
      }
    }
  }

  lemma FirstOfJoined(w: Alnum, t: string, rest: string)
    requires Quiet(w, Normal, t) && Closes(End(w, Normal, t))
    ensures Pieces(w, Normal, t + SEPARATOR + rest) == [t + "\n"] + Glue("\n", Pieces(w, Normal, rest))
  {
    var m := End(w, Normal, t);
    EndIsSane(w, Normal, t);
    var x := t + "\n";
    assert ("\n")[1..] == "";
    assert Next(w, m, '\n') == Normal;
    EndOfConcat(w, Normal, t, "\n");
    QuietPieces(w, Normal, x, ";\n" + rest);
    assert t + SEPARATOR + rest == x + (";\n" + rest);
    assert (";\n" + rest)[1..] == "\n" + rest;
    QuietPieces(w, Normal, "\n", rest);
    var ps := Glue("\n", Pieces(w, Normal, rest));
    assert Pieces(w, Normal, ";\n" + rest) == [""] + ps;
    assert x + "" == x && Glue(x, [""] + ps) == [x] + ps;
  }

  lemma KeepFirst(t: string, ps: seq<string>)
    requires t != "" && Tight(t) && ps != []
    ensures Keep([t + "\n"] + Glue("\n", ps)) == [t] + Keep(ps)
  {
    StripBetween("", t, "\n");
    assert "" + t + "\n" == t + "\n";
    var qs := Glue("\n", ps);
    assert ([t + "\n"] + qs)[1..] == qs;
    StripAround("\n", ps[0], "");
    assert "\n" + ps[0] + "" == "\n" + ps[0];
    assert qs[1..] == ps[1..];
  }

  /** The scanning loop's round trip, for every script: across quotes, dollar quotes and comments. */
  lemma StatementsRoundTrip(w: Alnum, s: string)
    ensures Statements(w, Join(SEPARATOR, Statements(w, s))) == Statements(w, s)
  {
    PiecesAreProper(w, Normal, s);
    KeptAreSplittable(w, Pieces(w, Normal, s));
    SplitJoined(w, Statements(w, s));
  }

  // ------------------------------------------------------------- the whole function

  /** Where `str.splitlines` ends a line. */
  predicate IsBreak(c: char) {
    || '\n' <= c <= '\r' || '\U{1C}' <= c <= '\U{1E}' || c == '\U{85}' || c == '\U{2028}' || c == '\U{2029}'
  }

  function LineLength(s: string): (r: nat)
    ensures r <= |s| && (r < |s| ==> IsBreak(s[r])) && forall i :: 0 <= i < r ==> !IsBreak(s[i])
  {
    if s == "" || IsBreak(s[0]) then 0 else 1 + LineLength(s[1..])
  }

  /** A carriage return and a line feed together are one line end. */
  function NextLine(s: string): (r: nat)
    requires s != ""
    ensures LineLength(s) <= r <= |s| && r > 0
  {
    var k := LineLength(s);
    if k == |s| then k else if s[k] == '\r' && At(s, k + 1, '\n') then k + 2 else k + 1
  }

  function SplitLines(s: string): (r: seq<string>) {
    if s == "" then [] else [s[..LineLength(s)]] + SplitLines(s[NextLine(s)..])
  }

  /** A psql meta-command. */
  predicate IsMeta(line: string) {
    line != "" && line[0] == '\\'
  }

  function NoMeta(lines: seq<string>): (r: seq<string>) {
    Filter(l => !IsMeta(l), lines)
  }

  function Clean(s: string): (r: string) {
    Join("\n", NoMeta(SplitLines(s)))
  }

  /** The splitter: meta-commands are dropped, the rest is scanned. */
  function Split(w: Alnum, s: string): (r: seq<string>) {
    Statements(w, Clean(s))
  }

  method SplitSql(w: Alnum, sql: string) returns (stmts: seq<string>)
    ensures stmts == Split(w, sql)
  {
    var lines := SplitLines(sql);
    var cleaned: seq<string> := [];
    for i := 0 to |lines|
      invariant cleaned == NoMeta(lines[..i])
    {
      assert lines[..i + 1] == lines[..i] + [lines[i]];
      FilterConcat(l => !IsMeta(l), lines[..i], [lines[i]]);
      if IsMeta(lines[i]) { continue; }
      cleaned := cleaned + [lines[i]];
    }
    assert lines[..|lines|] == lines;
    stmts := Scan(w, Join("\n", cleaned));
  }

  // Text in which a line never starts with a backslash.

  predicate EndsLine(u: string, start: bool) {
    if u == "" then start else u[|u| - 1] == '\n'
  }

  predicate Safe(u: string, start: bool) {
    u == "" || (!(start && u[0] == '\\') && Safe(u[1..], u[0] == '\n'))
  }

  ghost predicate OneBreak(u: string) {
    forall i :: 0 <= i < |u| && IsBreak(u[i]) ==> u[i] == '\n'
  }

  lemma {:induction false} SafeConcat(u: string, v: string, start: bool)
    ensures Safe(u + v, start) <==> Safe(u, start) && Safe(v, EndsLine(u, start))
    decreases |u|
  {
    if u == "" {
      assert u + v == v;
    } else {
      assert (u + v)[1..] == u[1..] + v;
      SafeConcat(u[1..], v, u[0] == '\n');
    }
  }

  lemma SafeAnyway(u: string, start: bool)
    requires Safe(u, start)
    ensures Safe(u, false)
    ensures !IsMeta(u) ==> Safe(u, true)
  {
  }

  lemma {:induction false} LineIsSafe(line: string)
    requires forall i :: 0 <= i < |line| ==> !IsBreak(line[i])
    ensures Safe(line, false) && !EndsLine(line, false)
  {
    if line == "" {
    } else {
      LineIsSafe(line[1..]);
    }
  }

  ghost predicate AreLines(ls: seq<string>) {
    forall k :: 0 <= k < |ls| ==> !IsMeta(ls[k]) && forall i :: 0 <= i < |ls[k]| ==> !IsBreak(ls[k][i])
  }

  lemma {:induction false} JoinedLinesAreSafe(ls: seq<string>)
    requires AreLines(ls)
    ensures Safe(Join("\n", ls), true) && OneBreak(Join("\n", ls))
  {
    if ls == [] {
    } else {
      LineIsSafe(ls[0]);
      SafeAnyway(ls[0], false);
      if |ls| > 1 {
        JoinedLinesAreSafe(ls[1..]);
        var rest := Join("\n", ls[1..]);
        SafeConcat(ls[0], "\n" + rest, true);
        assert ("\n" + rest)[1..] == rest;
        assert ls[0] + "\n" + rest == ls[0] + ("\n" + rest);
      }
    }
  }

  lemma {:induction false} SplitLinesAre(s: string)
    ensures forall l :: l in SplitLines(s) ==> forall i :: 0 <= i < |l| ==> !IsBreak(l[i])
  {
    if s == "" {
    } else {
      SplitLinesAre(s[NextLine(s)..]);
    }
  }

  lemma CleanIsSafe(s: string)
    ensures Safe(Clean(s), true) && OneBreak(Clean(s))
  {
    var ls := NoMeta(SplitLines(s));
    SplitLinesAre(s);
    FilterElems(l => !IsMeta(l), SplitLines(s));
    assert forall k :: 0 <= k < |ls| ==> ls[k] in ls;
    JoinedLinesAreSafe(ls);
  }

  /** Text that is clean already is left alone, but for a line break at its end. */
  lemma {:induction false} CleanOfSafe(u: string)
    requires Safe(u, true) && OneBreak(u) && !EndsLine(u, false)
    ensures Clean(u) == u && (u != "" ==> SplitLines(u) != [])
    ensures NoMeta(SplitLines(u)) == SplitLines(u)
  {
    if u == "" {
    } else {
      var k := LineLength(u);
      var line, rest := u[..k], u[NextLine(u)..];
      assert u == line + u[k..];
      SafeConcat(line, u[k..], true);
      if k < |u| {
        assert u[k] == '\n' && u[k..][1..] == rest;
        assert u == line + "\n" + rest;
        CleanOfSafe(rest);
      }
      CleanLine(line, SplitLines(rest));
    }
  }

  lemma CleanLine(line: string, lines: seq<string>)
    requires !IsMeta(line) && NoMeta(lines) == lines
    ensures NoMeta([line] + lines) == [line] + lines
    ensures Join("\n", [line] + lines) == if lines == [] then line else line + "\n" + Join("\n", lines)
  {
    FilterHead(l => !IsMeta(l), line, lines);
    assert ([line] + lines)[1..] == lines;
  }

  function Backslashes(u: string): (r: nat) {
    if u == "" then 0 else (if u[0] == '\\' then 1 else 0) + Backslashes(u[1..])
  }

  function InAll(ls: seq<string>): (r: nat) {
    if ls == [] then 0 else Backslashes(ls[0]) + InAll(ls[1..])
  }

  lemma {:induction false} BackslashesConcat(u: string, v: string)
    ensures Backslashes(u + v) == Backslashes(u) + Backslashes(v)
  {
    if u == "" {
      assert u + v == v;
    } else {
      assert (u + v)[1..] == u[1..] + v;
      BackslashesConcat(u[1..], v);
    }
  }

  lemma {:induction false} BackslashesJoin(sep: string, ls: seq<string>)
    ensures InAll(ls) <= Backslashes(Join(sep, ls))
    ensures Backslashes(sep) == 0 ==> Backslashes(Join(sep, ls)) == InAll(ls)
  {
    if |ls| > 1 {
      BackslashesJoin(sep, ls[1..]);
      BackslashesConcat(ls[0] + sep, Join(sep, ls[1..]));
      BackslashesConcat(ls[0], sep);
    } else if |ls| == 1 {
      assert InAll(ls[1..]) == 0;
    }
  }

  /** Cleaning only takes backslashes away, and takes one if a line starts with one. */
  lemma {:induction false} CleaningCounts(u: string)
    requires OneBreak(u)
    ensures InAll(NoMeta(SplitLines(u))) <= Backslashes(u)
    ensures !Safe(u, true) ==> InAll(NoMeta(SplitLines(u))) < Backslashes(u)
  {
    if u == "" {
    } else {
      var k := LineLength(u);
      var line, tail, rest := u[..k], u[k..], u[NextLine(u)..];
      assert u == line + tail;
      LineIsSafe(line);
      SafeAnyway(line, false);
      SafeConcat(line, tail, true);
      BackslashesConcat(line, tail);
      FilterHead(l => !IsMeta(l), line, SplitLines(rest));
      var kept := NoMeta(SplitLines(rest));
      assert ([line] + kept)[1..] == kept && [] + kept == kept;
      CleaningCounts(rest);
      if k < |u| { assert tail[0] == '\n' && tail[1..] == rest; }
    }
  }

  lemma {:induction false} KeptCounts(ps: seq<string>)
    ensures InAll(Keep(ps)) <= InAll(ps)
  {
    if ps == [] {
    } else {
      KeptCounts(ps[1..]);
      var a, b := StripParts(ps[0]);
      var t := Strip(ps[0]);
      BackslashesConcat(a + t, b);
      BackslashesConcat(a, t);
      assert t == "" ==> Keep(ps) == Keep(ps[1..]);
      assert t != "" ==> Keep(ps)[1..] == Keep(ps[1..]);
    }
  }

  ghost predicate NoneMeta(ts: seq<string>) {
    forall i :: 0 <= i < |ts| ==> !IsMeta(ts[i])
  }

  /** Statements of clean text: their lines are clean too, but for how they start. */
  ghost predicate CleanInside(ts: seq<string>) {
    forall i :: 0 <= i < |ts| ==> Safe(ts[i], false) && OneBreak(ts[i]) && Tight(ts[i]) && ts[i] != ""
  }

  lemma OneBreakParts(a: string, b: string, u: string)
    requires u == a + ";" + b && OneBreak(u)
    ensures OneBreak(a) && OneBreak(b)
  {
    assert forall i :: 0 <= i < |a| ==> a[i] == u[i];
    assert forall i :: 0 <= i < |b| ==> b[i] == u[i + |a| + 1];
  }

  lemma {:induction false} PiecesAreClean(ps: seq<string>, start: bool)
    requires Safe(Join(";", ps), start) && OneBreak(Join(";", ps))
    ensures forall i :: 0 <= i < |ps| ==> Safe(ps[i], false) && OneBreak(ps[i])
  {
    if |ps| == 1 {
      SafeAnyway(ps[0], start);
    } else if |ps| > 1 {
      var rest := Join(";", ps[1..]);
      assert ps[0] + ";" + rest == ps[0] + (";" + rest) && (";" + rest)[1..] == rest;
      SafeConcat(ps[0], ";" + rest, start);
      SafeAnyway(ps[0], start);
      OneBreakParts(ps[0], rest, Join(";", ps));
      PiecesAreClean(ps[1..], false);
      assert forall i :: 1 <= i < |ps| ==> ps[i] == ps[1..][i - 1];
    }
  }

  lemma {:induction false} KeptAreClean(ps: seq<string>)
    requires forall i :: 0 <= i < |ps| ==> Safe(ps[i], false) && OneBreak(ps[i])
    ensures CleanInside(Keep(ps))
  {
    if ps == [] {
    } else {
      KeptAreClean(ps[1..]);
      var a, b := StripParts(ps[0]);
      var t := Strip(ps[0]);
      SafeConcat(a + t, b, false);
      SafeConcat(a, t, false);
      SafeAnyway(t, EndsLine(a, false));
      assert forall i :: 0 <= i < |t| ==> t[i] == ps[0][i + |a|];
    }
  }

  lemma {:induction false} JoinedStatementsSafe(ts: seq<string>)
    requires CleanInside(ts)
    ensures Safe(Join(SEPARATOR, ts), true) <==> NoneMeta(ts)
    ensures OneBreak(Join(SEPARATOR, ts)) && !EndsLine(Join(SEPARATOR, ts), false)
  {
    if ts == [] {
    } else {
      SafeAnyway(ts[0], false);
      assert !EndsLine(ts[0], false);
      if |ts| > 1 {
        JoinedStatementsSafe(ts[1..]);
        var rest := Join(SEPARATOR, ts[1..]);
        JoinStepSafe(ts[0], rest);
        assert NoneMeta(ts) <==> !IsMeta(ts[0]) && NoneMeta(ts[1..]) by {
          assert forall i :: 1 <= i < |ts| ==> ts[i] == ts[1..][i - 1];
        }
        assert rest != "" by { if |ts| > 2 { assert rest == ts[1] + SEPARATOR + Join(SEPARATOR, ts[1..][1..]); } }
      }
    }
  }

  lemma JoinStepSafe(t: string, rest: string)
    requires t != "" && !EndsLine(t, false)
    ensures Safe(t + SEPARATOR + rest, true) <==> Safe(t, true) && Safe(rest, true)
  {
    SafeConcat(t + SEPARATOR, rest, true);
    SafeConcat(t, SEPARATOR, true);
    assert SEPARATOR[1..] == ";\n" && SEPARATOR[1..][1..] == "\n" && SEPARATOR[1..][1..][1..] == "";
    assert (t + SEPARATOR)[|t + SEPARATOR| - 1] == '\n';
  }

  /** Splitting what was split, statement by statement, gives the same statements
      exactly when none of them starts with a backslash: such a statement would be
      taken for a meta-command. */
  lemma SplitRoundTripExactly(w: Alnum, s: string)
    ensures var ts := Split(w, s); Split(w, Join(SEPARATOR, ts)) == ts <==> NoneMeta(ts)
  {
    var c := Clean(s);
    var ps, ts := Pieces(w, Normal, c), Split(w, s);
    var u := Join(SEPARATOR, ts);
    CleanIsSafe(s);
    PiecesJoin(w, Normal, c);
    PiecesAreClean(ps, true);
    KeptAreClean(ps);
    JoinedStatementsSafe(ts);
    if NoneMeta(ts) {
      CleanOfSafe(u);
      StatementsRoundTrip(w, c);
    } else {
      LostBackslash(w, u, ts);
    }
  }

  lemma LostBackslash(w: Alnum, u: string, ts: seq<string>)
    requires u == Join(SEPARATOR, ts) && OneBreak(u) && !Safe(u, true)
    ensures Split(w, u) != ts
  {
    var d := Clean(u);
    CleaningCounts(u);
    BackslashesJoin(SEPARATOR, ts);
    BackslashesJoin("\n", NoMeta(SplitLines(u)));
    PiecesJoin(w, Normal, d);
    BackslashesJoin(";", Pieces(w, Normal, d));
    KeptCounts(Pieces(w, Normal, d));
    assert Backslashes(SEPARATOR) == 0 && Backslashes("\n") == 0 by {
      assert SEPARATOR[1..] == ";\n" && SEPARATOR[1..][1..] == "\n" && SEPARATOR[1..][1..][1..] == "";
    }
  }

  /** There are such statements: a backslash after a space is no meta-command at first. */
  lemma BackslashStatement(w: Alnum)
    ensures var s := " \\a"; Split(w, s) == ["\\a"] && Split(w, Join(SEPARATOR, Split(w, s))) != Split(w, s)
  {
    var s, t := " \\a", "\\a";
    LineIsSafe(s);
    SafeAnyway(s, false);
    CleanOfSafe(s);
    QuietPieces(w, Normal, s, "");
    assert s[1..] == t && t[1..] == "a" && "a"[1..] == "" && s + "" == s;
    assert Pieces(w, Normal, s) == [s];
    StripBetween(" ", t, "");
    assert " " + t + "" == s;
    assert [s][1..] == [] && Split(w, s) == [t];
    SplitRoundTripExactly(w, s);
    assert IsMeta(Split(w, s)[0]);
  }
}
