/** Splitting a SQL script into statements: a character-by-character machine as the
    reference, and the index loop with mode flags and look-ahead that refines it. */
module SqlLexer {
  import opened Wrappers

  /** What `str.strip` removes. */
  predicate IsSpace(c: char) {
    || '\t' <= c <= '\r' || '\U{1C}' <= c <= ' ' || c == '\U{85}' || c == '\U{A0}' || c == '\U{1680}'
    || '\U{2000}' <= c <= '\U{200A}' || c == '\U{2028}' || c == '\U{2029}' || c == '\U{202F}'
    || c == '\U{205F}' || c == '\U{3000}'
  }

  predicate IsMark(c: char) {
    c == '$' || c == ';' || c == '\'' || c == '"' || c == '-' || c == '/' || c == '*' || c == '\\'
  }

  /** Any classification of letters and digits, whatever the version of Unicode. */
  type Alnum = f: char -> bool | forall c :: f(c) ==> !IsSpace(c) && !IsMark(c) witness (c: char) => '0' <= c <= '9'

  predicate IsTagChar(w: Alnum, c: char) {
    w(c) || c == '_'
  }

  // ---------------------------------------------------------------- reference

  /** Where the machine stands. `Dash`, `Slash` and `Tag` have seen the start of
      something that may yet turn out to be nothing; `Dollar` has matched `got`
      characters of its closing tag. */
  datatype Mode =
    | Normal | Dash | Slash | Tag(tag: string)
    | Line | Block | Star | Single | Double | Dollar(tag: string, got: nat)

  predicate Plain(m: Mode) {
    m.Normal? || m.Dash? || m.Slash? || m.Tag?
  }

  function FromNormal(c: char): (m: Mode) {
    if c == '-' then Dash
    else if c == '/' then Slash
    else if c == '\'' then Single
    else if c == '"' then Double
    else if c == '$' then Tag("$")
    else Normal
  }

  function Next(w: Alnum, m: Mode, c: char): (r: Mode) {
    match m
    case Normal => FromNormal(c)
    case Dash => if c == '-' then Line else FromNormal(c)
    case Slash => if c == '*' then Block else FromNormal(c)
    case Tag(t) =>
      if IsTagChar(w, c) then Tag(t + [c]) else if c == '$' then Dollar(t + [c], 0) else FromNormal(c)
    case Line => if c == '\n' then Normal else Line
    case Block => if c == '*' then Star else Block
    case Star => if c == '/' then Normal else if c == '*' then Star else Block
    case Single => if c == '\'' then Normal else Single
    case Double => if c == '"' then Normal else Double
    case Dollar(t, g) =>
      var now := if g < |t| && t[g] == c then g + 1 else if c == '$' then 1 else 0;
      if now == |t| then Normal else Dollar(t, now)
  }

  /** A semicolon that ends a statement. */
  predicate Separates(m: Mode, c: char) {
    Plain(m) && c == ';'
  }

  /** Puts text in front of the first piece. */
  function Glue(x: string, ps: seq<string>): (r: seq<string>)
    requires ps != []
  {
    [x + ps[0]] + ps[1..]
  }

  /** The pieces between the separators, when the machine starts in mode `m`. */
  function Pieces(w: Alnum, m: Mode, s: string): (r: seq<string>)
    ensures r != []
    decreases |s|
  {
    if s == "" then [""]
    else if Separates(m, s[0]) then [""] + Pieces(w, Normal, s[1..])
    else Glue([s[0]], Pieces(w, Next(w, m, s[0]), s[1..]))
  }

  function StripLeft(s: string): (r: string) {
    if s != "" && IsSpace(s[0]) then StripLeft(s[1..]) else s
  }

  function StripRight(s: string): (r: string) {
    if s != "" && IsSpace(s[|s| - 1]) then StripRight(s[..|s| - 1]) else s
  }

  function Strip(s: string): (r: string) {
    StripRight(StripLeft(s))
  }

  /** The pieces that are more than white space, stripped. */
  function Keep(ps: seq<string>): (r: seq<string>) {
    if ps == [] then []
    else (if Strip(ps[0]) != "" then [Strip(ps[0])] else []) + Keep(ps[1..])
  }

  function Statements(w: Alnum, s: string): (r: seq<string>) {
    Keep(Pieces(w, Normal, s))
  }

  // --------------------------------------------------------- running the machine

  function End(w: Alnum, m: Mode, x: string): (r: Mode)
    decreases |x|
  {
    if x == "" then m else End(w, Next(w, m, x[0]), x[1..])
  }

  /** No separator is met. */
  predicate Quiet(w: Alnum, m: Mode, x: string)
    decreases |x|
  {
    x == "" || (!Separates(m, x[0]) && Quiet(w, Next(w, m, x[0]), x[1..]))
  }

  lemma GlueGlue(x: string, y: string, ps: seq<string>)
    requires ps != []
    ensures Glue(x, Glue(y, ps)) == Glue(x + y, ps) && Glue("", ps) == ps
  {
    assert x + (y + ps[0]) == x + y + ps[0] && "" + ps[0] == ps[0];
    assert Glue(y, ps)[1..] == ps[1..];
  }

  lemma {:induction false} QuietPieces(w: Alnum, m: Mode, x: string, y: string)
    requires Quiet(w, m, x)
    ensures Pieces(w, m, x + y) == Glue(x, Pieces(w, End(w, m, x), y))
    decreases |x|
  {
    if x == "" {
      assert x + y == y;
      GlueGlue("", "", Pieces(w, m, y));
    } else {
      QuietPieces(w, Next(w, m, x[0]), x[1..], y);
      assert (x + y)[1..] == x[1..] + y;
      assert [x[0]] + x[1..] == x;
      GlueGlue([x[0]], x[1..], Pieces(w, End(w, m, x), y));
    }
  }

  /** The loop's step: the text from `i` to `k` moves to the buffer. */
  lemma Advance(w: Alnum, s: string, i: nat, k: nat, m: Mode, buf: string)
    requires i <= k <= |s| && Quiet(w, m, s[i..k])
    ensures Glue(buf, Pieces(w, m, s[i..])) == Glue(buf + s[i..k], Pieces(w, End(w, m, s[i..k]), s[k..]))
  {
    QuietPieces(w, m, s[i..k], s[k..]);
    assert s[i..] == s[i..k] + s[k..];
    GlueGlue(buf, s[i..k], Pieces(w, End(w, m, s[i..k]), s[k..]));
  }

  // --------------------------------------------------------------- the scanning loop

  predicate At(s: string, i: nat, c: char) {
    i < |s| && s[i] == c
  }

  predicate StartsAt(s: string, i: nat, t: string) {
    i + |t| <= |s| && s[i..i + |t|] == t
  }

  /** A dollar tag: nothing but tag characters between its two dollar signs. */
  ghost predicate IsTag(w: Alnum, t: string) {
    |t| >= 2 && t[0] == '$' && t[|t| - 1] == '$' && forall k :: 0 < k < |t| - 1 ==> IsTagChar(w, t[k])
  }

  /** The tag characters from `i` on do not end in a dollar sign. */
  ghost predicate NoTag(w: Alnum, s: string, i: nat)
    decreases |s| - i
  {
    i < |s| ==> if IsTagChar(w, s[i]) then NoTag(w, s, i + 1) else s[i] != '$'
  }

  lemma {:induction false} NoTagFrom(w: Alnum, s: string, i: nat, j: nat)
    requires i <= j <= |s| && forall k :: i <= k < j ==> IsTagChar(w, s[k])
    requires j < |s| ==> s[j] != '$' && !IsTagChar(w, s[j])
    ensures NoTag(w, s, i)
    decreases j - i
  {
    if i >= j {
    } else {
      NoTagFrom(w, s, i + 1, j);
    }
  }

  datatype Flags = Flags(line: bool, block: bool, dollar: Option<string>, single: bool, double: bool)
  const OFF := Flags(false, false, None, false, false)

  /** The loop's flags describe the machine's mode at position `i`; what the loop has
      ruled out by looking ahead, the machine will see in its next steps. */
  ghost predicate Agrees(w: Alnum, s: string, i: nat, f: Flags, m: Mode) {
    i <= |s| &&
    match m
    case Normal => f == OFF
    case Dash => f == OFF && !At(s, i, '-')
    case Slash => f == OFF && !At(s, i, '*')
    case Tag(_) => f == OFF && NoTag(w, s, i)
    case Line => f == OFF.(line := true)
    case Block => f == OFF.(block := true)
    case Star => f == OFF.(block := true) && !At(s, i, '/')
    case Single => f == OFF.(single := true)
    case Double => f == OFF.(double := true)
    case Dollar(t, g) =>
      && f == OFF.(dollar := Some(t)) && IsTag(w, t) && g < |t| && g <= i && s[i - g..i] == t[..g]
      && (g > 0 ==> !StartsAt(s, i - g, t))
  }

  /** One iteration: from `i` to `k` without a separator, flags and mode in step. */
  ghost predicate Moves(w: Alnum, s: string, i: nat, f: Flags, m: Mode, k: nat, g: Flags) {
    && i < k <= |s| && Quiet(w, m, s[i..k])
    && Agrees(w, s, k, g, End(w, m, s[i..k]))
  }

  lemma One(w: Alnum, s: string, i: nat, m: Mode)
    requires i < |s|
    ensures End(w, m, s[i..i + 1]) == Next(w, m, s[i])
    ensures Quiet(w, m, s[i..i + 1]) <==> !Separates(m, s[i])
  {
    assert s[i..i + 1] == [s[i]];
    assert s[i..i + 1][1..] == "";
  }

  lemma Two(w: Alnum, s: string, i: nat, m: Mode)
    requires i + 1 < |s| && !Separates(m, s[i]) && !Separates(Next(w, m, s[i]), s[i + 1])
    ensures End(w, m, s[i..i + 2]) == Next(w, Next(w, m, s[i]), s[i + 1])
    ensures Quiet(w, m, s[i..i + 2])
  {
    assert s[i..i + 2][1..] == s[i + 1..i + 2];
    One(w, s, i + 1, Next(w, m, s[i]));
  }

  /** Outside a plain mode nothing separates. */
  lemma Inside(w: Alnum, s: string, i: nat, f: Flags, m: Mode)
    requires Agrees(w, s, i, f, m) && i < |s| && f != OFF && f.dollar == None
    ensures f.line ==> Moves(w, s, i, f, m, i + 1, if s[i] == '\n' then OFF else f)
    ensures f.block && s[i] == '*' && At(s, i + 1, '/') ==> Moves(w, s, i, f, m, i + 2, OFF)
    ensures f.block && !(s[i] == '*' && At(s, i + 1, '/')) ==> Moves(w, s, i, f, m, i + 1, f)
    ensures f.single && s[i] == '\'' && At(s, i + 1, '\'') ==> Moves(w, s, i, f, m, i + 2, f)
    ensures f.single && !(s[i] == '\'' && At(s, i + 1, '\'')) ==>
              Moves(w, s, i, f, m, i + 1, if s[i] == '\'' then OFF else f)
    ensures f.double ==> Moves(w, s, i, f, m, i + 1, if s[i] == '"' then OFF else f)
  {
    One(w, s, i, m);
    if (f.block && s[i] == '*' && At(s, i + 1, '/')) || (f.single && s[i] == '\'' && At(s, i + 1, '\'')) {
      Two(w, s, i, m);
    }
  }

  /** Outside quotes and comments: two dashes, a slash and a star, a quote, or any
      other character that starts nothing. */
  lemma Outside(w: Alnum, s: string, i: nat, m: Mode)
    requires Agrees(w, s, i, OFF, m) && i < |s| && s[i] != '$' && s[i] != ';'
    ensures s[i] == '-' && At(s, i + 1, '-') ==> Moves(w, s, i, OFF, m, i + 2, OFF.(line := true))
    ensures s[i] == '/' && At(s, i + 1, '*') ==> Moves(w, s, i, OFF, m, i + 2, OFF.(block := true))
    ensures s[i] == '\'' ==> Moves(w, s, i, OFF, m, i + 1, OFF.(single := true))
    ensures s[i] == '"' ==> Moves(w, s, i, OFF, m, i + 1, OFF.(double := true))
    ensures !(s[i] == '-' && At(s, i + 1, '-')) && !(s[i] == '/' && At(s, i + 1, '*'))
            && s[i] != '\'' && s[i] != '"' ==>
              Moves(w, s, i, OFF, m, i + 1, OFF)
  {
    One(w, s, i, m);
    if m.Tag? { TagFails(w, s, i, m); }
    if (s[i] == '-' && At(s, i + 1, '-')) || (s[i] == '/' && At(s, i + 1, '*')) { Two(w, s, i, m); }
  }

  /** Where no tag ends, the machine gives up on it, or goes on collecting in vain. */
  lemma TagFails(w: Alnum, s: string, i: nat, m: Mode)
    requires m.Tag? && i < |s| && NoTag(w, s, i)
    ensures s[i] != '$'
    ensures if IsTagChar(w, s[i]) then Next(w, m, s[i]) == Tag(m.tag + [s[i]]) && NoTag(w, s, i + 1)
            else Next(w, m, s[i]) == FromNormal(s[i])
  {
  }

  lemma {:induction false} Collects(w: Alnum, s: string, i: nat, j: nat, t: string)
    requires i <= j <= |s| && forall k :: i <= k < j ==> IsTagChar(w, s[k])
    ensures Quiet(w, Tag(t), s[i..j]) && End(w, Tag(t), s[i..j]) == Tag(t + s[i..j])
    decreases j - i
  {
    if i >= j {
    } else {
      Collects(w, s, i + 1, j, t + [s[i]]);
      assert s[i..j][1..] == s[i + 1..j];
      assert t + [s[i]] + s[i + 1..j] == t + s[i..j];
    }
  }

  lemma {:induction false} EndOfConcat(w: Alnum, m: Mode, x: string, y: string)
    ensures End(w, m, x + y) == End(w, End(w, m, x), y)
    ensures Quiet(w, m, x + y) <==> Quiet(w, m, x) && Quiet(w, End(w, m, x), y)
    decreases |x|
  {
    if x == "" {
      assert x + y == y;
    } else {
      assert (x + y)[1..] == x[1..] + y;
      EndOfConcat(w, Next(w, m, x[0]), x[1..], y);
    }
  }

  /** A dollar sign outside quotes: the tag it opens, or nothing. */
  lemma OpensTag(w: Alnum, s: string, i: nat, m: Mode, j: nat)
    requires Agrees(w, s, i, OFF, m) && At(s, i, '$') && i < j <= |s|
    requires forall k :: i < k < j ==> IsTagChar(w, s[k])
    requires j < |s| ==> !IsTagChar(w, s[j])
    ensures At(s, j, '$') ==> Moves(w, s, i, OFF, m, j + 1, OFF.(dollar := Some(s[i..j + 1])))
    ensures !At(s, j, '$') ==> Moves(w, s, i, OFF, m, i + 1, OFF)
  {
    if m.Tag? { TagFails(w, s, i, m); }
    if At(s, j, '$') {
      OpensAt(w, s, i, m, j);
    } else {
      OpensNone(w, s, i, m, j);
    }
  }

  lemma OpensAt(w: Alnum, s: string, i: nat, m: Mode, j: nat)
    requires Agrees(w, s, i, OFF, m) && At(s, i, '$') && i < j < |s| && At(s, j, '$')
    requires Plain(m) && Next(w, m, '$') == Tag("$") && forall k :: i < k < j ==> IsTagChar(w, s[k])
    ensures Moves(w, s, i, OFF, m, j + 1, OFF.(dollar := Some(s[i..j + 1])))
  {
    TagRun(w, s, i, m, j);
    TagText(s, i, j);
    IsTagText(w, s[i + 1..j], s[i..j + 1]);
  }

  lemma OpensNone(w: Alnum, s: string, i: nat, m: Mode, j: nat)
    requires Agrees(w, s, i, OFF, m) && At(s, i, '$') && i < j <= |s| && !At(s, j, '$')
    requires Plain(m) && Next(w, m, '$') == Tag("$")
    requires (forall k :: i < k < j ==> IsTagChar(w, s[k])) && (j < |s| ==> !IsTagChar(w, s[j]))
    ensures Moves(w, s, i, OFF, m, i + 1, OFF)
  {
    One(w, s, i, m);
    NoTagFrom(w, s, i + 1, j);
  }

  lemma TagRun(w: Alnum, s: string, i: nat, m: Mode, j: nat)
    requires Plain(m) && Next(w, m, '$') == Tag("$") && At(s, i, '$') && i < j && At(s, j, '$')
    requires forall k :: i < k < j ==> IsTagChar(w, s[k])
    ensures Quiet(w, m, s[i..j + 1]) && End(w, m, s[i..j + 1]) == Dollar(s[i..j + 1], 0)
  {
    var inner, last := s[i + 1..j], s[j..j + 1];
    TagText(s, i, j);
    One(w, s, i, m);
    Collects(w, s, i + 1, j, "$");
    One(w, s, j, Tag("$" + inner));
    EndOfConcat(w, m, s[i..i + 1], inner + last);
    EndOfConcat(w, Tag("$"), inner, last);
  }

  lemma IsTagText(w: Alnum, inner: string, t: string)
    requires t == "$" + inner + "$" && forall k :: 0 <= k < |inner| ==> IsTagChar(w, inner[k])
    ensures IsTag(w, t)
  {
    assert forall k :: 0 < k < |t| - 1 ==> t[k] == inner[k - 1];
  }

  lemma TagText(s: string, i: nat, j: nat)
    requires At(s, i, '$') && i < j < |s|
    ensures s[i..j + 1] == s[i..i + 1] + (s[i + 1..j] + s[j..j + 1]) == "$" + s[i + 1..j] + [s[j]]
  {
  }

  lemma {:induction false} ClosesFrom(w: Alnum, t: string, g: nat)
    requires IsTag(w, t) && 0 < g < |t|
    ensures Quiet(w, Dollar(t, g), t[g..]) && End(w, Dollar(t, g), t[g..]) == Normal
    decreases |t| - g
  {
    assert t[g..][1..] == t[g + 1..];
    if g >= |t| - 1 {
    } else {
      ClosesFrom(w, t, g + 1);
    }
  }

  /** Inside a dollar quote: its closing tag, or one more character. */
  lemma InsideDollar(w: Alnum, s: string, i: nat, f: Flags, m: Mode)
    requires Agrees(w, s, i, f, m) && i < |s| && f.dollar.Some?
    ensures var t := f.dollar.value;
      if StartsAt(s, i, t) then At(s, i, '$') && Moves(w, s, i, f, m, i + |t|, OFF)
      else Moves(w, s, i, f, m, i + 1, f)
  {
    var t, g := m.tag, m.got;
    if StartsAt(s, i, t) {
      assert s[i..i + |t|][0] == s[i];
      DollarRestarts(w, s, i, m);
      ClosesFrom(w, t, 1);
      assert t[0..1] + t[1..] == t;
      assert t[0..1] == [s[i]] == s[i..i + 1];
      One(w, s, i, m);
      EndOfConcat(w, m, t[0..1], t[1..]);
    } else {
      One(w, s, i, m);
      DollarStep(w, s, i, m);
    }
  }

  lemma MatchGrows(s: string, i: nat, t: string, g: nat)
    requires g <= i < |s| && g < |t| && s[i - g..i] == t[..g]
    ensures s[i] == t[g] ==> s[i - g..i + 1] == t[..g + 1]
    ensures s[i] == t[g] && g == |t| - 1 ==> StartsAt(s, i - g, t)
  {
    if s[i] == t[g] {
      assert s[i - g..i + 1] == s[i - g..i] + [s[i]] && t[..g + 1] == t[..g] + [t[g]];
      assert t[..|t|] == t;
    }
  }

  /** At a true start of the closing tag, an earlier partial match is abandoned. */
  lemma DollarRestarts(w: Alnum, s: string, i: nat, m: Mode)
    requires m.Dollar? && Agrees(w, s, i, OFF.(dollar := Some(m.tag)), m) && At(s, i, '$')
    ensures Next(w, m, '$') == Dollar(m.tag, 1)
  {
    MatchGrows(s, i, m.tag, m.got);
  }

  lemma DollarStep(w: Alnum, s: string, i: nat, m: Mode)
    requires m.Dollar? && Agrees(w, s, i, OFF.(dollar := Some(m.tag)), m) && i < |s| && !StartsAt(s, i, m.tag)
    ensures Agrees(w, s, i + 1, OFF.(dollar := Some(m.tag)), Next(w, m, s[i]))
  {
    var t, g, c := m.tag, m.got, s[i];
    MatchGrows(s, i, t, g);
    assert s[i..i + 1] == [c] && t[..1] == [t[0]];
    assert s[i + 1..i + 1] == t[..0];
  }

  /** The scanning loop of the splitter: an index, mode flags, a buffer. The loop's
      pieces are those of the machine; `i` grows on every path. */
  method Scan(w: Alnum, s: string) returns (stmts: seq<string>)
    ensures stmts == Statements(w, s)
  {
    stmts := [];
    var buf, i, f := "", 0, OFF;
    ghost var m: Mode := Normal;
    ghost var done: seq<string> := [];
    ScanStarts(w, s);
    while i < |s|
      invariant Agrees(w, s, i, f, m)
      invariant stmts == Keep(done)
      invariant Pieces(w, Normal, s) == done + Glue(buf, Pieces(w, m, s[i..]))
      decreases |s| - i
    {
      if f == OFF && s[i] == ';' {
        var stmt := Strip(buf);
        EndsPiece(w, s, i, m, buf, done);
        if stmt != "" { stmts := stmts + [stmt]; }
        done, buf, m, i := done + [buf], "", Normal, i + 1;
      } else {
        var k, g := Step(w, s, i, f, m);
        Advance(w, s, i, k, m, buf);
        m := End(w, m, s[i..k]);
        buf, i, f := buf + s[i..k], k, g;
      }
    }
    LastPiece(w, s, i, m, buf, done);
    var tail := Strip(buf);
    if tail != "" { stmts := stmts + [tail]; }
  }

  /** What one iteration takes to the buffer, up to `k`, and the flags after it. */
  method Step(w: Alnum, s: string, i: nat, f: Flags, ghost m: Mode) returns (k: nat, g: Flags)
    requires Agrees(w, s, i, f, m) && i < |s| && !(f == OFF && s[i] == ';')
    ensures Moves(w, s, i, f, m, k, g)
  {
    var ch := s[i];
    k, g := i + 1, f;
    if f.line {
      Inside(w, s, i, f, m);
      if ch == '\n' { g := f.(line := false); }
    } else if f.block {
      Inside(w, s, i, f, m);
      if ch == '*' && At(s, i + 1, '/') { k, g := i + 2, f.(block := false); }
    } else if f.dollar.Some? {
      InsideDollar(w, s, i, f, m);
      if ch == '$' && StartsAt(s, i, f.dollar.value) { k, g := i + |f.dollar.value|, f.(dollar := None); }
    } else if f.single {
      Inside(w, s, i, f, m);
      if ch == '\'' && At(s, i + 1, '\'') {
        k := i + 2;
      } else if ch == '\'' {
        g := f.(single := false);
      }
    } else if f.double {
      Inside(w, s, i, f, m);
      if ch == '"' { g := f.(double := false); }
    } else if ch == '$' {
      var j := TagEnd(w, s, i);
      OpensTag(w, s, i, m, j);
      if At(s, j, '$') { k, g := j + 1, f.(dollar := Some(s[i..j + 1])); }
    } else {
      Outside(w, s, i, m);
      if ch == '-' && At(s, i + 1, '-') {
        k, g := i + 2, f.(line := true);
      } else if ch == '/' && At(s, i + 1, '*') {
        k, g := i + 2, f.(block := true);
      } else if ch == '\'' {
        g := f.(single := true);
      } else if ch == '"' {
        g := f.(double := true);
      }
    }
  }

  lemma ScanStarts(w: Alnum, s: string)
    ensures Pieces(w, Normal, s) == [] + Glue("", Pieces(w, Normal, s[0..]))
  {
    assert s[0..] == s;
    GlueGlue("", "", Pieces(w, Normal, s));
  }

  lemma LastPiece(w: Alnum, s: string, i: nat, m: Mode, buf: string, done: seq<string>)
    requires i == |s| && Pieces(w, Normal, s) == done + Glue(buf, Pieces(w, m, s[i..]))
    ensures Statements(w, s) == Keep(done) + (if Strip(buf) != "" then [Strip(buf)] else [])
  {
    assert s[i..] == "" && buf + "" == buf;
    assert Glue(buf, Pieces(w, m, s[i..])) == [buf];
    KeepLast(done, buf);
  }

  /** The end of the tag characters after the dollar sign at `i`. */
  method TagEnd(w: Alnum, s: string, i: nat) returns (j: nat)
    requires i < |s|
    ensures i < j <= |s| && (j < |s| ==> !IsTagChar(w, s[j]))
    ensures forall k :: i < k < j ==> IsTagChar(w, s[k])
  {
    j := i + 1;
    while j < |s| && (w(s[j]) || s[j] == '_')
      invariant i < j <= |s|
      invariant forall k :: i < k < j ==> IsTagChar(w, s[k])
    {
      j := j + 1;
    }
  }

  lemma {:induction false} KeepLast(ps: seq<string>, p: string)
    ensures Keep(ps + [p]) == Keep(ps) + (if Strip(p) != "" then [Strip(p)] else [])
  {
    if ps == [] {
      assert Keep([p][1..]) == [];
    } else {
      assert (ps + [p])[1..] == ps[1..] + [p];
      KeepLast(ps[1..], p);
    }
  }

  lemma EndsPiece(w: Alnum, s: string, i: nat, m: Mode, buf: string, done: seq<string>)
    requires Agrees(w, s, i, OFF, m) && At(s, i, ';')
    ensures done + Glue(buf, Pieces(w, m, s[i..])) == (done + [buf]) + Glue("", Pieces(w, Normal, s[i + 1..]))
    ensures Keep(done + [buf]) == Keep(done) + (if Strip(buf) != "" then [Strip(buf)] else [])
  {
    assert s[i..][1..] == s[i + 1..];
    KeepLast(done, buf);
    EndsGlue(buf, done, Pieces(w, Normal, s[i + 1..]));
  }

  lemma EndsGlue(buf: string, done: seq<string>, ps: seq<string>)
    requires ps != []
    ensures done + Glue(buf, [""] + ps) == (done + [buf]) + Glue("", ps)
  {
    GlueGlue("", "", ps);
    assert ([""] + ps)[1..] == ps && buf + "" == buf;
  }
}
