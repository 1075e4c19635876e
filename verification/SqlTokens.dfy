/** What a SQL script means to the splitter, said without a machine: it is read as
    tokens, and only a semicolon that is a token of its own ends a statement. */
module SqlTokens {
  import opened Wrappers
  import opened SqlLexer
  import opened SqlRoundTrip

  // ------------------------------------------------------------------- the grammar

  /** The text `s[i..k]` starts with a quote and ends with the next one, or with the script. */
  ghost predicate QuotedAt(s: string, i: nat, k: nat, quote: char) {
    && i < k <= |s| && s[i] == quote && (forall j :: i < j < k - 1 ==> s[j] != quote)
    && if i < k - 1 && s[k - 1] == quote then true else k == |s| && (i < k - 1 ==> s[k - 1] != quote)
  }

  /** Two dashes up to the end of the line, or of the script. */
  ghost predicate LineCommentAt(s: string, i: nat, k: nat) {
    && i + 2 <= k <= |s| && s[i] == '-' && s[i + 1] == '-' && (forall j :: i + 2 <= j < k - 1 ==> s[j] != '\n')
    && (k == |s| || (i + 2 < k && s[k - 1] == '\n'))
  }

  /** The two characters at `j` end a block comment. */
  ghost predicate CommentEndsAt(s: string, j: nat) {
    j + 1 < |s| && s[j] == '*' && s[j + 1] == '/'
  }

  /** A slash and a star up to the next star and slash, or to the end of the script. */
  ghost predicate BlockCommentAt(s: string, i: nat, k: nat) {
    && i + 2 <= k <= |s| && s[i] == '/' && s[i + 1] == '*'
    && if i + 4 <= k && CommentEndsAt(s, k - 2) then forall j :: i + 2 <= j < k - 2 ==> !CommentEndsAt(s, j)
       else k == |s| && forall j :: i + 2 <= j < k ==> !CommentEndsAt(s, j)
  }

  /** `s[i..j + 1]` is a dollar tag: letters, digits and underscores between dollar signs. */
  ghost predicate TagAt(w: Alnum, s: string, i: nat, j: nat) {
    i < j < |s| && s[i] == '$' && s[j] == '$' && forall k :: i < k < j ==> w(s[k]) || s[k] == '_'
  }

  /** The first occurrence of a text from a position on; the end of the script if there is none. */
  ghost predicate FirstAt(s: string, from: nat, t: string, c: nat) {
    from <= c <= |s| && (c < |s| ==> StartsAt(s, c, t)) && forall p :: from <= p < c ==> !StartsAt(s, p, t)
  }

  /** A dollar tag up to the next occurrence of the same tag, or to the end of the script. */
  ghost predicate DollarQuoteAt(w: Alnum, s: string, i: nat, j: nat, k: nat) {
    TagAt(w, s, i, j) && ClosesAt(s, j + 1, s[i..j + 1], k)
  }

  ghost predicate ClosesAt(s: string, from: nat, t: string, k: nat) {
    exists c: nat :: FirstAt(s, from, t, c) && k == if c < |s| then c + |t| else c
  }

  /** A character that starts none of these and is no semicolon. */
  ghost predicate OtherAt(w: Alnum, s: string, i: nat, k: nat) {
    && i < |s| && k == i + 1 && s[i] != '\'' && s[i] != '"' && s[i] != ';'
    && (i + 1 < |s| ==> !(s[i] == '-' && s[i + 1] == '-') && !(s[i] == '/' && s[i + 1] == '*'))
    && forall j :: !TagAt(w, s, i, j)
  }

  ghost predicate TokenAt(w: Alnum, s: string, i: nat, k: nat) {
    || QuotedAt(s, i, k, '\'') || QuotedAt(s, i, k, '"') || LineCommentAt(s, i, k) || BlockCommentAt(s, i, k)
    || (exists j :: DollarQuoteAt(w, s, i, j, k)) || OtherAt(w, s, i, k)
  }

  /** From position `i` on the script is read as tokens and semicolons, and these are the
      texts between the semicolons. */
  ghost predicate ReadsAs(w: Alnum, s: string, i: nat, ps: seq<string>)
    requires i <= |s|
    decreases |s| - i
  {
    if i == |s| then ps == [""]
    else if s[i] == ';' then ps != [] && ps[0] == "" && ReadsAs(w, s, i + 1, ps[1..])
    else exists k, rest :: i < k <= |s| && TokenAt(w, s, i, k) && rest != [] && ReadsAs(w, s, k, rest)
                        && ps == Glue(s[i..k], rest)
  }

  // ------------------------------------------------------------ every script can be read

  lemma {:induction false} FirstChar(s: string, i: nat, c: char) returns (j: nat)
    requires i <= |s|
    ensures i <= j <= |s| && (j < |s| ==> s[j] == c) && forall k :: i <= k < j ==> s[k] != c
    decreases |s| - i
  {
    if i == |s| || s[i] == c {
      j := i;
    } else {
      j := FirstChar(s, i + 1, c);
    }
  }

  lemma {:induction false} FirstCommentEnd(s: string, i: nat) returns (j: nat)
    requires i <= |s|
    ensures i <= j <= |s| && (j < |s| ==> CommentEndsAt(s, j)) && forall k :: i <= k < j ==> !CommentEndsAt(s, k)
    decreases |s| - i
  {
    if i == |s| || CommentEndsAt(s, i) {
      j := i;
    } else {
      j := FirstCommentEnd(s, i + 1);
    }
  }

  lemma {:induction false} FirstStart(s: string, i: nat, t: string) returns (j: nat)
    requires i <= |s| && t != ""
    ensures FirstAt(s, i, t, j)
    decreases |s| - i
  {
    if i == |s| || StartsAt(s, i, t) {
      j := i;
    } else {
      j := FirstStart(s, i + 1, t);
    }
  }

  lemma DollarQuoteExists(w: Alnum, s: string, i: nat, j: nat) returns (k: nat)
    requires TagAt(w, s, i, j)
    ensures i < k <= |s| && DollarQuoteAt(w, s, i, j, k)
  {
    var t := s[i..j + 1];
    var c := FirstStart(s, j + 1, t);
    k := if c < |s| then c + |t| else c;
  }

  /** At every position there is a semicolon or a token. */
  lemma TokenExists(w: Alnum, s: string, i: nat) returns (k: nat)
    requires i < |s| && s[i] != ';'
    ensures i < k <= |s| && TokenAt(w, s, i, k)
  {
    if s[i] == '\'' || s[i] == '"' {
      var j := FirstChar(s, i + 1, s[i]);
      k := if j < |s| then j + 1 else j;
      assert QuotedAt(s, i, k, s[i]);
    } else if i + 1 < |s| && s[i] == '-' && s[i + 1] == '-' {
      var j := FirstChar(s, i + 2, '\n');
      k := if j < |s| then j + 1 else j;
      assert LineCommentAt(s, i, k);
    } else if i + 1 < |s| && s[i] == '/' && s[i + 1] == '*' {
      var j := FirstCommentEnd(s, i + 2);
      k := if j < |s| then j + 2 else j;
      assert BlockCommentAt(s, i, k);
    } else if j: nat :| TagAt(w, s, i, j) {
      k := DollarQuoteExists(w, s, i, j);
    } else {
      k := i + 1;
      assert OtherAt(w, s, i, k);
    }
  }

  lemma {:induction false} ReadingExists(w: Alnum, s: string, i: nat) returns (ps: seq<string>)
    requires i <= |s|
    ensures ps != [] && ReadsAs(w, s, i, ps)
    decreases |s| - i
  {
    if i == |s| {
      ps := [""];
    } else if s[i] == ';' {
      var rest := ReadingExists(w, s, i + 1);
      ps := [""] + rest;
      assert ps[1..] == rest;
    } else {
      var k := TokenExists(w, s, i);
      var rest := ReadingExists(w, s, k);
      ps := Glue(s[i..k], rest);
    }
  }

  // ---------------------------------------------------- the machine reads the tokens

  /** The machine passes `s[i..k]` without a separator and is outside again, unless the
      script is over. */
  ghost predicate Passes(w: Alnum, s: string, i: nat, m: Mode, k: nat) {
    && i <= k <= |s| && Quiet(w, m, s[i..k])
    && (k < |s| ==> Agrees(w, s, k, OFF, End(w, m, s[i..k])))
  }

  lemma Compose(w: Alnum, s: string, i: nat, m: Mode, j: nat, k: nat)
    requires i <= j <= k <= |s| && Quiet(w, m, s[i..j]) && Passes(w, s, j, End(w, m, s[i..j]), k)
    ensures Passes(w, s, i, m, k)
  {
    assert s[i..k] == s[i..j] + s[j..k];
    EndOfConcat(w, m, s[i..j], s[j..k]);
  }

  /** Characters that leave the mode as it is. */
  lemma {:induction false} Stays(w: Alnum, s: string, i: nat, m: Mode, j: nat)
    requires i <= j <= |s| && forall k :: i <= k < j ==> Next(w, m, s[k]) == m && !Separates(m, s[k])
    ensures Quiet(w, m, s[i..j]) && End(w, m, s[i..j]) == m
    decreases j - i
  {
    if i < j {
      assert s[i..j][1..] == s[i + 1..j];
      Stays(w, s, i + 1, m, j);
    }
  }

  /** A quote or a line comment: nothing but its last character ends it. */
  lemma RunsToEnd(w: Alnum, s: string, i: nat, m: Mode, k: nat, closing: char)
    requires i <= k <= |s| && (m.Single? || m.Double? || m.Line?)
    requires closing == if m.Single? then '\'' else if m.Double? then '"' else '\n'
    requires forall j :: i <= j < k - 1 ==> s[j] != closing
    requires k == |s| || (i < k && s[k - 1] == closing)
    ensures Passes(w, s, i, m, k)
  {
    if i < k {
      Stays(w, s, i, m, k - 1);
      One(w, s, k - 1, m);
      Compose(w, s, i, m, k - 1, k);
    }
  }

  lemma {:induction false} BlockRuns(w: Alnum, s: string, i: nat, m: Mode, c: nat)
    requires i <= c <= |s| && (m.Block? || (m.Star? && !At(s, i, '/')))
    requires forall j :: i <= j < c ==> !CommentEndsAt(s, j)
    ensures Quiet(w, m, s[i..c])
    ensures var e := End(w, m, s[i..c]); e.Block? || (e.Star? && !At(s, c, '/'))
    decreases c - i
  {
    if i < c {
      assert s[i..c][1..] == s[i + 1..c];
      assert !CommentEndsAt(s, i);
      BlockRuns(w, s, i + 1, Next(w, m, s[i]), c);
    }
  }

  lemma BlockPasses(w: Alnum, s: string, i: nat, m: Mode, k: nat)
    requires i <= k <= |s| && m.Block?
    requires if i + 2 <= k && CommentEndsAt(s, k - 2) then forall j :: i <= j < k - 2 ==> !CommentEndsAt(s, j)
             else k == |s| && forall j :: i <= j < k ==> !CommentEndsAt(s, j)
    ensures Passes(w, s, i, m, k)
  {
    if i + 2 <= k && CommentEndsAt(s, k - 2) {
      BlockRuns(w, s, i, m, k - 2);
      Two(w, s, k - 2, End(w, m, s[i..k - 2]));
      Compose(w, s, i, m, k - 2, k);
    } else {
      BlockRuns(w, s, i, m, k);
    }
  }

  lemma {:induction false} DollarRuns(w: Alnum, s: string, i: nat, m: Mode, t: string, c: nat)
    requires Agrees(w, s, i, OFF.(dollar := Some(t)), m) && i <= c <= |s|
    requires forall p :: i <= p < c ==> !StartsAt(s, p, t)
    ensures Quiet(w, m, s[i..c]) && Agrees(w, s, c, OFF.(dollar := Some(t)), End(w, m, s[i..c]))
    decreases c - i
  {
    if i < c {
      InsideDollar(w, s, i, OFF.(dollar := Some(t)), m);
      DollarRuns(w, s, i + 1, End(w, m, s[i..i + 1]), t, c);
      assert s[i..c] == s[i..i + 1] + s[i + 1..c];
      EndOfConcat(w, m, s[i..i + 1], s[i + 1..c]);
    }
  }

  lemma DollarPasses(w: Alnum, s: string, i: nat, m: Mode, j: nat, k: nat)
    requires Agrees(w, s, i, OFF, m) && DollarQuoteAt(w, s, i, j, k)
    ensures Passes(w, s, i, m, k)
  {
    OpensTag(w, s, i, m, j);
    ClosedPasses(w, s, j + 1, End(w, m, s[i..j + 1]), s[i..j + 1], k);
    Compose(w, s, i, m, j + 1, k);
  }

  lemma ClosedPasses(w: Alnum, s: string, i: nat, m: Mode, t: string, k: nat)
    requires Agrees(w, s, i, OFF.(dollar := Some(t)), m) && ClosesAt(s, i, t, k)
    ensures Passes(w, s, i, m, k)
  {
    var c: nat :| FirstAt(s, i, t, c) && k == if c < |s| then c + |t| else c;
    DollarRuns(w, s, i, m, t, c);
    if c < |s| {
      InsideDollar(w, s, c, OFF.(dollar := Some(t)), End(w, m, s[i..c]));
      Compose(w, s, i, m, c, k);
    }
  }

  lemma OtherPasses(w: Alnum, s: string, i: nat, m: Mode)
    requires Agrees(w, s, i, OFF, m) && OtherAt(w, s, i, i + 1)
    ensures Passes(w, s, i, m, i + 1)
  {
    if s[i] == '$' {
      var j := TagRunEnd(w, s, i + 1);
      assert !TagAt(w, s, i, j);
      OpensTag(w, s, i, m, j);
    } else {
      Outside(w, s, i, m);
    }
  }

  lemma {:induction false} TagRunEnd(w: Alnum, s: string, i: nat) returns (j: nat)
    requires i <= |s|
    ensures i <= j <= |s| && (j < |s| ==> !(w(s[j]) || s[j] == '_'))
    ensures forall k :: i <= k < j ==> w(s[k]) || s[k] == '_'
    decreases |s| - i
  {
    if i == |s| || !(w(s[i]) || s[i] == '_') {
      j := i;
    } else {
      j := TagRunEnd(w, s, i + 1);
    }
  }

  lemma QuotedPasses(w: Alnum, s: string, i: nat, m: Mode, k: nat, quote: char)
    requires Agrees(w, s, i, OFF, m) && QuotedAt(s, i, k, quote) && (quote == '\'' || quote == '"')
    ensures Passes(w, s, i, m, k)
  {
    Outside(w, s, i, m);
    RunsToEnd(w, s, i + 1, if quote == '\'' then Single else Double, k, quote);
    Compose(w, s, i, m, i + 1, k);
  }

  lemma CommentPasses(w: Alnum, s: string, i: nat, m: Mode, k: nat)
    requires Agrees(w, s, i, OFF, m) && (LineCommentAt(s, i, k) || BlockCommentAt(s, i, k))
    ensures Passes(w, s, i, m, k)
  {
    Outside(w, s, i, m);
    if s[i] == '-' { RunsToEnd(w, s, i + 2, Line, k, '\n'); } else { BlockPasses(w, s, i + 2, Block, k); }
    Compose(w, s, i, m, i + 2, k);
  }

  lemma TokenPasses(w: Alnum, s: string, i: nat, m: Mode, k: nat)
    requires Agrees(w, s, i, OFF, m) && TokenAt(w, s, i, k)
    ensures Passes(w, s, i, m, k)
  {
    if QuotedAt(s, i, k, '\'') {
      QuotedPasses(w, s, i, m, k, '\'');
    } else if QuotedAt(s, i, k, '"') {
      QuotedPasses(w, s, i, m, k, '"');
    } else if LineCommentAt(s, i, k) || BlockCommentAt(s, i, k) {
      CommentPasses(w, s, i, m, k);
    } else if j :| DollarQuoteAt(w, s, i, j, k) {
      DollarPasses(w, s, i, m, j, k);
    } else {
      OtherPasses(w, s, i, m);
    }
  }

  lemma {:induction false} ReadingIsPieces(w: Alnum, s: string, i: nat, m: Mode, ps: seq<string>)
    requires i <= |s| && ReadsAs(w, s, i, ps) && (i < |s| ==> Agrees(w, s, i, OFF, m))
    ensures ps == Pieces(w, m, s[i..])
    decreases |s| - i
  {
    if i == |s| {
    } else if s[i] == ';' {
      assert s[i..][1..] == s[i + 1..];
      ReadingIsPieces(w, s, i + 1, Normal, ps[1..]);
      assert ps == [""] + ps[1..];
    } else {
      var k, rest :| i < k <= |s| && TokenAt(w, s, i, k) && rest != [] && ReadsAs(w, s, k, rest)
                  && ps == Glue(s[i..k], rest);
      TokenPasses(w, s, i, m, k);
      ReadingIsPieces(w, s, k, End(w, m, s[i..k]), rest);
      Advance(w, s, i, k, m, "");
      EmptyGlue(s[i..k], Pieces(w, m, s[i..]), rest);
    }
  }

  lemma EmptyGlue(x: string, ps: seq<string>, rest: seq<string>)
    requires ps != [] && rest != [] && Glue("", ps) == Glue("" + x, rest)
    ensures ps == Glue(x, rest)
  {
    GlueGlue("", "", ps);
    assert "" + x == x;
  }

  /** Every script can be read as tokens and semicolons in exactly one way, and the machine
      finds it: the pieces are the texts between the semicolons that stand on their own. */
  lemma PiecesAreReadExactly(w: Alnum, s: string, ps: seq<string>)
    ensures ReadsAs(w, s, 0, ps) <==> ps == Pieces(w, Normal, s)
  {
    assert s[0..] == s;
    var found := ReadingExists(w, s, 0);
    ReadingIsPieces(w, s, 0, Normal, found);
    if ReadsAs(w, s, 0, ps) { ReadingIsPieces(w, s, 0, Normal, ps); }
  }

  /** So the statements are what is left of those texts when the white space around them, and
      those that are nothing else, are dropped. */
  lemma StatementsAreRead(w: Alnum, s: string) returns (ps: seq<string>)
    ensures ReadsAs(w, s, 0, ps) && Statements(w, s) == Keep(ps)
  {
    ps := Pieces(w, Normal, s);
    PiecesAreReadExactly(w, s, ps);
  }

  // ----------------------------------------------------------------------- lines

  /** A line end: a carriage return with a line feed, or one of the single characters that end a
      line; a carriage return on its own only where no line feed follows. */
  ghost predicate IsLineEnd(e: string, rest: string) {
    || e == "\r\n"
    || (|e| == 1 && IsBreak(e[0]) && !(e == "\r" && rest != "" && rest[0] == '\n'))
  }

  /** Lines are read one by one: what stands before the first line end, and the rest. */
  lemma LineByLine(line: string, e: string, rest: string)
    requires (forall i :: 0 <= i < |line| ==> !IsBreak(line[i])) && IsLineEnd(e, rest)
    ensures SplitLines(line + e + rest) == [line] + SplitLines(rest)
  {
    var s := line + (e + rest);
    assert line + e + rest == s;
    LineLengthOf(line, e + rest);
    NextLineOf(s, line, e, rest);
    assert s[..|line|] == line && s[|line| + |e|..] == rest;
  }

  lemma NextLineOf(s: string, line: string, e: string, rest: string)
    requires s == line + (e + rest) && LineLength(s) == |line| && IsLineEnd(e, rest)
    ensures NextLine(s) == |line| + |e|
  {
    assert s[|line|] == e[0];
  }

  /** A last line without an end counts, unless it is empty. */
  lemma LastLine(line: string)
    requires forall i :: 0 <= i < |line| ==> !IsBreak(line[i])
    ensures SplitLines(line) == if line == "" then [] else [line]
  {
    LineLengthOf(line, "");
    assert line + "" == line && (line != "" ==> line[..|line|] == line && line[|line|..] == "");
  }

  lemma {:induction false} LineLengthOf(line: string, rest: string)
    requires forall i :: 0 <= i < |line| ==> !IsBreak(line[i])
    requires rest != "" ==> IsBreak(rest[0])
    ensures LineLength(line + rest) == |line|
  {
    if line == "" {
      assert line + rest == rest;
    } else {
      LineLengthOf(line[1..], rest);
      assert (line + rest)[1..] == line[1..] + rest;
    }
  }
}
