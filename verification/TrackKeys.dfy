/** Names of track life-cycles: `t<raw>` for the first use of a tracker id, then
    `t<raw>-r<n>`, and the search for one that is still free. */
module TrackKeys {

  function Digit(d: nat): (c: char)
    requires d < 10
  {
    ['0', '1', '2', '3', '4', '5', '6', '7', '8', '9'][d]
  }

  function Digits(n: nat): (s: string) {
    if n < 10 then [Digit(n)] else Digits(n / 10) + [Digit(n % 10)]
  }

  function Decimal(i: int): (s: string) {
    if i < 0 then "-" + Digits(-i) else Digits(i)
  }

  /** The key of the `n`-th life-cycle of tracker id `raw`. */
  function KeyName(raw: int, n: nat): (key: string) {
    "t" + Decimal(raw) + if n == 1 then "" else "-r" + Digits(n)
  }

  predicate IsDigit(c: char) {
    '0' <= c <= '9'
  }

  lemma {:induction false} DigitsAreDigits(n: nat)
    ensures Digits(n) != [] && forall i :: 0 <= i < |Digits(n)| ==> IsDigit(Digits(n)[i])
  {
    if n < 10 {
    } else {
      DigitsAreDigits(n / 10);
    }
  }

  lemma DigitInjective(c: nat, d: nat)
    requires c < 10 && d < 10 && Digit(c) == Digit(d)
    ensures c == d
  {
  }

  lemma {:induction false} DigitsInjective(m: nat, n: nat)
    requires Digits(m) == Digits(n)
    ensures m == n
  {
    DigitsAreDigits(m / 10);
    DigitsAreDigits(n / 10);
    var s := Digits(m);
    assert s[|s| - 1] == Digit(m % 10) == Digit(n % 10);
    DigitInjective(m % 10, n % 10);
    if m < 10 || n < 10 {
    } else {
      assert s[..|s| - 1] == Digits(m / 10) == Digits(n / 10);
      DigitsInjective(m / 10, n / 10);
    }
  }

  lemma DecimalInjective(a: int, b: int)
    requires Decimal(a) == Decimal(b)
    ensures a == b
  {
    var x, y := if a < 0 then -a else a, if b < 0 then -b else b;
    DigitsAreDigits(x);
    DigitsAreDigits(y);
    assert a < 0 <==> Decimal(a)[0] == '-';
    assert b < 0 <==> Decimal(b)[0] == '-';
    if a < 0 {
      assert Decimal(a)[1..] == Digits(x) && Decimal(b)[1..] == Digits(y);
    }
    DigitsInjective(x, y);
  }

  lemma DecimalHasNoR(a: int)
    ensures 'r' !in Decimal(a)
  {
    DigitsAreDigits(if a < 0 then -a else a);
  }

  /** In a name with a counter, the only `r` sits right before the counter. */
  lemma CounterPosition(raw: int, n: nat, i: nat)
    requires n != 1 && i < |KeyName(raw, n)|
    ensures KeyName(raw, n)[i] == 'r' <==> i == |Decimal(raw)| + 2
  {
    DecimalHasNoR(raw);
    DigitsAreDigits(n);
    var d, k := Decimal(raw), KeyName(raw, n);
    assert k == ["t"[0]] + d + ['-', 'r'] + Digits(n);
    if 1 <= i <= |d| {
      assert k[i] == d[i - 1];
    } else if i > |d| + 2 {
      assert k[i] == Digits(n)[i - |d| - 3];
    }
  }

  lemma CounterShows(raw: int, n: nat)
    ensures n == 1 <==> 'r' !in KeyName(raw, n)
  {
    DecimalHasNoR(raw);
    if n != 1 {
      CounterPosition(raw, n, |Decimal(raw)| + 2);
      assert KeyName(raw, n)[|Decimal(raw)| + 2] == 'r';
    }
  }

  /** Different life-cycles have different names. */
  lemma KeyNameInjective(a: int, m: nat, b: int, n: nat)
    requires KeyName(a, m) == KeyName(b, n)
    ensures a == b && m == n
  {
    var k := KeyName(a, m);
    CounterShows(a, m);
    CounterShows(b, n);
    if m != 1 {
      CounterPosition(a, m, |Decimal(a)| + 2);
      CounterPosition(b, n, |Decimal(a)| + 2);
      assert k[|Decimal(a)| + 3..] == Digits(m) == Digits(n);
      DigitsInjective(m, n);
      assert k[1..|Decimal(a)| + 1] == Decimal(a) == Decimal(b);
    } else {
      assert k[1..] == Decimal(a) == Decimal(b);
    }
    DecimalInjective(a, b);
  }

  /** The first counter from `n` on whose name is not taken. */
  ghost function FirstFree(taken: set<string>, raw: int, n: nat): (r: nat)
    decreases taken
  {
    if KeyName(raw, n) !in taken then n else FirstFree(taken - {KeyName(raw, n)}, raw, n + 1)
  }

  lemma {:induction false} FirstFreeIsFirst(taken: set<string>, raw: int, n: nat)
    ensures var r := FirstFree(taken, raw, n);
      && n <= r && KeyName(raw, r) !in taken
      && forall m: nat :: n <= m < r ==> KeyName(raw, m) in taken
    decreases taken
  {
    var k := KeyName(raw, n);
    if k !in taken {
    } else {
      FirstFreeIsFirst(taken - {k}, raw, n + 1);
      var r := FirstFree(taken, raw, n);
      if KeyName(raw, r) in taken {
        KeyNameInjective(raw, r, raw, n);
      }
    }
  }

  /** The allocation loop. It ends for any set of taken names, because every
      candidate it rejects is a different taken name. */
  method Allocate(used: set<string>, live: set<string>, raw: int, start: nat) returns (key: string, n: nat)
    ensures key == KeyName(raw, n) && key !in used && key !in live
    ensures n >= start && forall m: nat :: start <= m < n ==> KeyName(raw, m) in used + live
    ensures n == FirstFree(used + live, raw, start)
  {
    n := start;
    ghost var left := used + live;
    FirstFreeIsFirst(used + live, raw, start);
    while true
      invariant start <= n && left <= used + live
      invariant forall m: nat :: start <= m < n ==> KeyName(raw, m) in used + live
      invariant forall k :: k in used + live && k !in left ==> exists m: nat :: start <= m < n && k == KeyName(raw, m)
      decreases left
    {
      key := KeyName(raw, n);
      if key !in used && key !in live {
        UniqueFirst(used + live, raw, start, n);
        return;
      }
      if key !in left {
        var m: nat :| start <= m < n && key == KeyName(raw, m);
        KeyNameInjective(raw, m, raw, n);
      }
      left := left - {key};
      n := n + 1;
    }
  }

  lemma UniqueFirst(taken: set<string>, raw: int, start: nat, n: nat)
    requires n >= start && KeyName(raw, n) !in taken
    requires forall m: nat :: start <= m < n ==> KeyName(raw, m) in taken
    ensures n == FirstFree(taken, raw, start)
  {
    FirstFreeIsFirst(taken, raw, start);
  }
}
