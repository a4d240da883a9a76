/** The parts of Go's `strings`, `strconv` and `bufio.ScanLines` that the provider
    relies on. A string is a sequence of bytes, one `char` each. */
module Strings {

  datatype Option<+T> = None | Some(value: T)

  // ---------------------------------------------------------------- searching

  predicate OccursAt(s: string, sub: string, i: int) {
    0 <= i && i + |sub| <= |s| && s[i..i + |sub|] == sub
  }

  /** `strings.Index`: the leftmost occurrence, or -1. */
  function Index(s: string, sub: string): (i: int)
    ensures i >= 0 ==> OccursAt(s, sub, i)
    ensures i < 0 ==> i == -1
    ensures forall j :: 0 <= j && (i < 0 || j < i) ==> !OccursAt(s, sub, j)
  {
    if sub <= s then 0
    else if s == "" then -1
    else
      var r := Index(s[1..], sub);
      assert forall j :: 0 < j ==> (OccursAt(s, sub, j) <==> OccursAt(s[1..], sub, j - 1)) by {
        forall j | 0 < j ensures OccursAt(s, sub, j) <==> OccursAt(s[1..], sub, j - 1) {
          if j + |sub| <= |s| { assert s[1..][j - 1..j - 1 + |sub|] == s[j..j + |sub|]; }
        }
      }
      if r < 0 then -1 else r + 1
  }

  /** `strings.Contains`. */
  predicate Contains(s: string, sub: string) {
    Index(s, sub) >= 0
  }

  lemma ContainsAt(s: string, sub: string, i: int)
    requires OccursAt(s, sub, i)
    ensures Contains(s, sub)
  {
  }

  /** A text holds no separator longer than itself or beginning with a byte it lacks. */
  lemma NeedsFront(s: string, sub: string)
    requires sub != ""
    ensures Contains(s, sub) ==> sub[0] in s && |sub| <= |s|
  {
    hide Index;
    var i := Index(s, sub);
    if i >= 0 { assert s[i] == s[i..i + |sub|][0]; }
  }

  /** A separator whose first byte cannot occur in `pre` is found in `pre + s` exactly
      where it is found in `s`. */
  lemma {:induction false} IndexSkips(pre: string, s: string, sub: string)
    requires sub != "" && sub[0] !in pre
    ensures Index(pre + s, sub) == if Index(s, sub) < 0 then -1 else |pre| + Index(s, sub)
  {
    if pre == "" {
      assert pre + s == s;
    } else {
      var t := pre + s;
      assert t[0] == pre[0] != sub[0];
      assert !(sub <= t);
      assert t[1..] == pre[1..] + s;
      IndexSkips(pre[1..], s, sub);
    }
  }

  lemma ContainsSkips(pre: string, s: string, sub: string)
    requires sub != "" && sub[0] !in pre
    ensures Contains(pre + s, sub) <==> Contains(s, sub)
  {
    IndexSkips(pre, s, sub);
  }

  lemma ContainsSuffix(s: string, n: nat, sub: string)
    requires n <= |s| && Contains(s[n..], sub)
    ensures Contains(s, sub)
  {
    hide Index;
    var i := Index(s[n..], sub);
    assert s[n..][i..i + |sub|] == s[n + i..n + i + |sub|];
    ContainsAt(s, sub, n + i);
  }

  // ----------------------------------------------------------------- splitting

  /** `strings.Split` for a non-empty separator. */
  function Split(s: string, sep: string): (parts: seq<string>)
    requires sep != ""
    ensures |parts| >= 1
    ensures |parts| == 1 <==> !Contains(s, sep)
    ensures |parts| == 1 ==> parts == [s]
    decreases |s|
  {
    var i := Index(s, sep);
    if i < 0 then [s] else [s[..i]] + Split(s[i + |sep|..], sep)
  }

  /** Splitting `sep + rest` when `rest` holds no separator. */
  lemma SplitPrefixed(sep: string, rest: string)
    requires sep != "" && !Contains(rest, sep)
    ensures Split(sep + rest, sep) == ["", rest]
  {
    var s := sep + rest;
    assert sep <= s;
    assert Index(s, sep) == 0;
    assert s[|sep|..] == rest;
    assert Split(s, sep) == [s[..0]] + Split(rest, sep);
  }

  /** Splitting `'body'` at its two quotes. */
  lemma SplitQuoted(body: string)
    requires '\'' !in body
    ensures Split("'" + body + "'", "'") == ["", body, ""]
  {
    var s := "'" + body + "'";
    assert Index(s, "'") == 0;
    assert s[1..] == body + "'";
    IndexSkips(body, "'", "'");
    assert Index("'", "'") == 0;
    assert Index(body + "'", "'") == |body|;
    assert (body + "'")[..|body|] == body;
    assert (body + "'")[|body| + 1..] == "";
    assert !Contains("", "'");
    assert Split("", "'") == [""];
    assert Split(body + "'", "'") == [body] + Split("", "'");
  }

  // --------------------------------------------------------------------- lines

  function DropCR(line: string): string {
    if |line| > 0 && line[|line| - 1] == '\r' then line[..|line| - 1] else line
  }

  /** The tokens `bufio.ScanLines` yields: lines without their terminator or a trailing
      carriage return; a final line needs no terminator. */
  function Lines(s: string): seq<string>
    decreases |s|
  {
    if s == "" then []
    else
      var i := Index(s, "\n");
      if i < 0 then [DropCR(s)] else [DropCR(s[..i])] + Lines(s[i + 1..])
  }

  function Unlines(ls: seq<string>): string
  {
    if ls == [] then "" else ls[0] + "\n" + Unlines(ls[1..])
  }

  /** A line that survives being written and scanned again. */
  predicate CleanLine(l: string) {
    '\n' !in l && DropCR(l) == l
  }

  lemma {:induction false} LinesUnlines(ls: seq<string>)
    requires forall l :: l in ls ==> CleanLine(l)
    ensures Lines(Unlines(ls)) == ls
  {
    if ls != [] {
      LinesUnlines(ls[1..]);
      assert CleanLine(ls[0]);
      FirstLine(ls[0], Unlines(ls[1..]));
    }
  }

  /** Lines end with a newline, with or without a carriage return before it; the last one may
      also end with the text. */
  lemma LineEnds(l: string, rest: string)
    requires '\n' !in l
    ensures Lines(l + "\r\n" + rest) == [l] + Lines(rest)
    ensures l == "" || l[|l| - 1] != '\r' ==> Lines(l + "\n" + rest) == [l] + Lines(rest)
    ensures l != "" && l[|l| - 1] != '\r' ==> Lines(l) == [l]
  {
    hide Index;
    var cr := l + "\r";
    FirstLine(l, rest);
    FirstLine(cr, rest);
    assert l + "\r\n" + rest == cr + "\n" + rest && DropCR(cr) == l;
    NeedsFront(l, "\n");
  }

  lemma FirstLine(l: string, rest: string)
    requires '\n' !in l
    ensures Lines(l + "\n" + rest) == [DropCR(l)] + Lines(rest)
  {
    var s := l + ("\n" + rest);
    assert l + "\n" + rest == s;
    IndexSkips(l, "\n" + rest, "\n");
    assert Index("\n" + rest, "\n") == 0;
    assert s[..|l|] == l && s[|l| + 1..] == rest;
  }

  // ------------------------------------------------------------------- numbers

  const INT64_LIMIT: int := 0x8000_0000_0000_0000

  /** The value a 64-bit `int` holds after the exact result `x` of an operation. */
  function Wrap64(x: int): (r: int)
    ensures -INT64_LIMIT <= r < INT64_LIMIT
    ensures -INT64_LIMIT <= x < INT64_LIMIT ==> r == x
  {
    (x + INT64_LIMIT) % (2 * INT64_LIMIT) - INT64_LIMIT
  }

  lemma WrapAgain(x: int, d: int)
    ensures Wrap64(Wrap64(x) + d) == Wrap64(x + d)
    ensures Wrap64(d - Wrap64(x)) == Wrap64(d - x)
  {
    var m := 2 * INT64_LIMIT;
    var q := (x + INT64_LIMIT) / m;
    assert Wrap64(x) == x - m * q;
    ModTurns(x + d + INT64_LIMIT, -q);
    ModTurns(d - x + INT64_LIMIT, q);
  }

  lemma ModTurns(a: int, k: int)
    ensures (a + 2 * INT64_LIMIT * k) % (2 * INT64_LIMIT) == a % (2 * INT64_LIMIT)
  {
    var m := 2 * INT64_LIMIT;
    assert a == m * (a / m) + a % m;
    assert a + m * k == m * (a / m + k) + a % m;
  }

  function Digit(d: nat): char
    requires d < 10
  {
    "0123456789"[d]
  }

  predicate IsDigits(s: string) {
    forall i :: 0 <= i < |s| ==> '0' <= s[i] <= '9'
  }

  function Digits(n: nat): (s: string)
    ensures |s| > 0 && IsDigits(s)
  {
    if n < 10 then [Digit(n)] else Digits(n / 10) + [Digit(n % 10)]
  }

  /** `strconv.Itoa`. */
  function Itoa(n: int): string {
    if n < 0 then "-" + Digits(-n) else Digits(n)
  }

  function Value(s: string): nat
    requires IsDigits(s)
  {
    if s == "" then 0 else 10 * Value(s[..|s| - 1]) + (s[|s| - 1] as int - '0' as int)
  }

  function InRange(n: int): Option<int> {
    if -INT64_LIMIT <= n < INT64_LIMIT then Some(n) else None
  }

  /** `strconv.Atoi`: optional sign, at least one digit, a 64-bit result; None is an error. */
  function Atoi(s: string): Option<int> {
    var signed := |s| > 0 && (s[0] == '-' || s[0] == '+');
    var body := if signed then s[1..] else s;
    if body == "" || !IsDigits(body) then None
    else InRange(if s[0] == '-' then -(Value(body) as int) else Value(body))
  }

  lemma {:induction false} ValueDigits(n: nat)
    ensures Value(Digits(n)) == n
  {
    if n < 10 {
      assert Digits(n)[..0] == "";
    } else {
      ValueDigits(n / 10);
      var s := Digits(n);
      assert s[..|s| - 1] == Digits(n / 10);
    }
  }

  lemma AtoiDigits(n: nat)
    requires n <= INT64_LIMIT
    ensures n < INT64_LIMIT ==> Atoi(Digits(n)) == Some(n)
    ensures Atoi("-" + Digits(n)) == Some(-(n as int))
  {
    var s := Digits(n);
    ValueDigits(n);
    hide Digits, Value;
    assert '0' <= s[0] <= '9';
    assert ("-" + s)[1..] == s;
  }

  /** The text of a counter stands for the counter: it reads back and is never empty. */
  lemma AtoiItoa(n: int)
    requires -INT64_LIMIT <= n < INT64_LIMIT
    ensures Atoi(Itoa(n)) == Some(n)
    ensures Itoa(n) != ""
  {
    AtoiDigits(if n < 0 then -n else n);
  }

  lemma ItoaInjective(m: int, n: int)
    requires -INT64_LIMIT <= m < INT64_LIMIT && -INT64_LIMIT <= n < INT64_LIMIT
    ensures Itoa(m) == Itoa(n) <==> m == n
  {
    AtoiItoa(m);
    AtoiItoa(n);
  }

  /** Decimal notation, without leading zeros and with a minus sign for negative numbers. */
  lemma ItoaDecimal(n: int, d: int)
    requires n > 0 && 0 <= d < 10
    ensures Itoa(d) == ["0123456789"[d]]
    ensures Itoa(10 * n + d) == Itoa(n) + ["0123456789"[d]] && Itoa(-n) == "-" + Itoa(n)
  {
    var x := 10 * n + d;
    assert x / 10 == n && x % 10 == d;
    assert Digits(x) == Digits(x / 10) + [Digit(x % 10)];
    assert Digits(d) == [Digit(d)];
    hide Digits;
  }

  /** A plus sign reads like none; a sign alone, nothing at all or any other character in it
      makes a text no number. */
  lemma AtoiReads(s: string, i: nat)
    ensures |s| > 0 && IsDigits(s) ==> Atoi("+" + s) == Atoi(s)
    ensures Atoi("") == Atoi("+") == Atoi("-") == None
    ensures 0 < i < |s| && !('0' <= s[i] <= '9') ==> Atoi(s) == None
    ensures |s| > 0 && s[0] !in "+-0123456789" ==> Atoi(s) == None
  {
    assert ("+" + s)[1..] == s;
    if 0 < i < |s| && !('0' <= s[i] <= '9') { assert s[1..][i - 1] == s[i]; }
  }

  /** `strconv.ParseBool`, with an error read as false. */
  predicate ParseBool(s: string) {
    s == "1" || s == "t" || s == "T" || s == "true" || s == "TRUE" || s == "True"
  }
}
