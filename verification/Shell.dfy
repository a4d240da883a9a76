/** What the shell of a node makes of `echo -e "..." >> path`: the word between the quotes, the
    escapes that `echo -e` interprets, and the path. */
module Shell {
  import opened Strings

  function Behind(front: string, rest: Option<string>): Option<string> {
    if rest.None? then None else Some(front + rest.value)
  }

  // ------------------------------------------------------------------------ expansions

  predicate WordChar(c: char) {
    'a' <= c <= 'z' || 'A' <= c <= 'Z' || '0' <= c <= '9'
  }

  /** What may follow a dollar sign for bash to expand it. */
  predicate Expands(c: char) {
    WordChar(c) || c in "_{([@*#?-$!"
  }

  /** What the node's shell puts for an expansion, such as `$HOME` or `$(hostname)`, as written. */
  type Answers = map<string, string>

  /** The length up to and with the closing bracket; 0 when what is between is not simple. */
  function Until(s: string, close: char): (n: nat)
    ensures n <= |s|
  {
    if s == "" then 0
    else if s[0] == close then 1
    else if s[0] in "\\\"`$'(){}#\n" then 0
    else
      var n := Until(s[1..], close);
      if n == 0 then 0 else n + 1
  }

  function NameLength(s: string): (n: nat)
    ensures n <= |s|
  {
    if s != "" && (WordChar(s[0]) || s[0] == '_') then 1 + NameLength(s[1..]) else 0
  }

  /** The length of the expansion at the front of `s`; 0 for one this model does not take apart. */
  function ExpansionLength(s: string): (n: nat)
    requires |s| > 1
    ensures n == 0 || 2 <= n <= |s|
  {
    if s[1] == '(' || s[1] == '{' then
      var n := Until(s[2..], if s[1] == '(' then ')' else '}');
      if n == 0 then 0 else n + 2
    else if '0' <= s[1] <= '9' || s[1] in "@*#?-$!" then 2
    else if WordChar(s[1]) || s[1] == '_' then 1 + NameLength(s[1..])
    else 0
  }

  // ------------------------------------------------------------------------- the word

  /** The word bash makes of `"s"`, a quote within `s` ending the quoted part. None marks what
      this model does not interpret: an expansion without an answer, or no closing quote. */
  function DoubleQuoted(s: string, answers: Answers): Option<string>
    decreases |s|
  {
    if s == "" then Some("")
    else if s[0] == '"' then Unquoted(s[1..], answers)
    else if s[0] == '`' then None
    else if s[0] == '$' && |s| > 1 && Expands(s[1]) then
      var n := ExpansionLength(s);
      if n == 0 || s[..n] !in answers then None else Behind(answers[s[..n]], DoubleQuoted(s[n..], answers))
    else if s[0] == '\\' then
      if |s| == 1 then None
      else if s[1] in "\\\"$`" then Behind([s[1]], DoubleQuoted(s[2..], answers))
      else if s[1] == '\n' then DoubleQuoted(s[2..], answers)
      else Behind(s[..2], DoubleQuoted(s[2..], answers))
    else Behind([s[0]], DoubleQuoted(s[1..], answers))
  }

  /** Between two quoted parts of a word, letters and digits; None for anything else. */
  function Unquoted(s: string, answers: Answers): Option<string>
    decreases |s|
  {
    if s == "" then None
    else if s[0] == '"' then DoubleQuoted(s[1..], answers)
    else if WordChar(s[0]) then Behind([s[0]], Unquoted(s[1..], answers))
    else None
  }

  /** The escapes of `echo -e`, an unknown one standing for itself; None for those this model
      leaves out. */
  function Escaped(s: string): Option<string>
    decreases |s|
  {
    if s == "" then Some("")
    else if s[0] != '\\' || |s| == 1 then Behind([s[0]], Escaped(s[1..]))
    else if s[1] == 'n' then Behind("\n", Escaped(s[2..]))
    else if s[1] == 't' then Behind("\t", Escaped(s[2..]))
    else if s[1] == 'r' then Behind("\r", Escaped(s[2..]))
    else if s[1] == '\\' then Behind("\\", Escaped(s[2..]))
    else if s[1] in "abceEfv0xuU" then None
    else Behind(s[..2], Escaped(s[2..]))
  }

  /** A word that `echo` takes for options of its own. */
  predicate IsOption(word: string) {
    |word| >= 2 && word[0] == '-' && forall i :: 1 <= i < |word| ==> word[i] in "neE"
  }

  /** What `echo -e "arg"` prints. */
  function EchoText(arg: string, answers: Answers): Option<string> {
    var word := DoubleQuoted(arg, answers);
    if word.None? then None
    else if IsOption(word.value) then Some(if 'n' in word.value then "" else "\n")
    else
      var text := Escaped(word.value);
      if text.None? then None else Some(text.value + "\n")
  }

  /** What `echo -e` makes of the escapes a line end, a tab or a backslash is written with. */
  lemma EscapesRead(rest: string)
    ensures Escaped("\\n" + rest) == Behind("\n", Escaped(rest))
    ensures Escaped("\\t" + rest) == Behind("\t", Escaped(rest))
    ensures Escaped("\\r" + rest) == Behind("\r", Escaped(rest))
    ensures Escaped("\\\\" + rest) == Behind("\\", Escaped(rest))
  {
    assert forall c: char :: (['\\', c] + rest)[2..] == rest;
  }

  /** Text that is an option is not printed; `-n` also drops the line end. */
  lemma OptionsVanish(answers: Answers)
    ensures EchoText("-n", answers) == Some("")
    ensures EchoText("-e", answers) == Some("\n")
  {
    assert Plain("-n") && Plain("-e") && "-n" + "" == "-n" && "-e" + "" == "-e";
    PlainPasses("-n", "", answers);
    PlainPasses("-e", "", answers);
  }

  // ------------------------------------------------------------------------- the path

  predicate NameChar(c: char) {
    WordChar(c) || c == '.' || c == '_' || c == '-'
  }

  predicate PlainName(n: string) {
    n != "" && n != "." && n != ".." && forall i :: 0 <= i < |n| ==> NameChar(n[i])
  }

  predicate PlainNames(s: string)
    decreases |s|
  {
    var i := Index(s, "/");
    if i < 0 then PlainName(s) else i < |s| && PlainName(s[..i]) && PlainNames(s[i + 1..])
  }

  /** An absolute path that the shell takes as it is, and that names one file in one way. */
  predicate PlainPath(path: string) {
    path != "" && path[0] == '/' && PlainNames(path[1..])
  }

  lemma LastName(n: string)
    requires PlainName(n)
    ensures PlainNames(n)
  {
    IndexSkips(n, "", "/");
    assert n + "" == n;
  }

  lemma MoreNames(n: string, rest: string)
    requires PlainName(n) && PlainNames(rest)
    ensures PlainNames(n + ("/" + rest))
  {
    hide PlainNames;
    var s := n + ("/" + rest);
    IndexSkips(n, "/" + rest, "/");
    assert Index("/" + rest, "/") == 0;
    assert s[..|n|] == n && s[|n| + 1..] == rest;
    NamesStep(s);
  }

  lemma NamesStep(s: string)
    requires var i := Index(s, "/"); 0 <= i < |s| && PlainName(s[..i]) && PlainNames(s[i + 1..])
    ensures PlainNames(s)
  {
  }

  /** A file in a directory at the root. */
  lemma TwoNames(dir: string, name: string)
    requires PlainName(dir) && PlainName(name)
    ensures PlainPath("/" + (dir + ("/" + name)))
  {
    hide PlainName, PlainNames;
    LastName(name);
    MoreNames(dir, name);
    assert ("/" + (dir + ("/" + name)))[1..] == dir + ("/" + name);
  }

  // ---------------------------------------------------------------- text left alone

  predicate PlainChar(c: char) {
    c != '\\' && c != '"' && c != '$' && c != '`' && c != '\n'
  }

  /** Text without any byte that means something to the shell, on one line. */
  predicate Plain(s: string) {
    forall i :: 0 <= i < |s| ==> PlainChar(s[i])
  }

  lemma {:induction false} PlainPasses(a: string, rest: string, answers: Answers)
    requires Plain(a)
    ensures DoubleQuoted(a + rest, answers) == Behind(a, DoubleQuoted(rest, answers))
    ensures Escaped(a + rest) == Behind(a, Escaped(rest))
  {
    if a == "" {
      assert a + rest == rest;
      assert forall s: string :: "" + s == s;
    } else {
      PlainPasses(a[1..], rest, answers);
      assert PlainChar(a[0]);
      assert (a + rest)[1..] == a[1..] + rest;
      assert forall s: string :: [a[0]] + (a[1..] + s) == a + s;
    }
  }

  /** No quote, no expansion, and no backslash that bash takes off. */
  predicate QuietInQuotes(s: string)
    decreases |s|
  {
    || s == ""
    || if s[0] == '\\' then |s| > 1 && s[1] !in "\\\"$`\n" && QuietInQuotes(s[2..])
       else s[0] !in "\"`" && !(s[0] == '$' && |s| > 1 && Expands(s[1])) && QuietInQuotes(s[1..])
  }

  /** No escape that `echo -e` interprets. */
  predicate QuietInEcho(s: string)
    decreases |s|
  {
    || s == ""
    || if s[0] == '\\' then |s| > 1 && s[1] !in "ntr\\abceEfv0xuU" && QuietInEcho(s[2..]) else QuietInEcho(s[1..])
  }

  /** Text that arrives as it is. */
  predicate Inert(s: string) {
    QuietInQuotes(s) && QuietInEcho(s)
  }

  /** A backslash at the end waits for the next byte. */
  predicate Dangling(s: string)
    decreases |s|
  {
    s != "" && if s[0] == '\\' then |s| == 1 || Dangling(s[2..]) else Dangling(s[1..])
  }

  /** What arrives of a line that the shell can take on its own; None for one with an expansion,
      with quotes left open or with a backslash that reaches into the next line. */
  function Shown(line: string): Option<string> {
    var word := DoubleQuoted(line, map[]);
    if word.None? || Dangling(word.value) then None else Escaped(word.value)
  }

  lemma {:induction false} WordShorter(s: string)
    ensures var w := DoubleQuoted(s, map[]); w.Some? ==> |w.value| <= |s| && (|w.value| == |s| ==> QuietInQuotes(s))
    ensures var w := Unquoted(s, map[]); w.Some? ==> |w.value| <= |s|
    decreases |s|
  {
    if s != "" {
      WordShorter(s[1..]);
      if s[0] == '\\' && |s| > 1 { WordShorter(s[2..]); }
    }
  }

  lemma {:induction false} QuietWord(s: string)
    requires QuietInQuotes(s)
    ensures DoubleQuoted(s, map[]) == Some(s)
    decreases |s|
  {
    if s != "" {
      if s[0] == '\\' {
        QuietWord(s[2..]);
        assert s[..2] + s[2..] == s;
      } else {
        QuietWord(s[1..]);
        assert [s[0]] + s[1..] == s;
      }
    }
  }

  lemma {:induction false} EscapedShorter(s: string)
    requires !Dangling(s)
    ensures var e := Escaped(s); e.Some? ==> |e.value| <= |s| && (|e.value| == |s| ==> QuietInEcho(s))
    decreases |s|
  {
    if s != "" {
      if s[0] == '\\' { EscapedShorter(s[2..]); } else { EscapedShorter(s[1..]); }
    }
  }

  lemma {:induction false} QuietEscaped(s: string)
    requires QuietInEcho(s)
    ensures Escaped(s) == Some(s) && !Dangling(s)
    decreases |s|
  {
    if s != "" {
      if s[0] == '\\' {
        QuietEscaped(s[2..]);
        assert s[..2] + s[2..] == s;
      } else {
        QuietEscaped(s[1..]);
        assert [s[0]] + s[1..] == s;
      }
    }
  }

  /** A line arrives as it is exactly when it is inert; any other that can be taken on its own
      arrives shorter. */
  lemma ShownExactly(line: string)
    ensures Shown(line) == Some(line) <==> Inert(line)
    ensures Shown(line).Some? && !Inert(line) ==> |Shown(line).value| < |line|
  {
    hide DoubleQuoted, Escaped, QuietInQuotes, QuietInEcho, Dangling;
    var w := DoubleQuoted(line, map[]);
    WordShorter(line);
    if QuietInQuotes(line) { QuietWord(line); }
    if w.Some? && !Dangling(w.value) { EscapedShorter(w.value); }
    if Inert(line) { QuietEscaped(line); }
  }

  /** Quotes at the end of a line, as in a setting with an empty value, are lost. */
  lemma EmptyQuotesLost(a: string)
    requires Plain(a)
    ensures Shown(a + "\"\"") == Some(a)
  {
    hide Dangling, Escaped;
    PlainPasses(a, "\"\"", map[]);
    assert "\"\""[1..] == "\"" && "\""[1..] == "";
    assert a + "" == a;
    PlainIsInert(a);
    QuietEscaped(a);
  }

  lemma {:induction false} PlainIsInert(a: string)
    requires Plain(a)
    ensures Inert(a)
  {
    if a != "" {
      assert PlainChar(a[0]);
      PlainIsInert(a[1..]);
    }
  }

  // ------------------------------------------------------------------ text put together

  lemma BehindTwice(a: string, b: string, r: Option<string>)
    ensures Behind(a, Behind(b, r)) == Behind(a + b, r)
    ensures Behind("", r) == r
  {
    if r.Some? { assert a + (b + r.value) == a + b + r.value && "" + r.value == r.value; }
  }

  lemma CutBehind(a: string, t: string, n: nat)
    requires n <= |a|
    ensures (a + t)[n..] == a[n..] + t && (a + t)[..n] == a[..n]
  {
  }

  /** One more piece in front of a text that passes. */
  lemma Passes(front: string, w: Option<string>, whole: Option<string>, rest: Option<string>)
    requires w.Some? ==> whole == Behind(w.value, rest)
    ensures var v := Behind(front, w); v.Some? ==> Behind(front, whole) == Behind(v.value, rest)
  {
    if w.Some? { BehindTwice(front, w.value, rest); }
  }

  /** A line that can be taken on its own is, in front of a backslash. */
  lemma {:induction false} WordPasses(a: string, t: string, answers: Answers)
    requires t != "" && t[0] == '\\'
    ensures var w := DoubleQuoted(a, map[]);
      w.Some? ==> DoubleQuoted(a + t, answers) == Behind(w.value, DoubleQuoted(t, answers))
    ensures var w := Unquoted(a, map[]);
      w.Some? ==> Unquoted(a + t, answers) == Behind(w.value, DoubleQuoted(t, answers))
    decreases |a|
  {
    hide Behind;
    var rest := DoubleQuoted(t, answers);
    if a == "" {
      assert a + t == t;
      BehindTwice("", "", rest);
    } else {
      WordPasses(a[1..], t, answers);
      CutBehind(a, t, 1);
      Passes([a[0]], DoubleQuoted(a[1..], map[]), DoubleQuoted(a[1..] + t, answers), rest);
      Passes([a[0]], Unquoted(a[1..], map[]), Unquoted(a[1..] + t, answers), rest);
      if a[0] == '\\' && |a| > 1 {
        WordPasses(a[2..], t, answers);
        CutBehind(a, t, 2);
        Passes([a[1]], DoubleQuoted(a[2..], map[]), DoubleQuoted(a[2..] + t, answers), rest);
        Passes(a[..2], DoubleQuoted(a[2..], map[]), DoubleQuoted(a[2..] + t, answers), rest);
      }
      NoneBehind();
    }
  }

  lemma NoneBehind()
    ensures forall a: string :: Behind(a, None) == None
  {
  }

  lemma {:induction false} EscapedPasses(w: string, rest: string)
    requires !Dangling(w)
    ensures var e := Escaped(w); e.Some? ==> Escaped(w + rest) == Behind(e.value, Escaped(rest))
    decreases |w|
  {
    hide Behind;
    if w == "" {
      assert w + rest == rest;
      BehindTwice("", "", Escaped(rest));
    } else if w[0] == '\\' {
      EscapedPasses(w[2..], rest);
      CutBehind(w, rest, 2);
      EscapePasses("\n", w, rest);
      EscapePasses("\t", w, rest);
      EscapePasses("\r", w, rest);
      EscapePasses("\\", w, rest);
      EscapePasses(w[..2], w, rest);
    } else {
      EscapedPasses(w[1..], rest);
      CutBehind(w, rest, 1);
      Passes([w[0]], Escaped(w[1..]), Escaped(w[1..] + rest), Escaped(rest));
    }
  }

  lemma EscapePasses(front: string, w: string, rest: string)
    requires |w| > 1
    requires var e := Escaped(w[2..]); e.Some? ==> Escaped(w[2..] + rest) == Behind(e.value, Escaped(rest))
    ensures var e := Behind(front, Escaped(w[2..]));
      e.Some? ==> Behind(front, Escaped(w[2..] + rest)) == Behind(e.value, Escaped(rest))
  {
    Passes(front, Escaped(w[2..]), Escaped(w[2..] + rest), Escaped(rest));
  }

  /** Quotes around a bare word within the text do not arrive. */
  lemma {:induction false} QuotedWord(w: string, rest: string, answers: Answers)
    requires forall i :: 0 <= i < |w| ==> WordChar(w[i])
    ensures Unquoted(w + ("\"" + rest), answers) == Behind(w, DoubleQuoted(rest, answers))
  {
    hide DoubleQuoted, Behind;
    var t := "\"" + rest;
    if w == "" {
      assert w + t == t && t[1..] == rest;
      BehindTwice("", "", DoubleQuoted(rest, answers));
    } else {
      QuotedWord(w[1..], rest, answers);
      CutBehind(w, t, 1);
      BehindTwice([w[0]], w[1..], DoubleQuoted(rest, answers));
      assert [w[0]] + w[1..] == w;
    }
  }

  // ------------------------------------------------------------------ an escaped line end

  lemma {:induction false} UntilWithin(a: string, t: string, close: char)
    requires t != "" && t[0] == '\\' && close != '\\'
    ensures Until(a + t, close) == Until(a, close)
  {
    if a == "" { assert a + t == t; } else { UntilWithin(a[1..], t, close); CutBehind(a, t, 1); }
  }

  lemma {:induction false} NameWithin(a: string, t: string)
    requires t != "" && t[0] == '\\'
    ensures NameLength(a + t) == NameLength(a)
  {
    if a == "" { assert a + t == t; } else { NameWithin(a[1..], t); CutBehind(a, t, 1); }
  }

  /** An expansion does not reach beyond a backslash. */
  lemma ExpansionWithin(a: string, t: string)
    requires |a| > 1 && t != "" && t[0] == '\\'
    ensures ExpansionLength(a + t) == ExpansionLength(a)
  {
    hide Until, NameLength;
    UntilWithin(a[2..], t, ')');
    UntilWithin(a[2..], t, '}');
    NameWithin(a[1..], t);
    CutBehind(a, t, 1);
    CutBehind(a, t, 2);
  }

  predicate HasBackslash(w: Option<string>) {
    w.Some? ==> '\\' in w.value
  }

  lemma BackslashBehind(w: Option<string>)
    requires HasBackslash(w)
    ensures forall front: string :: HasBackslash(Behind(front, w))
  {
  }

  lemma BackslashInFront(rest: Option<string>)
    ensures HasBackslash(Behind("\\n", rest)) && HasBackslash(Behind("\\", rest)) && HasBackslash(None)
  {
    if rest.Some? {
      assert ("\\n" + rest.value)[0] == '\\' && ("\\" + rest.value)[0] == '\\';
    }
  }

  lemma NotExpanded()
    ensures !Expands('\\')
  {
  }

  /** An escaped line end leaves a backslash in the word, whatever stands before it. */
  lemma {:induction false} KeepsBackslash(a: string, rest: string, answers: Answers)
    ensures HasBackslash(DoubleQuoted(a + ("\\n" + rest), answers))
    ensures HasBackslash(Unquoted(a + ("\\n" + rest), answers))
    decreases |a|
  {
    hide ExpansionLength, Behind, HasBackslash, Expands;
    var t := "\\n" + rest;
    if a == "" {
      assert a + t == t;
      assert t[..2] == "\\n" && t[2..] == rest;
      BackslashInFront(DoubleQuoted(rest, answers));
    } else {
      KeepsBackslash(a[1..], rest, answers);
      CutBehind(a, t, 1);
      BackslashBehind(DoubleQuoted(a[1..] + t, answers));
      BackslashBehind(Unquoted(a[1..] + t, answers));
      BackslashInFront(None);
      if a[0] == '\\' {
        EscapedBackslash(a, t, rest, answers);
        if |a| > 1 { KeepsBackslash(a[2..], rest, answers); BackslashBehind(DoubleQuoted(a[2..] + t, answers)); }
      } else if a == "$" {
        assert (a + t)[1] == '\\';
        NotExpanded();
      } else if a[0] == '$' {
        assert (a + t)[1] == a[1];
        ExpansionWithin(a, t);
        var n := ExpansionLength(a);
        if n > 0 {
          KeepsBackslash(a[n..], rest, answers);
          CutBehind(a, t, n);
          BackslashBehind(DoubleQuoted(a[n..] + t, answers));
        }
      }
    }
  }

  lemma EscapedBackslash(a: string, t: string, rest: string, answers: Answers)
    requires a != "" && a[0] == '\\' && t == "\\n" + rest
    ensures |a| == 1 ==> HasBackslash(DoubleQuoted(a + t, answers))
    ensures |a| > 1 ==> (a + t)[2..] == a[2..] + t && (a + t)[..2] == a[..2] && (a + t)[1] == a[1]
  {
    if |a| == 1 {
      assert (a + t)[1] == '\\';
      BackslashInFront(DoubleQuoted((a + t)[2..], answers));
    } else {
      CutBehind(a, t, 2);
    }
  }
}
