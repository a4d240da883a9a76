/** A printer for the format `CloudConfig.FromBytes` reads, and what the parser makes of
    printed text, wherever the end marks are: it never faults, and gives the configuration
    back exactly when every file but the last closes with an end mark and the last one does
    not. */
module CloudConfigPrinter {
  import opened Strings
  import opened CloudConfigParser

  /** The printer and all that is said of it name the format by its texts, not by the constants
      of the parser. */
  const INDENT := "      "

  /** `header` and `footer` are the lines around the part that is read. */
  datatype Config = Config(header: seq<string>, files: seq<WriteFile>, cmd: string, quoted: bool,
                           footer: seq<string>)

  // ------------------------------------------------------------------- printing

  function Indented(contents: seq<string>): (ls: seq<string>)
    ensures |ls| == |contents|
    ensures forall k :: 0 <= k < |ls| ==> ls[k] == INDENT + contents[k]
  {
    seq(|contents|, k requires 0 <= k < |contents| => INDENT + contents[k])
  }

  function HeaderLines(f: WriteFile): seq<string> {
    ["-   path: " + f.path, "    owner: " + f.owner, "    permissions: " + ("'" + f.permissions + "'"),
     "    content: |"]
  }

  function FileLines(files: seq<WriteFile>): seq<string> {
    if files == [] then []
    else HeaderLines(files[0]) + Indented(files[0].contents) + FileLines(files[1..])
  }

  function CommandLine(c: Config): string {
    "  - " + if c.quoted then "'" + c.cmd + "'" else c.cmd
  }

  function Tail(c: Config): seq<string> {
    ["runcmd:", CommandLine(c)] + c.footer
  }

  function Print(c: Config): string {
    Unlines(c.header + FileLines(c.files) + Tail(c))
  }

  // ------------------------------------------------------------- well-formedness

  predicate FieldsOk(f: WriteFile) {
    && CleanLine(f.path) && !Contains(f.path, "-   path: ")
    && CleanLine(f.owner) && !Contains(f.owner, "    owner: ")
    && '\n' !in f.permissions && '\'' !in f.permissions && !Contains(f.permissions, "    permissions: ")
    && forall k :: 0 <= k < |f.contents| ==> CleanLine(f.contents[k])
  }

  predicate Unmarked(contents: seq<string>) {
    forall k :: 0 <= k < |contents| ==> !Contains(contents[k], "-----END")
  }

  /** Exactly the last content line carries the end mark. */
  predicate EndsInMark(f: WriteFile) {
    var n := |f.contents|;
    n > 0 && Unmarked(f.contents[..n - 1]) && Contains(f.contents[n - 1], "-----END")
  }

  predicate Outside(ls: seq<string>) {
    forall k :: 0 <= k < |ls| ==> CleanLine(ls[k]) && !("-   path: " <= ls[k])
  }

  predicate Printable(files: seq<WriteFile>) {
    forall k :: 0 <= k < |files| ==> FieldsOk(files[k])
  }

  predicate WellFormed(c: Config) {
    && Outside(c.header) && Outside(c.footer)
    && Printable(c.files)
    && CleanLine(c.cmd) && '\'' !in c.cmd && !Contains(c.cmd, "  - ")
  }

  /** Every file but the last ends in the mark, and the last has none. */
  predicate Framed(files: seq<WriteFile>) {
    && files != []
    && if |files| == 1 then Unmarked(files[0].contents) else EndsInMark(files[0]) && Framed(files[1..])
  }

  // ------------------------------------------------------------ what the parser reads

  /** The first line with the mark; `|lines|` if there is none. */
  function FirstMark(lines: seq<string>): (k: nat)
    ensures k <= |lines| && Unmarked(lines[..k])
    ensures k < |lines| ==> Contains(lines[k], "-----END")
  {
    if lines == [] || Contains(lines[0], "-----END") then 0
    else
      var k := FirstMark(lines[1..]);
      assert lines[..k + 1] == [lines[0]] + lines[1..][..k];
      k + 1
  }

  /** The printed lines behind the header of the first file. */
  function BodyLines(files: seq<WriteFile>): seq<string>
    requires files != []
  {
    Indented(files[0].contents) + FileLines(files[1..])
  }

  /** The lines without their first six bytes. */
  function Stripped(lines: seq<string>): (r: seq<string>)
    ensures |r| == |lines|
  {
    seq(|lines|, k requires 0 <= k < |lines| => if |lines[k]| < 6 then lines[k] else lines[k][6..])
  }

  /** The files behind the one in which line `k` of the body is. */
  function FilesAfter(files: seq<WriteFile>, k: nat): (rest: seq<WriteFile>)
    requires files != []
    ensures |rest| < |files|
    decreases |files|
  {
    var n := |files[0].contents|;
    if |files| == 1 || k < n then files[1..]
    else if k < n + 4 then files[2..]
    else FilesAfter(files[1..], k - n - 4)
  }

  /** What is read of printed files: the contents of a file run on, over the headers and contents
      of the next ones, to the first end mark; the rest of the file with the mark is skipped. The
      command is read if a file runs on to it. */
  function Read(files: seq<WriteFile>, cmd: string): Parsed
    decreases |files|
  {
    if files == [] then Parsed([], [])
    else
      var lines := BodyLines(files);
      var k := FirstMark(lines);
      if k == |lines| then Parsed([files[0].(contents := Stripped(lines))], [cmd])
      else Extend([files[0].(contents := Stripped(lines[..k + 1]))], [], Read(FilesAfter(files, k), cmd))
  }

  // ------------------------------------------------------------------ the fields

  lemma FieldOf(sep: string, rest: string)
    requires sep != "" && !Contains(rest, sep)
    ensures Field(sep + rest, sep) == Some(rest)
  {
    SplitPrefixed(sep, rest);
  }

  lemma QuotedField(permissions: string)
    requires '\'' !in permissions && !Contains(permissions, "    permissions: ")
    ensures Field("    permissions: " + ("'" + permissions + "'"), "    permissions: ") == Some("'" + permissions + "'")
    ensures Field("'" + permissions + "'", "'") == Some(permissions)
  {
    Enquoted(permissions, "    permissions: ");
    FieldOf("    permissions: ", "'" + permissions + "'");
    SplitQuoted(permissions);
  }

  /** Quoting a text does not bring in a separator that has no quote in it. */
  lemma Enquoted(s: string, sep: string)
    requires sep != "" && '\'' !in sep && !Contains(s, sep)
    ensures !Contains("'" + s + "'", sep)
  {
    var t := "'" + s + "'";
    var i := Index(t, sep);
    if i >= 0 {
      assert t[i..i + |sep|] == sep;
      assert sep[0] == t[i] && sep[|sep| - 1] == t[i + |sep| - 1];
      assert i > 0 && i + |sep| <= |s| + 1;
      assert s[i - 1..i - 1 + |sep|] == t[i..i + |sep|];
      ContainsAt(s, sep, i - 1);
    }
  }

  lemma HeaderAt(ls: seq<string>, i: nat, f: WriteFile)
    requires i + 4 <= |ls| && ls[i..i + 4] == HeaderLines(f) && FieldsOk(f)
    ensures ParseHeader(ls, i) == Header(f.path, f.owner, f.permissions)
  {
    hide Split;
    assert ls[i] == ls[i..i + 4][0] && ls[i + 1] == ls[i..i + 4][1] && ls[i + 2] == ls[i..i + 4][2];
    FieldOf("-   path: ", f.path);
    FieldOf("    owner: ", f.owner);
    QuotedField(f.permissions);
  }

  lemma CommandAt(c: Config)
    requires WellFormed(c)
    ensures Command(CommandLine(c)) == [c.cmd]
  {
    hide Split, Index;
    var rest := if c.quoted then "'" + c.cmd + "'" else c.cmd;
    if c.quoted {
      Enquoted(c.cmd, "  - ");
      SplitQuoted(c.cmd);
    } else {
      NoQuote(c.cmd);
    }
    SplitPrefixed("  - ", rest);
  }

  lemma NoQuote(s: string)
    requires '\'' !in s
    ensures !Contains(s, "'")
  {
    IndexSkips(s, "", "'");
    assert s + "" == s;
  }

  // ------------------------------------------------------------------ the bodies

  lemma IndentKeepsMark(content: string)
    ensures Contains(INDENT + content, "-----END") <==> Contains(content, "-----END")
    ensures !("runcmd" <= INDENT + content)
    ensures (INDENT + content)[6..] == content
  {
    ContainsSkips(INDENT, content, "-----END");
    assert (INDENT + content)[0] == ' ';
  }

  /** Lines that the inner loop collects, the mark apart. */
  predicate Collectable(lines: seq<string>) {
    forall k :: 0 <= k < |lines| ==> |lines[k]| >= 6 && !("runcmd" <= lines[k])
  }

  /** Lines without a mark are collected one by one. */
  lemma {:induction false} BodyThrough(ls: seq<string>, i: nat, lines: seq<string>)
    requires i + |lines| <= |ls| && ls[i..i + |lines|] == lines && Collectable(lines) && Unmarked(lines)
    ensures ParseBody(ls, i) == Prepend(Stripped(lines), ParseBody(ls, i + |lines|))
    decreases |lines|
  {
    hide ParseBody, Contains;
    if lines == [] {
      var b := ParseBody(ls, i);
      if b.Body? { assert Stripped(lines) + b.contents == b.contents; }
    } else {
      var n := |lines| - 1;
      BodyThrough(ls, i, lines[..n]);
      BodyStep(ls, i + n, Stripped(lines[..n]));
      assert ls[i + n] == ls[i..i + |lines|][n] == lines[n];
      assert Stripped(lines[..n]) + [lines[n][6..]] == Stripped(lines);
    }
  }

  lemma BodyToMark(ls: seq<string>, i: nat, lines: seq<string>, k: nat)
    requires i + |lines| <= |ls| && ls[i..i + |lines|] == lines && Collectable(lines)
    requires k < |lines| && Unmarked(lines[..k]) && Contains(lines[k], "-----END")
    ensures ParseBody(ls, i) == Body(Stripped(lines[..k + 1]), [], i + k + 1)
  {
    hide ParseBody, Contains;
    assert ls[i..i + k] == ls[i..i + |lines|][..k] == lines[..k];
    assert ls[i + k] == ls[i..i + |lines|][k] == lines[k];
    BodyThrough(ls, i, lines[..k]);
    BodyStep(ls, i + k, Stripped(lines[..k]));
    assert Stripped(lines[..k]) + [lines[k][6..]] == Stripped(lines[..k + 1]);
  }

  /** At the tail the inner loop ends with the command. */
  lemma BodyAtTail(ls: seq<string>, i: nat, c: Config)
    requires WellFormed(c) && i <= |ls| && ls[i..] == Tail(c)
    ensures ParseBody(ls, i) == Body([], [c.cmd], i + 2)
  {
    hide Index, Command;
    assert ls[i] == ls[i..][0] == "runcmd:" && ls[i + 1] == ls[i..][1] == CommandLine(c);
    CommandAt(c);
    MarkFree();
  }

  lemma MarkFree()
    ensures !Contains("runcmd:", "-----END")
    ensures "runcmd" <= "runcmd:"
  {
    var i := Index("runcmd:", "-----END");
    assert |"-----END"| == 8 && |"runcmd:"| == 7;
  }

  lemma HeaderCollectable(f: WriteFile)
    ensures Collectable(HeaderLines(f))
    ensures forall k :: 1 <= k < 4 ==> !("-   path: " <= HeaderLines(f)[k])
  {
    var h := HeaderLines(f);
    assert h[0][0] == '-' && h[1][0] == ' ' && h[2][0] == ' ' && h[3][0] == ' ' && "runcmd"[0] == 'r';
  }

  lemma IndentedCollectable(contents: seq<string>)
    ensures Collectable(Indented(contents))
    ensures forall k :: 0 <= k < |contents| ==> !("-   path: " <= Indented(contents)[k])
  {
    forall k | 0 <= k < |contents|
      ensures !("runcmd" <= Indented(contents)[k]) && !("-   path: " <= Indented(contents)[k])
    {
      assert Indented(contents)[k][0] == ' ';
    }
  }

  lemma {:induction false} FilesCollectable(files: seq<WriteFile>)
    ensures Collectable(FileLines(files))
  {
    if files != [] {
      HeaderCollectable(files[0]);
      IndentedCollectable(files[0].contents);
      FilesCollectable(files[1..]);
    }
  }

  lemma BodyCollectable(files: seq<WriteFile>)
    requires files != []
    ensures Collectable(BodyLines(files))
  {
    IndentedCollectable(files[0].contents);
    FilesCollectable(files[1..]);
  }

  lemma IndentedBack(contents: seq<string>)
    ensures Stripped(Indented(contents)) == contents
  {
    forall k | 0 <= k < |contents| ensures Stripped(Indented(contents))[k] == contents[k] {
      IndentKeepsMark(contents[k]);
    }
  }

  // ---------------------------------------------------------------- whole configs

  lemma {:induction false} ParseOutside(ls: seq<string>, i: nat, n: nat)
    requires i + n <= |ls|
    requires forall k :: i <= k < i + n ==> !("-   path: " <= ls[k])
    ensures Parse(ls, i) == Parse(ls, i + n)
    decreases n
  {
    hide ParseHeader, ParseBody;
    if n > 0 {
      ParseOutside(ls, i + 1, n - 1);
    }
  }

  lemma TailOutside(c: Config)
    requires WellFormed(c)
    ensures forall k :: 0 <= k < |Tail(c)| ==> !("-   path: " <= Tail(c)[k])
  {
    assert "-   path: "[0] == '-' && "runcmd:"[0] == 'r' && CommandLine(c)[0] == ' ';
    assert forall k :: 2 <= k < |Tail(c)| ==> Tail(c)[k] == c.footer[k - 2];
  }

  /** The parser stands at `i`, before `files` and the tail. */
  predicate StandsBefore(ls: seq<string>, i: nat, files: seq<WriteFile>, c: Config) {
    i <= |ls| && ls[i..] == FileLines(files) + Tail(c)
  }

  /** The parser stands at `j`, behind the header of the first file. */
  predicate StandsIn(ls: seq<string>, j: nat, files: seq<WriteFile>, c: Config)
    requires files != []
  {
    j <= |ls| && ls[j..] == BodyLines(files) + Tail(c)
  }

  lemma Cut<T>(ls: seq<T>, i: nat, head: seq<T>, tail: seq<T>)
    requires i <= |ls| && ls[i..] == head + tail
    ensures i + |head| <= |ls| && ls[i..i + |head|] == head && ls[i + |head|..] == tail
  {
    var j := i + |head|;
    assert ls[i..j] == ls[i..][..|head|] && ls[j..] == ls[i..][|head|..];
  }

  lemma Regroup<T>(a: seq<T>, b: seq<T>, c: seq<T>, d: seq<T>)
    ensures a + b + c + d == a + ((b + c) + d)
    ensures (b + c) + d == b + (c + d)
  {
  }

  /** The parser reads the first file's header. */
  lemma FirstHeader(ls: seq<string>, i: nat, files: seq<WriteFile>, c: Config)
    requires files != [] && Printable(files) && StandsBefore(ls, i, files, c)
    ensures i + 4 <= |ls| && ls[i..i + 4] == HeaderLines(files[0]) && StandsIn(ls, i + 4, files, c)
    ensures var f := files[0];
      "-   path: " <= ls[i] && ParseHeader(ls, i) == Header(f.path, f.owner, f.permissions)
  {
    hide FieldsOk, ParseHeader, Tail;
    var f := files[0];
    Regroup(HeaderLines(f), Indented(f.contents), FileLines(files[1..]), Tail(c));
    Cut(ls, i, HeaderLines(f), BodyLines(files) + Tail(c));
    assert ls[i] == ls[i..i + 4][0];
    HeaderAt(ls, i, f);
  }

  lemma BehindContents(ls: seq<string>, j: nat, files: seq<WriteFile>, c: Config)
    requires files != [] && StandsIn(ls, j, files, c)
    ensures var n := |files[0].contents|;
      && j + n <= |ls| && ls[j..j + n] == Indented(files[0].contents) && StandsBefore(ls, j + n, files[1..], c)
  {
    hide Tail, FileLines;
    Regroup([], Indented(files[0].contents), FileLines(files[1..]), Tail(c));
    Cut(ls, j, Indented(files[0].contents), FileLines(files[1..]) + Tail(c));
  }

  lemma LinesOutside(ls: seq<string>, j: nat, lines: seq<string>, from: nat)
    requires j + |lines| <= |ls| && ls[j..j + |lines|] == lines && from <= |lines|
    requires forall k :: from <= k < |lines| ==> !("-   path: " <= lines[k])
    ensures Parse(ls, j + from) == Parse(ls, j + |lines|)
  {
    hide Parse;
    forall k | j + from <= k < j + |lines| ensures !("-   path: " <= ls[k]) {
      assert ls[k] == ls[j..j + |lines|][k - j];
    }
    ParseOutside(ls, j + from, |lines| - from);
  }

  /** Behind a mark the rest of its file is skipped. */
  lemma {:induction false} SkipsRest(ls: seq<string>, j: nat, files: seq<WriteFile>, c: Config, k: nat) returns (m: nat)
    requires files != [] && Printable(files) && StandsIn(ls, j, files, c) && k < |BodyLines(files)|
    ensures StandsBefore(ls, m, FilesAfter(files, k), c) && Parse(ls, j + k + 1) == Parse(ls, m)
    decreases |files|
  {
    hide Parse, ParseHeader, FieldsOk, Tail, StandsBefore, StandsIn, HeaderLines;
    var n := |files[0].contents|;
    BehindContents(ls, j, files, c);
    if k < n {
      IndentedCollectable(files[0].contents);
      LinesOutside(ls, j, Indented(files[0].contents), k + 1);
      m := j + n;
    } else {
      assert files[1..] != [];
      var next := files[1..];
      FirstHeader(ls, j + n, next, c);
      if k < n + 4 {
        HeaderCollectable(next[0]);
        HeaderLength(next[0]);
        LinesOutside(ls, j + n, HeaderLines(next[0]), k - n + 1);
        BehindContents(ls, j + n + 4, next, c);
        IndentedCollectable(next[0].contents);
        LinesOutside(ls, j + n + 4, Indented(next[0].contents), 0);
        m := j + n + 4 + |next[0].contents|;
        assert next[1..] == files[2..];
      } else {
        BodyLength(files);
        m := SkipsRest(ls, j + n + 4, next, c, k - n - 4);
      }
    }
  }

  lemma HeaderLength(f: WriteFile)
    ensures |HeaderLines(f)| == 4
  {
  }

  lemma BodyLength(files: seq<WriteFile>)
    requires |files| > 1
    ensures |BodyLines(files)| == |files[0].contents| + 4 + |BodyLines(files[1..])|
  {
    assert files[1..][1..] == files[2..];
  }

  /** The inner loop reads a body as `Read` says. */
  lemma BodyRead(ls: seq<string>, j: nat, files: seq<WriteFile>, c: Config) returns (m: nat)
    requires WellFormed(c) && files != [] && Printable(files) && StandsIn(ls, j, files, c)
    ensures var lines, b := BodyLines(files), ParseBody(ls, j);
      var k := FirstMark(lines);
      && b.Body?
      && if k == |lines| then
           b.contents == Stripped(lines) && b.cmds == [c.cmd] && Parse(ls, b.next) == Parsed([], [])
         else
           && b.contents == Stripped(lines[..k + 1]) && b.cmds == []
           && StandsBefore(ls, m, FilesAfter(files, k), c) && Parse(ls, b.next) == Parse(ls, m)
  {
    hide Parse, ParseBody, WellFormed, Printable, Tail, BodyLines, FirstMark, StandsBefore, Unmarked, Contains,
         Collectable;
    var lines := BodyLines(files);
    var k := FirstMark(lines);
    BodyCollectable(files);
    Cut(ls, j, lines, Tail(c));
    if k == |lines| {
      assert lines[..k] == lines;
      BodyThrough(ls, j, lines);
      BodyAtTail(ls, j + k, c);
      RestOutside(ls, j + k, c);
      assert Stripped(lines) + [] == Stripped(lines);
      m := 0;
    } else {
      BodyToMark(ls, j, lines, k);
      m := SkipsRest(ls, j, files, c, k);
    }
  }

  /** Where the parser stands before `files` and the tail, it reads what `Read` says. */
  lemma {:induction false} ParseFiles(ls: seq<string>, i: nat, files: seq<WriteFile>, c: Config)
    requires WellFormed(c) && Printable(files) && StandsBefore(ls, i, files, c)
    ensures Parse(ls, i) == Read(files, c.cmd)
    decreases |files|
  {
    hide WellFormed, ParseHeader, ParseBody, FirstMark, BodyLines, StandsBefore, StandsIn, Stripped, FilesAfter,
         FieldsOk;
    if files == [] {
      NoFiles(ls, i, c);
    } else {
      FirstHeader(ls, i, files, c);
      var m := BodyRead(ls, i + 4, files, c);
      var k := FirstMark(BodyLines(files));
      if k < |BodyLines(files)| {
        AfterPrintable(files, k);
        ParseFiles(ls, m, FilesAfter(files, k), c);
      }
    }
  }

  lemma {:induction false} AfterPrintable(files: seq<WriteFile>, k: nat)
    requires files != [] && Printable(files)
    ensures Printable(FilesAfter(files, k))
    decreases |files|
  {
    hide FieldsOk;
    var n := |files[0].contents|;
    if |files| > 1 && k >= n + 4 { AfterPrintable(files[1..], k - n - 4); }
  }

  lemma NoFiles(ls: seq<string>, i: nat, c: Config)
    requires WellFormed(c) && StandsBefore(ls, i, [], c)
    ensures Parse(ls, i) == Parsed([], [])
  {
    hide WellFormed, ParseHeader, ParseBody;
    TailOutside(c);
    assert ls[i..] == Tail(c);
    assert forall k :: i <= k < |ls| ==> ls[k] == ls[i..][k - i];
    ParseOutside(ls, i, |ls| - i);
  }

  lemma RestOutside(ls: seq<string>, i: nat, c: Config)
    requires WellFormed(c) && i <= |ls| && ls[i..] == Tail(c)
    ensures Parse(ls, i + 2) == Parsed([], [])
  {
    hide ParseHeader, ParseBody;
    assert forall k :: i + 2 <= k < |ls| ==> ls[k] == ls[i..][k - i] == c.footer[k - i - 2];
    ParseOutside(ls, i + 2, |c.footer|);
  }

  lemma PrintedLines(c: Config)
    requires WellFormed(c)
    ensures Lines(Print(c)) == c.header + FileLines(c.files) + Tail(c)
  {
    var ls := c.header + FileLines(c.files) + Tail(c);
    CleanFiles(c.files);
    CleanTail(c);
    LinesUnlines(ls);
  }

  lemma CleanTail(c: Config)
    requires WellFormed(c)
    ensures forall l :: l in Tail(c) ==> CleanLine(l)
  {
    var rest := if c.quoted then "'" + c.cmd + "'" else c.cmd;
    CleanPrefixed("  - ", rest);
    forall l | l in c.footer ensures CleanLine(l) { var k :| 0 <= k < |c.footer| && c.footer[k] == l; }
  }

  lemma CleanPrefixed(pre: string, rest: string)
    requires CleanLine(pre) && CleanLine(rest)
    ensures CleanLine(pre + rest)
  {
  }

  lemma {:induction false} CleanFiles(files: seq<WriteFile>)
    requires forall k :: 0 <= k < |files| ==> FieldsOk(files[k])
    ensures forall l :: l in FileLines(files) ==> CleanLine(l)
  {
    if files != [] {
      var f := files[0];
      CleanFiles(files[1..]);
      assert FieldsOk(f);
      CleanPrefixed("-   path: ", f.path);
      CleanPrefixed("    owner: ", f.owner);
      CleanPrefixed("    permissions: ", "'" + f.permissions + "'");
      forall l | l in Indented(f.contents) ensures CleanLine(l) {
        var k :| 0 <= k < |f.contents| && l == INDENT + f.contents[k];
        CleanPrefixed(INDENT, f.contents[k]);
      }
    }
  }

  lemma FilesBegin(c: Config)
    requires WellFormed(c)
    ensures var ls, n := Lines(Print(c)), |c.header|;
      StandsBefore(ls, n, c.files, c) && Printable(c.files) && Parse(ls, 0) == Parse(ls, n)
  {
    hide Parse, Lines, Print, Tail, FileLines, Printable;
    PrintedLines(c);
    var ls, n := Lines(Print(c)), |c.header|;
    assert forall k :: 0 <= k < n ==> ls[k] == c.header[k];
    ParseOutside(ls, 0, n);
    assert ls[n..] == FileLines(c.files) + Tail(c);
  }

  /** Printed text is parsed without a fault, to what `Read` says, wherever the end marks are. */
  lemma PrintRead(c: Config)
    requires WellFormed(c)
    ensures Parse(Lines(Print(c)), 0) == Read(c.files, c.cmd)
  {
    hide Parse, Lines, Print, StandsBefore, Printable, Read;
    FilesBegin(c);
    ParseFiles(Lines(Print(c)), |c.header|, c.files, c);
  }

  // ----------------------------------------------------------- when everything is read back

  lemma {:induction false} IndentedMark(contents: seq<string>)
    ensures FirstMark(Indented(contents)) == FirstMark(contents)
  {
    hide Contains;
    if contents != [] {
      IndentKeepsMark(contents[0]);
      IndentedMark(contents[1..]);
      assert Indented(contents)[1..] == Indented(contents[1..]);
    }
  }

  lemma {:induction false} MarkInFront(a: seq<string>, b: seq<string>)
    ensures FirstMark(a + b) == if FirstMark(a) < |a| then FirstMark(a) else |a| + FirstMark(b)
  {
    hide Contains;
    if a == [] {
      assert a + b == b;
    } else {
      MarkInFront(a[1..], b);
      assert (a + b)[1..] == a[1..] + b;
    }
  }

  /** Where the first mark of a body is, in terms of the first file. */
  lemma BodyMark(files: seq<WriteFile>)
    requires files != []
    ensures var c, k := files[0].contents, FirstMark(BodyLines(files));
      && |BodyLines(files)| == |c| + |FileLines(files[1..])|
      && (if FirstMark(c) < |c| then
            k == FirstMark(c) && Stripped(BodyLines(files)[..k + 1]) == c[..k + 1] && FilesAfter(files, k) == files[1..]
          else k >= |c|)
      && (|files| == 1 ==> Stripped(BodyLines(files)) == c)
      && (|files| > 1 ==> |FileLines(files[1..])| >= 4)
  {
    hide FirstMark, Contains, HeaderLines;
    var c, rest := files[0].contents, FileLines(files[1..]);
    IndentedMark(c);
    MarkInFront(Indented(c), rest);
    IndentedBack(c);
    var k := FirstMark(c);
    if k < |c| { StrippedFront(Indented(c), rest, k + 1); }
    if |files| == 1 {
      assert Indented(c) + rest == Indented(c);
    } else {
      HeaderLength(files[1]);
      assert files[1..][0] == files[1];
    }
  }

  lemma StrippedFront(a: seq<string>, b: seq<string>, n: nat)
    requires n <= |a|
    ensures Stripped((a + b)[..n]) == Stripped(a)[..n]
  {
    assert (a + b)[..n] == a[..n];
    assert Stripped(a[..n]) == Stripped(a)[..n];
  }

  lemma MarkKinds(f: WriteFile)
    ensures EndsInMark(f) <==> FirstMark(f.contents) + 1 == |f.contents|
    ensures Unmarked(f.contents) <==> FirstMark(f.contents) == |f.contents|
  {
    hide Contains;
    var c, k := f.contents, FirstMark(f.contents);
    assert c[..|c|] == c;
    assert forall i :: 0 <= i < |c| - 1 ==> c[..|c| - 1][i] == c[i];
    assert forall i :: 0 <= i < k ==> c[..k][i] == c[i];
  }

  lemma {:induction false} ReadBack(files: seq<WriteFile>, cmd: string)
    ensures Read(files, cmd) == Parsed(files, [cmd]) <==> Framed(files)
    decreases |files|
  {
    hide FirstMark, Stripped, BodyLines, FilesAfter, EndsInMark, Unmarked;
    if files != [] {
      var f, k := files[0], FirstMark(BodyLines(files));
      BodyMark(files);
      MarkKinds(f);
      if FirstMark(f.contents) + 1 == |f.contents| {
        ReadBack(files[1..], cmd);
        assert f.contents[..k + 1] == f.contents;
        assert f.(contents := f.contents) == f && files == [f] + files[1..];
        FrontOfFiles(f, files[1..], Read(files[1..], cmd), cmd);
        assert |files| == 1 ==> files[1..] == [];
      } else if FirstMark(f.contents) < |f.contents| || |files| > 1 {
        assert |Stripped(BodyLines(files)[..if k < |BodyLines(files)| then k + 1 else k])| != |f.contents|;
        assert BodyLines(files)[..|BodyLines(files)|] == BodyLines(files);
        OtherFront(files, Read(files, cmd));
      } else {
        assert files == [f];
      }
    }
  }

  lemma FrontOfFiles(f: WriteFile, rest: seq<WriteFile>, p: Parsed, cmd: string)
    ensures Extend([f], [], p) == Parsed([f] + rest, [cmd]) <==> p == Parsed(rest, [cmd])
  {
    if p.Parsed? {
      assert ([f] + p.files)[1..] == p.files && ([f] + rest)[1..] == rest;
      assert [] + p.cmds == p.cmds;
    }
  }

  lemma OtherFront(files: seq<WriteFile>, p: Parsed)
    requires files != [] && (p.Parsed? ==> |p.files| > 0 && |p.files[0].contents| != |files[0].contents|)
    ensures forall cmds :: p != Parsed(files, cmds)
  {
  }

  /** Parsing printed text gives the same paths, owners, permissions, contents and command,
      with no index fault, exactly when the files are framed. */
  lemma PrintParse(c: Config)
    requires WellFormed(c)
    ensures Parse(Lines(Print(c)), 0) == Parsed(c.files, [c.cmd]) <==> Framed(c.files)
  {
    hide Parse, Lines, Print, Read;
    PrintRead(c);
    ReadBack(c.files, c.cmd);
  }

  // ------------------------------------------------------------------------- files are cut

  /** The file up to and with its first mark. */
  function CutFile(f: WriteFile): WriteFile {
    var k := FirstMark(f.contents);
    if k < |f.contents| then f.(contents := f.contents[..k + 1]) else f
  }

  function CutFiles(files: seq<WriteFile>): seq<WriteFile> {
    if files == [] then [] else [CutFile(files[0])] + CutFiles(files[1..])
  }

  predicate HasMark(f: WriteFile) {
    FirstMark(f.contents) < |f.contents|
  }

  /** The command is behind a file that runs on to it. */
  predicate CommandSeen(files: seq<WriteFile>) {
    files != [] && !HasMark(files[|files| - 1])
  }

  lemma {:induction false} ReadCut(files: seq<WriteFile>, cmd: string)
    requires forall k :: 0 <= k < |files| - 1 ==> HasMark(files[k])
    ensures Read(files, cmd) == Parsed(CutFiles(files), if CommandSeen(files) then [cmd] else [])
    decreases |files|
  {
    hide FirstMark, Stripped, BodyLines, FilesAfter;
    if files != [] {
      var f, rest := files[0], files[1..];
      BodyMark(files);
      if HasMark(f) {
        ReadCut(rest, cmd);
        assert |files| > 1 ==> files[|files| - 1] == rest[|rest| - 1];
        assert forall p: seq<string> :: [] + p == p;
      } else {
        assert |files| == 1 && CutFiles(rest) == [];
        assert f.(contents := f.contents) == f;
      }
    }
  }

  /** When only the last file may lack a mark, every file is cut behind its first mark, without a
      fault, and the command is read exactly if the last file has none. */
  lemma FilesAreCut(c: Config)
    requires WellFormed(c)
    requires forall k :: 0 <= k < |c.files| - 1 ==> HasMark(c.files[k])
    ensures Parse(Lines(Print(c)), 0) == Parsed(CutFiles(c.files), if CommandSeen(c.files) then [c.cmd] else [])
  {
    hide Parse, Lines, Print, Read, HasMark, CommandSeen;
    PrintRead(c);
    ReadCut(c.files, c.cmd);
  }

  lemma {:induction false} WholeFiles(files: seq<WriteFile>)
    requires forall k :: 0 <= k < |files| ==> EndsInMark(files[k])
    ensures CutFiles(files) == files && forall k :: 0 <= k < |files| ==> HasMark(files[k])
  {
    hide EndsInMark, FirstMark;
    if files != [] {
      var f := files[0];
      MarkKinds(f);
      WholeFiles(files[1..]);
      assert f.contents[..|f.contents|] == f.contents;
      assert forall k :: 0 < k < |files| ==> files[k] == files[1..][k - 1];
    }
  }

  /** When the last file ends in the mark like all others, its files are read back but the
      run command is never seen. */
  lemma CommandLost(c: Config)
    requires WellFormed(c)
    requires forall k :: 0 <= k < |c.files| ==> EndsInMark(c.files[k])
    ensures Parse(Lines(Print(c)), 0) == Parsed(c.files, [])
  {
    hide Parse, Lines, Print, EndsInMark, HasMark;
    WholeFiles(c.files);
    FilesAreCut(c);
  }

  const BUNDLE := WriteFile("/c", "root", "0640", ["a", "-----END", "b", "-----END"])
  const PLAIN := WriteFile("/k", "root", "0640", ["k"])
  const TWO_CERTIFICATES := Config([], [BUNDLE, PLAIN], "reboot", true, [])

  lemma ShortFields(path: string, contents: seq<string>)
    requires |path| == 2 && path[0] == '/' && CleanLine(path)
    requires forall k :: 0 <= k < |contents| ==> CleanLine(contents[k])
    ensures FieldsOk(WriteFile(path, "root", "0640", contents))
  {
    hide Contains;
    NeedsFront(path, "-   path: ");
    NeedsFront("root", "    owner: ");
    NeedsFront("0640", "    permissions: ");
  }

  lemma BundleMarks()
    ensures FirstMark(BUNDLE.contents) == 1 && FirstMark(PLAIN.contents) == 1
  {
    hide Contains;
    NeedsFront("a", "-----END");
    NeedsFront("k", "-----END");
    ContainsAt("-----END", "-----END", 0);
    assert BUNDLE.contents[1..][0] == "-----END";
    assert PLAIN.contents[1..] == [];
  }

  /** A bundle of two certificates loses the second one, and nothing else happens. */
  lemma BundleIsCut()
    ensures WellFormed(TWO_CERTIFICATES)
    ensures Parse(Lines(Print(TWO_CERTIFICATES)), 0) ==
            Parsed([BUNDLE.(contents := ["a", "-----END"]), PLAIN], ["reboot"])
  {
    hide Parse, Lines, Print, Contains, FieldsOk, FirstMark;
    ShortFields("/c", BUNDLE.contents);
    ShortFields("/k", PLAIN.contents);
    NeedsFront("reboot", "  - ");
    BundleMarks();
    FilesAreCut(TWO_CERTIFICATES);
    TwoCut(BUNDLE, PLAIN);
    assert BUNDLE.contents[..2] == ["a", "-----END"];
  }

  lemma TwoCut(f: WriteFile, g: WriteFile)
    ensures CutFiles([f, g]) == [CutFile(f), CutFile(g)]
  {
    hide CutFile;
    assert [f, g][1..] == [g] && [g][1..] == [];
    assert CutFiles([g]) == [CutFile(g)];
  }

  // --------------------------------------------------------------- any other input

  /** No mark before the last line of a file. */
  predicate MarkOnlyLast(contents: seq<string>) {
    forall k :: 0 <= k < |contents| - 1 ==> !Contains(contents[k], "-----END")
  }

  lemma {:induction false} BodyShape(ls: seq<string>, i: nat)
    ensures var b := ParseBody(ls, i); b.Body? ==> MarkOnlyLast(b.contents) && |b.cmds| <= 1
    decreases |ls| - i
  {
    hide Index, Command;
    if i < |ls| && |ls[i]| >= 6 && !Contains(ls[i], "-----END") && !("runcmd" <= ls[i]) {
      BodyShape(ls, i + 1);
      var b := ParseBody(ls, i + 1);
      if Contains(ls[i][6..], "-----END") { ContainsSuffix(ls[i], 6, "-----END"); }
      if b.Body? {
        var all := [ls[i][6..]] + b.contents;
        assert forall k :: 0 < k < |all| ==> all[k] == b.contents[k - 1];
      }
    }
  }

  /** What the inner loop does on any input. Line `k` is the first from `i` on that is too short,
      carries the end mark or begins the run commands; the lines before it lose six bytes each.
      A short line or the end of the input is a fault; the marked line still belongs to the
      file; behind the other terminator the command is looked for in one line. */
  lemma BodyExactly(ls: seq<string>, i: nat, k: nat)
    requires i <= k <= |ls|
    requires forall j :: i <= j < k ==> |ls[j]| >= 6 && !Contains(ls[j], "-----END") && !("runcmd" <= ls[j])
    requires k < |ls| ==> |ls[k]| < 6 || Contains(ls[k], "-----END") || "runcmd" <= ls[k]
    ensures ParseBody(ls, i) ==
      if k == |ls| || |ls[k]| < 6 then BodyFault
      else if Contains(ls[k], "-----END") then Body(Stripped(ls[i..k + 1]), [], k + 1)
      else Body(Stripped(ls[i..k]), Command(LineAt(ls, k + 1)), if k + 2 <= |ls| then k + 2 else |ls|)
  {
    hide ParseBody, Contains, Command;
    BodyThrough(ls, i, ls[i..k]);
    BodyStep(ls, k, Stripped(ls[i..k]));
    if k < |ls| && |ls[k]| >= 6 { assert Stripped(ls[i..k]) + [ls[k][6..]] == Stripped(ls[i..k + 1]); }
  }

  /** Whatever the input, a scan that does not fault yields files with no end mark before
      their last line, and no more run commands than files. */
  lemma {:induction false} ParseShape(ls: seq<string>, i: nat)
    ensures var p := Parse(ls, i); p.Parsed? ==>
      && |p.cmds| <= |p.files|
      && forall k :: 0 <= k < |p.files| ==> MarkOnlyLast(p.files[k].contents)
    decreases |ls| - i
  {
    hide Index, ParseHeader, ParseBody;
    if i < |ls| {
      if "-   path: " <= ls[i] {
        var b := ParseBody(ls, i + 4);
        if b.Body? {
          BodyShape(ls, i + 4);
          ParseShape(ls, b.next);
        }
      } else {
        ParseShape(ls, i + 1);
      }
    }
  }
}
