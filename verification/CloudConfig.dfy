/** utils/cloudConfig.go: the line scanner that picks the write-files and the run command
    out of a bootstrap secret. A slice or index fault of the Go code is a `Fault`. */
module CloudConfigParser {
  import opened Strings

  const PREFIX_PATH := "-   path: "
  const PREFIX_OWNER := "    owner: "
  const PREFIX_PERMISSION := "    permissions: "
  const END_WRITE_FILE := "-----END"
  const START_RUN_CMD := "runcmd"
  const PREFIX_RUN_CMD := "  - "

  datatype WriteFile = WriteFile(path: string, owner: string, permissions: string, contents: seq<string>)

  // ------------------------------------------------------------- specification

  datatype Parsed = Fault | Parsed(files: seq<WriteFile>, cmds: seq<string>)

  /** What the inner loop collects, and the line after the ones it consumed. */
  datatype Body = BodyFault | Body(contents: seq<string>, cmds: seq<string>, next: nat)

  datatype Header = HeaderFault | Header(path: string, owner: string, permissions: string)

  /** `scanner.Text()` after a scan of line `i`; past the end it is empty. */
  function LineAt(ls: seq<string>, i: nat): string {
    if i < |ls| then ls[i] else ""
  }

  /** `strings.Split(line, sep)[1]`, None being the index fault. */
  function Field(line: string, sep: string): Option<string>
    requires sep != ""
  {
    var parts := Split(line, sep);
    if |parts| > 1 then Some(parts[1]) else None
  }

  function Command(line: string): (cmds: seq<string>)
    ensures |cmds| <= 1
  {
    if Contains(line, PREFIX_RUN_CMD) then
      var quoted := Split(Split(line, PREFIX_RUN_CMD)[1], "'");
      [quoted[if |quoted| == 1 then 0 else 1]]
    else []
  }

  function ParseHeader(ls: seq<string>, i: nat): Header {
    var path := Field(LineAt(ls, i), PREFIX_PATH);
    var owner := Field(LineAt(ls, i + 1), PREFIX_OWNER);
    var permissions := Field(LineAt(ls, i + 2), PREFIX_PERMISSION);
    if path.None? || owner.None? || permissions.None? then HeaderFault
    else
      var unquoted := Field(permissions.value, "'");
      if unquoted.None? then HeaderFault
      else Header(path.value, owner.value, unquoted.value)
  }

  function Prepend(contents: seq<string>, b: Body): Body {
    if b.BodyFault? then b else b.(contents := contents + b.contents)
  }

  function ParseBody(ls: seq<string>, i: nat): (b: Body)
    ensures b.Body? ==> i < b.next <= |ls|
    decreases |ls| - i
  {
    if i >= |ls| || |ls[i]| < 6 then BodyFault
    else if Contains(ls[i], END_WRITE_FILE) then Body([ls[i][6..]], [], i + 1)
    else if START_RUN_CMD <= ls[i] then
      Body([], Command(LineAt(ls, i + 1)), if i + 2 <= |ls| then i + 2 else |ls|)
    else Prepend([ls[i][6..]], ParseBody(ls, i + 1))
  }

  function Extend(files: seq<WriteFile>, cmds: seq<string>, p: Parsed): Parsed {
    if p.Fault? then p else Parsed(files + p.files, cmds + p.cmds)
  }

  function Parse(ls: seq<string>, i: nat): Parsed
    decreases |ls| - i
  {
    if i >= |ls| then Parsed([], [])
    else if PREFIX_PATH <= ls[i] then
      var h := ParseHeader(ls, i);
      if h.HeaderFault? then Fault
      else
        var b := ParseBody(ls, i + 4);
        if b.BodyFault? then Fault
        else Extend([WriteFile(h.path, h.owner, h.permissions, b.contents)], b.cmds, Parse(ls, b.next))
    else Parse(ls, i + 1)
  }

  // ------------------------------------------------------------ imperative form

  /** `bufio.Scanner` over the lines of the input. */
  class Scanner {
    const lines: seq<string>
    var pos: nat
    var text: string

    constructor (input: string)
      ensures lines == Lines(input) && pos == 0
    {
      lines := Lines(input);
      pos, text := 0, "";
    }

    method Scan() returns (ok: bool)
      requires pos <= |lines|
      modifies this
      ensures ok == (old(pos) < |lines|)
      ensures pos == if ok then old(pos) + 1 else old(pos)
      ensures text == LineAt(lines, old(pos))
    {
      ok := pos < |lines|;
      if ok {
        text := lines[pos];
        pos := pos + 1;
      } else {
        text := "";
      }
    }
  }

  class CloudConfig {
    var WriteFiles: seq<WriteFile>
    var RunCmd: seq<string>

    constructor ()
      ensures WriteFiles == [] && RunCmd == []
    {
      WriteFiles, RunCmd := [], [];
    }

    /** The path, owner and permissions lines; the scanner stands on the first of them. */
    static method ReadHeader(scanner: Scanner) returns (header: Header)
      requires 0 < scanner.pos <= |scanner.lines| && scanner.text == scanner.lines[scanner.pos - 1]
      modifies scanner
      ensures header == ParseHeader(scanner.lines, old(scanner.pos) - 1)
      ensures header.Header? ==> scanner.pos == Clamp(old(scanner.pos) + 2, |scanner.lines|)
    {
      var path := Field(scanner.text, PREFIX_PATH);
      if path.None? { return HeaderFault; }

      var _ := scanner.Scan();
      var owner := Field(scanner.text, PREFIX_OWNER);
      if owner.None? { return HeaderFault; }

      var _ := scanner.Scan();
      var permission := Field(scanner.text, PREFIX_PERMISSION);
      if permission.None? { return HeaderFault; }
      permission := Field(permission.value, "'");
      if permission.None? { return HeaderFault; }
      return Header(path.value, owner.value, permission.value);
    }

    /** The content lines, up to either terminator; a run command found behind them is
        appended at once. */
    method ReadContents(scanner: Scanner) returns (ok: bool, contents: seq<string>)
      requires scanner.pos <= |scanner.lines|
      modifies this, scanner
      ensures WriteFiles == old(WriteFiles)
      ensures var b := ParseBody(scanner.lines, old(scanner.pos));
              && (ok <==> b.Body?)
              && (ok ==> contents == b.contents && RunCmd == old(RunCmd) + b.cmds && scanner.pos == b.next)
    {
      hide ParseBody, Command, Contains;
      ghost var ls, start := scanner.lines, scanner.pos;
      contents := [];
      while true
        invariant scanner.lines == ls && scanner.pos == start + |contents| <= |ls|
        invariant WriteFiles == old(WriteFiles) && RunCmd == old(RunCmd)
        invariant ParseBody(ls, start) == Prepend(contents, ParseBody(ls, scanner.pos))
        decreases |ls| - scanner.pos
      {
        ghost var here, taken := scanner.pos, contents;
        BodyStep(ls, here, taken);
        var _ := scanner.Scan();
        if |scanner.text| < 6 { return false, contents; }
        contents := contents + [scanner.text[6..]];
        if Contains(scanner.text, END_WRITE_FILE) {
          return true, contents;
        }
        if START_RUN_CMD <= scanner.text {
          contents := contents[..|contents| - 1];
          assert contents == taken;
          var _ := scanner.Scan();
          RunCmd := RunCmd + Command(scanner.text);
          return true, contents;
        }
      }
    }

    /** Appends what the input holds; `ok` is false where the Go code panics. */
    method FromBytes(input: string) returns (ok: bool)
      modifies this
      ensures ok <==> Parse(Lines(input), 0).Parsed?
      ensures ok ==> Parsed(WriteFiles, RunCmd) ==
                     Extend(old(WriteFiles), old(RunCmd), Parse(Lines(input), 0))
    {
      hide Parse, ParseHeader, ParseBody, Lines;
      var scanner := new Scanner(input);
      ghost var ls := scanner.lines;
      ghost var files: seq<WriteFile>, cmds: seq<string> := [], [];
      ExtendUnit(ls);
      var more := scanner.Scan();
      while more
        invariant scanner.lines == ls && scanner.pos <= |ls|
        invariant more ==> 0 < scanner.pos && scanner.text == ls[scanner.pos - 1]
        invariant !more ==> scanner.pos == |ls|
        invariant WriteFiles == old(WriteFiles) + files && RunCmd == old(RunCmd) + cmds
        invariant Extend([], [], Parse(ls, 0)) == Extend(files, cmds, Parse(ls, if more then scanner.pos - 1 else |ls|))
        decreases |ls| - scanner.pos, more
      {
        if PREFIX_PATH <= scanner.text {
          ghost var start := scanner.pos - 1;
          FileStep(ls, start, files, cmds);
          var header := ReadHeader(scanner);
          if header.HeaderFault? { return false; }
          var _ := scanner.Scan();
          var read, contents := ReadContents(scanner);
          if !read { return false; }
          var writeFile := WriteFile(header.path, header.owner, header.permissions, contents);
          WriteFiles := WriteFiles + [writeFile];
          files, cmds := files + [writeFile], cmds + ParseBody(ls, start + 4).cmds;
        } else {
          SkipStep(ls, scanner.pos - 1);
        }
        more := scanner.Scan();
      }
      return true;
    }
  }

  function Clamp(i: nat, n: nat): nat {
    if i <= n then i else n
  }

  /** One turn of the inner loop. */
  lemma BodyStep(ls: seq<string>, i: nat, taken: seq<string>)
    ensures var line := LineAt(ls, i);
      Prepend(taken, ParseBody(ls, i)) ==
        if |line| < 6 then BodyFault
        else if Contains(line, END_WRITE_FILE) then Body(taken + [line[6..]], [], i + 1)
        else if START_RUN_CMD <= line then Body(taken, Command(LineAt(ls, i + 1)), Clamp(i + 2, |ls|))
        else Prepend(taken + [line[6..]], ParseBody(ls, i + 1))
  {
    hide Contains, Command;
    var rest := ParseBody(ls, i + 1);
    if rest.Body? && i < |ls| && |ls[i]| >= 6 {
      assert taken + ([ls[i][6..]] + rest.contents) == taken + [ls[i][6..]] + rest.contents;
    }
  }

  lemma SkipStep(ls: seq<string>, i: nat)
    requires i < |ls| && !(PREFIX_PATH <= ls[i])
    ensures Parse(ls, i) == Parse(ls, i + 1)
  {
  }

  lemma ExtendUnit(ls: seq<string>)
    ensures Extend([], [], Parse(ls, 0)) == Parse(ls, 0)
    ensures Parse(ls, |ls|) == Parsed([], [])
  {
  }

  /** One file of the outer loop. */
  lemma FileStep(ls: seq<string>, i: nat, files: seq<WriteFile>, cmds: seq<string>)
    requires i < |ls| && PREFIX_PATH <= ls[i]
    ensures var h, b := ParseHeader(ls, i), ParseBody(ls, Clamp(i + 4, |ls|));
      Extend(files, cmds, Parse(ls, i)) ==
        if h.HeaderFault? || b.BodyFault? then Fault
        else Extend(files + [WriteFile(h.path, h.owner, h.permissions, b.contents)], cmds + b.cmds,
                    Parse(ls, b.next))
    ensures ParseBody(ls, i + 4) == ParseBody(ls, Clamp(i + 4, |ls|))
  {
    hide ParseHeader;
    var h, b := ParseHeader(ls, i), ParseBody(ls, i + 4);
    if h.Header? && b.Body? {
      var p := Parse(ls, b.next);
      if p.Parsed? {
        var file := [WriteFile(h.path, h.owner, h.permissions, b.contents)];
        assert files + (file + p.files) == files + file + p.files;
        assert cmds + (b.cmds + p.cmds) == cmds + b.cmds + p.cmds;
      }
    }
  }
}
