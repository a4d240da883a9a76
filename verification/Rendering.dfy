/** The loop of utils/provisioning.go that turns a file's content lines into the argument of
    `echo -e`, and the lines a node's file shows for it. */
module Rendering {
  import opened Shell
  import opened Strings

  const NAME_PREFIX := "  name: "

  // ---------------------------------------------------------------------- rendering

  /** One content line in the argument of `echo -e`, `nl` standing for a line end. */
  function Piece(content: string, hostName: string, nl: string): string {
    if NAME_PREFIX <= content then NAME_PREFIX + hostName
    else if content == "" then ""
    else content + nl
  }

  function Pieces(contents: seq<string>, hostName: string, nl: string): string {
    if contents == [] then "" else Piece(contents[0], hostName, nl) + Pieces(contents[1..], hostName, nl)
  }

  const ESCAPED_NL := "\\n"

  lemma {:induction false} PiecesSnoc(contents: seq<string>, last: string, hostName: string, nl: string)
    ensures Pieces(contents + [last], hostName, nl) == Pieces(contents, hostName, nl) + Piece(last, hostName, nl)
  {
    hide Piece;
    if contents == [] {
      assert [last][1..] == [];
    } else {
      PiecesSnoc(contents[1..], last, hostName, nl);
      assert (contents + [last])[1..] == contents[1..] + [last];
    }
  }

  lemma NoPieces(hostName: string)
    ensures Pieces([], hostName, ESCAPED_NL) == ""
  {
  }

  lemma Glue(a: string, content: string, name: string, hostName: string)
    ensures a + "" == a
    ensures a + (name + hostName) == a + name + hostName
    ensures a + (content + ESCAPED_NL) == a + content + ESCAPED_NL
  {
  }

  /** The inner loop over the content lines of one file. */
  method Render(contents: seq<string>, hostName: string) returns (arg: string)
    ensures arg == Pieces(contents, hostName, ESCAPED_NL)
  {
    hide Pieces;
    arg := "";
    NoPieces(hostName);
    for i := 0 to |contents|
      invariant arg == Pieces(contents[..i], hostName, ESCAPED_NL)
    {
      var content := contents[i];
      PiecesSnoc(contents[..i], content, hostName, ESCAPED_NL);
      Glue(arg, content, NAME_PREFIX, hostName);
      assert contents[..i + 1] == contents[..i] + [content];
      if NAME_PREFIX <= content {
        arg := arg + NAME_PREFIX + hostName;
        continue;
      }
      if content == "" {
        continue;
      }
      arg := arg + content + ESCAPED_NL;
    }
    assert contents[..|contents|] == contents;
  }

  /** Every line but the name lines, which are replaced, can be taken by the shell on its own. */
  predicate AllAlone(contents: seq<string>) {
    forall i :: 0 <= i < |contents| ==>
      '\n' !in contents[i] && ("  name: " <= contents[i] || Shown(contents[i]).Some?)
  }

  /** And arrives as it is. */
  predicate AllInert(contents: seq<string>) {
    forall i :: 0 <= i < |contents| ==> "  name: " <= contents[i] || Inert(contents[i])
  }

  /** One content line on the node. */
  function Line(content: string, hostName: string): string
    requires "  name: " <= content || Shown(content).Some?
  {
    if "  name: " <= content then "  name: " + hostName
    else if content == "" then ""
    else Shown(content).value + "\n"
  }

  /** What ends up in the file. */
  function Delivered(contents: seq<string>, hostName: string): string
    requires AllAlone(contents)
  {
    if contents == [] then "\n" else Line(contents[0], hostName) + Delivered(contents[1..], hostName)
  }

  lemma NameIsPlain(hostName: string)
    requires Plain(hostName)
    ensures Plain("  name: " + hostName)
  {
  }

  /** A name line, in front of a word `v`. */
  lemma NamePasses(hostName: string, rest: string, v: string, answers: Answers)
    requires Plain(hostName) && DoubleQuoted(rest, answers) == Some(v) && Escaped(v).Some?
    ensures var name := "  name: " + hostName;
      && DoubleQuoted(name + rest, answers) == Some(name + v)
      && Escaped(name + v) == Some(name + Escaped(v).value)
  {
    hide DoubleQuoted, Escaped, Plain;
    NameIsPlain(hostName);
    PlainPasses("  name: " + hostName, rest, answers);
    PlainPasses("  name: " + hostName, v, answers);
  }

  /** A line that can be taken on its own, and an escaped line end. */
  lemma LinePasses(content: string, rest: string, v: string, answers: Answers)
    requires Shown(content).Some? && DoubleQuoted(rest, answers) == Some(v) && Escaped(v).Some?
    ensures var w := DoubleQuoted(content + ESCAPED_NL + rest, answers);
      w.Some? && Escaped(w.value) == Some(Shown(content).value + "\n" + Escaped(v).value)
  {
    hide DoubleQuoted, Escaped, Dangling;
    var t := ESCAPED_NL + rest;
    var word := DoubleQuoted(content, map[]).value;
    NewlinePasses(rest, v, answers);
    WordPasses(content, t, answers);
    EscapedPasses(word, ESCAPED_NL + v);
    assert content + ESCAPED_NL + rest == content + t;
    var e, r := Escaped(word).value, Escaped(v).value;
    assert e + ("\n" + r) == e + "\n" + r;
  }

  /** The word and the text it prints, for one more content line. */
  lemma PiecePasses(content: string, hostName: string, rest: string, answers: Answers)
    requires ("  name: " <= content || Shown(content).Some?) && Plain(hostName)
    requires DoubleQuoted(rest, answers).Some? && Escaped(DoubleQuoted(rest, answers).value).Some?
    ensures var w := DoubleQuoted(Piece(content, hostName, ESCAPED_NL) + rest, answers);
      && w.Some?
      && Escaped(w.value) == Some(Line(content, hostName) + Escaped(DoubleQuoted(rest, answers).value).value)
  {
    hide DoubleQuoted, Escaped, Plain, Shown;
    var v := DoubleQuoted(rest, answers).value;
    if "  name: " <= content {
      NamePasses(hostName, rest, v, answers);
    } else if content == "" {
      assert "" + rest == rest && "" + Escaped(v).value == Escaped(v).value;
    } else {
      LinePasses(content, rest, v, answers);
    }
  }

  lemma NewlinePasses(rest: string, v: string, answers: Answers)
    ensures (ESCAPED_NL + rest)[0] == '\\'
    ensures DoubleQuoted(ESCAPED_NL + rest, answers) == Behind(ESCAPED_NL, DoubleQuoted(rest, answers))
    ensures Escaped(ESCAPED_NL + v) == Behind("\n", Escaped(v))
  {
    var s, t := ESCAPED_NL + rest, ESCAPED_NL + v;
    assert s[..2] == ESCAPED_NL && s[2..] == rest;
    assert t[..2] == ESCAPED_NL && t[2..] == v;
  }

  lemma {:induction false} PiecesPass(contents: seq<string>, hostName: string, answers: Answers)
    requires AllAlone(contents) && Plain(hostName)
    ensures var w := DoubleQuoted(Pieces(contents, hostName, ESCAPED_NL), answers);
      && w.Some? && Escaped(w.value).Some? && Escaped(w.value).value + "\n" == Delivered(contents, hostName)
  {
    hide Piece, Line, Plain, Shown;
    if contents != [] {
      var rest := Pieces(contents[1..], hostName, ESCAPED_NL);
      PiecesPass(contents[1..], hostName, answers);
      PiecePasses(contents[0], hostName, rest, answers);
      var l, e := Line(contents[0], hostName), Escaped(DoubleQuoted(rest, answers).value).value;
      assert l + e + "\n" == l + (e + "\n");
    }
  }

  /** The rendered text of lines that can be taken on their own prints these lines. */
  lemma EchoDelivers(contents: seq<string>, hostName: string, answers: Answers)
    requires AllAlone(contents) && Plain(hostName)
    ensures EchoText(Pieces(contents, hostName, ESCAPED_NL), answers) == Some(Delivered(contents, hostName))
  {
    hide DoubleQuoted, Escaped, Pieces, IsOption, Delivered, AllAlone, Plain;
    PiecesPass(contents, hostName, answers);
    NoOption(contents, hostName, answers);
  }

  /** Rendered text is never taken for options of `echo`. */
  lemma {:induction false} NoOption(contents: seq<string>, hostName: string, answers: Answers)
    ensures var w := DoubleQuoted(Pieces(contents, hostName, ESCAPED_NL), answers); w.Some? ==> !IsOption(w.value)
  {
    if contents != [] {
      var c, rest := contents[0], Pieces(contents[1..], hostName, ESCAPED_NL);
      if "  name: " <= c {
        NameWord(hostName, rest, answers);
      } else if c == "" {
        NoOption(contents[1..], hostName, answers);
        assert "" + rest == rest;
      } else {
        LineWord(c, rest, answers);
      }
    }
  }

  lemma NameWord(hostName: string, rest: string, answers: Answers)
    ensures var w := DoubleQuoted("  name: " + hostName + rest, answers); w.Some? ==> !IsOption(w.value)
  {
    assert ("  name: " + hostName + rest)[0] == ' ';
  }

  lemma LineWord(c: string, rest: string, answers: Answers)
    ensures var w := DoubleQuoted(c + ESCAPED_NL + rest, answers); w.Some? ==> !IsOption(w.value)
  {
    hide DoubleQuoted;
    assert c + ESCAPED_NL + rest == c + (ESCAPED_NL + rest);
    KeepsBackslash(c, rest, answers);
  }

  // ------------------------------------------------------- the lines on the node

  function NonBlank(ls: seq<string>): seq<string> {
    if ls == [] then []
    else (if ls[0] == "" then [] else [ls[0]]) + NonBlank(ls[1..])
  }

  /** The secret's non-blank lines, a name line rewritten to the host's name. */
  function Expected(contents: seq<string>, hostName: string): seq<string> {
    if contents == [] then []
    else (if contents[0] == "" then []
          else [if "  name: " <= contents[0] then "  name: " + hostName else contents[0]])
         + Expected(contents[1..], hostName)
  }

  /** A name line has only blank lines behind it. */
  predicate NameLast(contents: seq<string>) {
    contents == []
    || if "  name: " <= contents[0] then NonBlank(contents[1..]) == [] else NameLast(contents[1..])
  }

  function LinesOf(text: string): (ls: seq<string>)
    ensures |ls| >= 1
  {
    Split(text, "\n")
  }

  lemma Unfold(s: string)
    ensures var i := Index(s, "\n");
            LinesOf(s) == if i < 0 then [s] else [s[..i]] + LinesOf(s[i + 1..])
  {
    hide Index;
  }

  lemma SplitLine(l: string, rest: string)
    requires '\n' !in l
    ensures LinesOf(l + "\n" + rest) == [l] + LinesOf(rest)
  {
    hide LinesOf;
    var s := l + ("\n" + rest);
    assert l + "\n" + rest == s;
    IndexSkips(l, "\n" + rest, "\n");
    assert Index("\n" + rest, "\n") == 0;
    assert s[..|l|] == l && s[|l| + 1..] == rest;
    Unfold(s);
  }

  lemma SplitGlued(l: string, rest: string)
    requires '\n' !in l
    ensures LinesOf(l + rest) == [l + LinesOf(rest)[0]] + LinesOf(rest)[1..]
  {
    hide LinesOf, Index;
    var s := l + rest;
    IndexSkips(l, rest, "\n");
    Unfold(s);
    Unfold(rest);
    var i := Index(rest, "\n");
    if i < 0 {
      GlueHead(l, rest, []);
    } else {
      assert s[..|l| + i] == l + rest[..i];
      assert s[|l| + i + 1..] == rest[i + 1..];
      GlueHead(l, rest[..i], LinesOf(rest[i + 1..]));
    }
  }

  lemma GlueHead(l: string, head: string, tail: seq<string>)
    ensures var parts := [head] + tail; [l + parts[0]] + parts[1..] == [l + head] + tail
    ensures tail == [] ==> [head] + tail == [head] && [l + head] + tail == [l + head]
  {
    assert ([head] + tail)[1..] == tail;
  }

  lemma EmptyText()
    ensures LinesOf("\n") == ["", ""]
  {
    SplitLine("", "");
    assert "" + "\n" + "" == "\n";
    assert !Contains("", "\n");
  }

  lemma {:induction false} NonBlankNone(ls: seq<string>, hostName: string)
    ensures NonBlank(ls) == [] <==> Expected(ls, hostName) == []
  {
    if ls != [] { NonBlankNone(ls[1..], hostName); }
  }

  /** The text on the node when every line arrives as it is. */
  function Unchanged(contents: seq<string>, hostName: string): string {
    if contents == [] then "\n" else Piece(contents[0], hostName, "\n") + Unchanged(contents[1..], hostName)
  }

  predicate OneLiners(contents: seq<string>) {
    forall i :: 0 <= i < |contents| ==> '\n' !in contents[i]
  }

  /** The first line on the node is blank only when nothing else is there. */
  lemma {:induction false} FirstLine(contents: seq<string>, hostName: string)
    requires OneLiners(contents) && '\n' !in hostName
    ensures var ls := LinesOf(Unchanged(contents, hostName));
            if Expected(contents, hostName) == [] then ls == ["", ""] else ls[0] != ""
  {
    if contents == [] {
      EmptyText();
    } else {
      FirstLine(contents[1..], hostName);
      FrontLines(contents, hostName);
    }
  }

  /** How one content line shows in the lines on the node. */
  lemma FrontLines(contents: seq<string>, hostName: string)
    requires OneLiners(contents) && '\n' !in hostName && contents != []
    ensures var c, ls := contents[0], LinesOf(Unchanged(contents[1..], hostName));
      LinesOf(Unchanged(contents, hostName)) ==
        if "  name: " <= c then ["  name: " + hostName + ls[0]] + ls[1..]
        else if c == "" then ls
        else [c] + ls
  {
    hide LinesOf;
    var c, rest := contents[0], Unchanged(contents[1..], hostName);
    if "  name: " <= c {
      SplitGlued("  name: " + hostName, rest);
    } else if c == "" {
      assert "" + rest == rest;
    } else {
      SplitLine(c, rest);
    }
  }

  /** When every line arrives as it is, the node's file holds exactly the expected lines if and
      only if no line follows the name line. */
  lemma {:induction false} UnchangedExactly(contents: seq<string>, hostName: string)
    requires OneLiners(contents) && '\n' !in hostName
    ensures var ls := NonBlank(LinesOf(Unchanged(contents, hostName)));
      && |ls| <= |Expected(contents, hostName)|
      && (ls == Expected(contents, hostName) <==> NameLast(contents))
  {
    hide LinesOf, Unchanged;
    if contents == [] {
      DeliveredNothing(hostName);
    } else {
      var c, rest := contents[0], contents[1..];
      var ls := LinesOf(Unchanged(rest, hostName));
      UnchangedExactly(rest, hostName);
      FirstLine(rest, hostName);
      FrontLines(contents, hostName);
      NonBlankNone(rest, hostName);
      if "  name: " <= c {
        NameInFront("  name: " + hostName, ls);
      } else if c != "" {
        assert ([c] + ls)[1..] == ls;
        SameFront(c, NonBlank(ls), Expected(rest, hostName));
      }
    }
  }

  lemma NameInFront(name: string, ls: seq<string>)
    requires name != "" && ls != []
    ensures var glued := [name + ls[0]] + ls[1..];
      && (ls[0] != "" ==> |NonBlank(glued)| == |NonBlank(ls)|)
      && (ls == ["", ""] ==> NonBlank(glued) == [name])
  {
    var glued := [name + ls[0]] + ls[1..];
    if ls == ["", ""] {
      assert name + "" == name;
      assert glued == [name, ""];
      assert [name, ""][1..] == [""] && [""][1..] == [];
      assert NonBlank([""]) == [];
      assert NonBlank([name, ""]) == [name] + NonBlank([""]);
    } else {
      assert glued[1..] == ls[1..];
    }
  }

  lemma SameFront(c: string, a: seq<string>, b: seq<string>)
    ensures [c] + a == [c] + b <==> a == b
  {
    assert ([c] + a)[1..] == a && ([c] + b)[1..] == b;
  }

  lemma DeliveredNothing(hostName: string)
    ensures NonBlank(LinesOf(Unchanged([], hostName))) == []
  {
    EmptyText();
    assert ["", ""][1..] == [""];
  }

  // ------------------------------------------------------------ how much arrives at all

  /** The bytes of a text that are not line ends. */
  function Ink(s: string): nat {
    if s == "" then 0 else (if s[0] == '\n' then 0 else 1) + Ink(s[1..])
  }

  function Total(ls: seq<string>): nat {
    if ls == [] then 0 else |ls[0]| + Total(ls[1..])
  }

  lemma {:induction false} InkAdds(a: string, b: string)
    ensures Ink(a + b) == Ink(a) + Ink(b)
  {
    if a == "" { assert a + b == b; } else { InkAdds(a[1..], b); assert (a + b)[1..] == a[1..] + b; }
  }

  lemma {:induction false} InkAtMost(s: string)
    ensures Ink(s) <= |s| && ('\n' !in s ==> Ink(s) == |s|)
  {
    if s != "" { InkAtMost(s[1..]); }
  }

  lemma TotalMore(l: string, ls: seq<string>)
    ensures Total([l] + ls) == |l| + Total(ls)
    ensures [] + ls == ls
  {
    assert ([l] + ls)[1..] == ls;
  }

  lemma {:induction false} TotalNonBlank(ls: seq<string>)
    ensures Total(NonBlank(ls)) == Total(ls)
  {
    if ls != [] {
      TotalNonBlank(ls[1..]);
      TotalMore(ls[0], NonBlank(ls[1..]));
    }
  }

  /** The lines of a text hold all its ink. */
  lemma {:induction false} LinesHoldInk(s: string)
    ensures Total(LinesOf(s)) == Ink(s)
    decreases |s|
  {
    hide LinesOf, Index;
    Unfold(s);
    var i := Index(s, "\n");
    if i < 0 {
      NoLineEnd(s);
      InkAtMost(s);
      assert [s][1..] == [];
    } else {
      var front, rest := s[..i], s[i + 1..];
      LinesHoldInk(rest);
      FrontNoLineEnd(s);
      InkAtMost(front);
      InkAdds(front, s[i..]);
      assert front + s[i..] == s && s[i..][0] == '\n' && s[i..][1..] == rest;
      assert ([front] + LinesOf(rest))[1..] == LinesOf(rest);
    }
  }

  lemma NoLineEnd(s: string)
    requires Index(s, "\n") < 0
    ensures '\n' !in s
  {
    hide Index;
    forall i | 0 <= i < |s| ensures s[i] != '\n' {
      assert !OccursAt(s, "\n", i);
      assert s[i..i + 1] == [s[i]];
    }
  }

  lemma FrontNoLineEnd(s: string)
    requires Index(s, "\n") >= 0
    ensures var i := Index(s, "\n"); i < |s| && s[i] == '\n' && '\n' !in s[..i]
  {
    hide Index;
    var i := Index(s, "\n");
    assert s[i..i + 1] == "\n";
    forall j | 0 <= j < i ensures s[j] != '\n' {
      assert !OccursAt(s, "\n", j);
      assert s[j..j + 1] == [s[j]];
    }
  }

  lemma MoreInert(contents: seq<string>)
    requires contents != [] && AllInert(contents[1..]) && ("  name: " <= contents[0] || Inert(contents[0]))
    ensures AllInert(contents)
  {
    hide Inert;
    assert forall i :: 0 < i < |contents| ==> contents[i] == contents[1..][i - 1];
  }

  lemma AloneRest(contents: seq<string>)
    requires contents != [] && AllAlone(contents)
    ensures AllAlone(contents[1..]) && ("  name: " <= contents[0] || Shown(contents[0]).Some?)
  {
    hide Shown;
  }

  /** Less arrives than is expected, unless every line arrives as it is. */
  lemma {:induction false} InkArrives(contents: seq<string>, hostName: string)
    requires AllAlone(contents) && '\n' !in hostName
    ensures Ink(Delivered(contents, hostName)) <= Total(Expected(contents, hostName))
    ensures Ink(Delivered(contents, hostName)) == Total(Expected(contents, hostName)) ==> AllInert(contents)
  {
    hide Shown, Inert, AllAlone, Line, Ink;
    if contents == [] {
      LineEndInk();
    } else {
      hide AllInert, Total;
      var c, rest := contents[0], contents[1..];
      AloneRest(contents);
      InkArrives(rest, hostName);
      InkAdds(Line(c, hostName), Delivered(rest, hostName));
      LineInk(c, hostName);
      TotalMore(c, Expected(rest, hostName));
      TotalMore("  name: " + hostName, Expected(rest, hostName));
      if AllInert(rest) && ("  name: " <= c || Inert(c)) { MoreInert(contents); }
    }
  }

  lemma LineInk(c: string, hostName: string)
    requires ("  name: " <= c || Shown(c).Some?) && '\n' !in hostName
    ensures "  name: " <= c ==> Ink(Line(c, hostName)) == |"  name: " + hostName|
    ensures !("  name: " <= c) ==> Ink(Line(c, hostName)) <= |c| && (Ink(Line(c, hostName)) == |c| ==> Inert(c))
  {
    hide Shown, Ink, Inert;
    if "  name: " <= c {
      InkAtMost("  name: " + hostName);
    } else if c == "" {
      InkAtMost("");
      NothingIsInert();
    } else {
      var v := Shown(c).value;
      InkAdds(v, "\n");
      InkAtMost(v);
      LineEndInk();
      ShownExactly(c);
    }
  }

  lemma NothingIsInert()
    ensures Inert("")
  {
  }

  lemma LineEndInk()
    ensures Ink("\n") == 0
  {
    assert "\n"[1..] == "";
  }

  lemma {:induction false} InertUnchanged(contents: seq<string>, hostName: string)
    requires AllAlone(contents) && AllInert(contents)
    ensures Delivered(contents, hostName) == Unchanged(contents, hostName)
  {
    hide Shown, Inert;
    if contents != [] {
      InertUnchanged(contents[1..], hostName);
      if !("  name: " <= contents[0]) { ShownExactly(contents[0]); }
    }
  }

  lemma AloneOneLiners(contents: seq<string>, hostName: string)
    requires AllAlone(contents) && Plain(hostName)
    ensures OneLiners(contents) && '\n' !in hostName
  {
    assert forall i :: 0 <= i < |hostName| ==> PlainChar(hostName[i]);
  }

  /** For lines the shell can take on their own, the node's file holds exactly the secret's
      non-blank lines in order, the name line rewritten, if and only if every line is inert and
      no line follows the name line. */
  lemma DeliveredExactly(contents: seq<string>, hostName: string)
    requires AllAlone(contents) && Plain(hostName)
    ensures NonBlank(LinesOf(Delivered(contents, hostName))) == Expected(contents, hostName) <==>
            AllInert(contents) && NameLast(contents)
  {
    hide LinesOf, NonBlank, Expected, Delivered, AllAlone, AllInert, Plain, NameLast, OneLiners;
    AloneOneLiners(contents, hostName);
    if AllInert(contents) {
      InertUnchanged(contents, hostName);
      UnchangedExactly(contents, hostName);
    } else {
      var text := Delivered(contents, hostName);
      LinesHoldInk(text);
      TotalNonBlank(LinesOf(text));
      InkArrives(contents, hostName);
    }
  }
}
