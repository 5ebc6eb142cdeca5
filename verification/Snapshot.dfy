/** Schema snapshots: rendering objects to a file, parsing the file back, and the drift
    report between two sets of objects. */
module Snapshot {
  import opened Text
  import opened Ordering

  datatype Object = Object(name: string, isMV: bool, ddl: string)

  const MARK := "-- name: "
  const HEADER := "-- Generated by chtool/schema; DO NOT EDIT."

  function KindText(isMV: bool): string {
    if isMV then "materialized view" else "table"
  }

  // ---------- rendering ----------

  function MarkerLine(o: Object): string {
    MARK + (o.name + " (" + (KindText(o.isMV) + ")"))
  }

  /** "-- name: %s (%s)\n%s;\n\n" */
  function Block(o: Object): string {
    MarkerLine(o) + "\n" + (o.ddl + ";" + "\n" + "\n")
  }

  function Blocks(objs: seq<Object>): string {
    if objs == [] then "" else Block(objs[0]) + Blocks(objs[1..])
  }

  function Rendered(objs: seq<Object>): string {
    HEADER + "\n" + ("\n" + Blocks(objs))
  }

  method Render(objs: seq<Object>) returns (text: string)
    ensures text == Rendered(objs)
  {
    text := HEADER + "\n" + "\n";
    ghost var head := text;
    var i := 0;
    while i < |objs|
      invariant 0 <= i <= |objs|
      invariant text + Blocks(objs[i..]) == head + Blocks(objs)
    {
      MoveBlock(text, objs, i);
      text := text + Block(objs[i]);
      i := i + 1;
    }
    assert text == head + Blocks(objs);
  }

  lemma MoveBlock(text: string, objs: seq<Object>, i: nat)
    requires i < |objs|
    ensures text + Block(objs[i]) + Blocks(objs[i + 1..]) == text + Blocks(objs[i..])
  {
    assert objs[i..][1..] == objs[i + 1..];
  }

  // ---------- lines ----------

  function DropCR(line: string): string {
    if line != "" && line[|line| - 1] == '\r' then line[..|line| - 1] else line
  }

  /** Up to the first newline; everything when there is none. */
  function FirstLine(text: string): (line: string)
    ensures |line| <= |text| && line == text[..|line|] && '\n' !in line
    ensures |line| < |text| ==> text[|line|] == '\n'
  {
    if text == "" || text[0] == '\n' then "" else [text[0]] + FirstLine(text[1..])
  }

  /** The lines a line scanner yields. */
  function Lines(text: string): seq<string> {
    if text == "" then []
    else
      var line := FirstLine(text);
      if |line| == |text| then [DropCR(line)] else [DropCR(line)] + Lines(text[|line| + 1..])
  }

  lemma {:induction false} FirstLineIs(line: string, rest: string)
    requires '\n' !in line
    ensures FirstLine(line + "\n" + rest) == line
  {
    var text := line + "\n" + rest;
    if line != "" {
      assert text[1..] == line[1..] + "\n" + rest;
      FirstLineIs(line[1..], rest);
      assert [line[0]] + line[1..] == line;
    }
  }

  lemma LinesCons(line: string, rest: string)
    requires '\n' !in line
    ensures Lines(line + "\n" + rest) == [DropCR(line)] + Lines(rest)
  {
    FirstLineIs(line, rest);
    assert (line + "\n" + rest)[|line| + 1..] == rest;
  }

  /** A last line counts whether or not a newline ends it. */
  lemma {:induction false} LastLineCounts(text: string)
    requires text != "" && text[|text| - 1] != '\n'
    ensures Lines(text + "\n") == Lines(text)
    decreases |text|
  {
    var line := FirstLine(text);
    if |line| == |text| {
      assert text + "\n" == line + "\n" + "";
      LinesCons(line, "");
    } else {
      var tail := text[|line| + 1..];
      assert text == line + "\n" + tail && text + "\n" == line + "\n" + (tail + "\n");
      LinesCons(line, tail);
      LinesCons(line, tail + "\n");
      LastLineCounts(tail);
    }
  }

  // ---------- name markers ----------

  /** Index of the last " (", or -1. */
  function LastParen(s: string): int {
    if |s| < 2 then -1
    else if s[|s| - 2..] == " (" then |s| - 2
    else LastParen(s[..|s| - 1])
  }

  lemma {:induction false} LastParenRange(s: string)
    ensures -1 <= LastParen(s) <= |s| - 2 || LastParen(s) == -1
  {
    if |s| >= 2 {
      LastParenRange(s[..|s| - 1]);
    }
  }

  function ParseNameMarker(line: string): Option<(string, string)> {
    if !HasPrefix(line, MARK) then None
    else
      var rest := line[|MARK|..];
      var i := LastParen(rest);
      if 0 <= i <= |rest| - 3 && HasSuffix(rest, ")") then
        Some((TrimSpace(rest[..i]), rest[i + 2..|rest| - 1]))
      else
        Some((TrimSpace(rest), "table"))
  }

  lemma {:induction false} LastParenAt(a: string, b: string)
    requires '(' !in b
    ensures LastParen(a + " (" + b) == |a|
  {
    var s := a + " (" + b;
    if b == "" {
      assert s[|s| - 2..] == " (";
    } else {
      var n := |b| - 1;
      assert s[|s| - 1] == b[n];
      assert s[|s| - 2..][1] == b[n];
      assert s[..|s| - 1] == a + " (" + b[..n];
      LastParenAt(a, b[..n]);
    }
  }

  lemma InnerSlice(s: string, front: string, inner: string)
    requires s == front + (inner + ")")
    ensures s[|front|..|s| - 1] == inner
  {
  }

  lemma MarkerRest(name: string, kind: string)
    requires Trimmed(name) && '(' !in kind
    ensures ParseNameMarker(MARK + (name + " (" + (kind + ")"))) == Some((name, kind))
  {
    var rest := name + " (" + (kind + ")");
    var line := MARK + rest;
    assert line[..|MARK|] == MARK && line[|MARK|..] == rest;
    LastParenAt(name, kind + ")");
    assert rest[|rest| - 1..] == ")" && rest[..|name|] == name;
    assert rest == (name + " (") + (kind + ")");
    InnerSlice(rest, name + " (", kind);
    TrimSpaceTrimmed(name);
  }

  /** A rendered marker reads back as its name and kind. */
  lemma MarkerReadsBack(o: Object)
    requires Trimmed(o.name)
    ensures ParseNameMarker(MarkerLine(o)) == Some((o.name, KindText(o.isMV)))
  {
    assert '(' !in KindText(o.isMV);
    MarkerRest(o.name, KindText(o.isMV));
  }

  /** A marker without a kind names a table. */
  lemma BareMarker(name: string)
    requires Trimmed(name) && !HasSuffix(name, ")")
    ensures ParseNameMarker(MARK + name) == Some((name, "table"))
  {
    var line := MARK + name;
    assert line[..|MARK|] == MARK && line[|MARK|..] == name;
    TrimSpaceTrimmed(name);
  }

  // ---------- parsing ----------

  /** The object being read (if any) and its lines so far. */
  datatype State = State(objs: seq<Object>, current: Option<Object>, body: string)

  predicate IsSemicolon(ch: char) { ch == ';' }

  function CleanBody(body: string): string {
    TrimSpace(TrimRight(TrimSpace(body), IsSemicolon))
  }

  function Flushed(st: State): seq<Object> {
    match st.current
    case None => st.objs
    case Some(o) => st.objs + [o.(ddl := CleanBody(st.body))]
  }

  function Step(st: State, line: string): State {
    match ParseNameMarker(line)
    case Some(mark) => State(Flushed(st), Some(Object(mark.0, mark.1 == "materialized view", "")), "")
    case None => if st.current.None? then st else st.(body := st.body + line + "\n")
  }

  function Steps(st: State, lines: seq<string>): State
    decreases |lines|
  {
    if lines == [] then st else Steps(Step(st, lines[0]), lines[1..])
  }

  const START := State([], None, "")

  function Parsed(text: string): seq<Object> {
    Flushed(Steps(START, Lines(text)))
  }

  method Parse(text: string) returns (objs: seq<Object>)
    ensures objs == Parsed(text)
  {
    objs := [];
    var cur: Option<Object> := None;
    var body := "";
    var lines := Lines(text);
    var i := 0;
    while i < |lines|
      invariant 0 <= i <= |lines|
      invariant Steps(State(objs, cur, body), lines[i..]) == Steps(START, lines)
    {
      assert lines[i..][0] == lines[i] && lines[i..][1..] == lines[i + 1..];
      var mark := ParseNameMarker(lines[i]);
      if mark.Some? {
        if cur.Some? {
          objs := objs + [cur.value.(ddl := CleanBody(body))];
        }
        cur := Some(Object(mark.value.0, mark.value.1 == "materialized view", ""));
        body := "";
      } else if cur.Some? {
        body := body + lines[i];
        body := body + "\n";
      }
      i := i + 1;
    }
    if cur.Some? {
      objs := objs + [cur.value.(ddl := CleanBody(body))];
    }
  }

  // ---------- round trip ----------

  /** A trimmed name on one line, a trimmed statement without a trailing semicolon, no
      carriage return before a newline, no line that looks like a marker. */
  ghost predicate Proper(o: Object) {
    && Trimmed(o.name) && '\n' !in o.name
    && Trimmed(o.ddl) && !HasSuffix(o.ddl, ";") && NoCRLF(o.ddl)
    && NoMarker(o.ddl)
  }

  predicate NoCRLF(text: string) {
    forall i :: 0 <= i < |text| - 1 ==> text[i] != '\r' || text[i + 1] != '\n'
  }

  predicate NoMarker(text: string)
    decreases |text|
  {
    var line := FirstLine(text);
    !HasPrefix(line, MARK) && (|line| < |text| ==> NoMarker(text[|line| + 1..]))
  }

  lemma StepsCons(st: State, line: string, rest: string)
    requires '\n' !in line
    ensures Steps(st, Lines(line + "\n" + rest)) == Steps(Step(st, DropCR(line)), Lines(rest))
  {
    LinesCons(line, rest);
    var ls := Lines(line + "\n" + rest);
    assert ls[0] == DropCR(line) && ls[1..] == Lines(rest);
  }

  lemma NotAMarker(line: string)
    requires !HasPrefix(line, MARK)
    ensures !HasPrefix(line + ";", MARK)
  {
    if |line| >= |MARK| {
      assert (line + ";")[..|MARK|] == line[..|MARK|];
    } else if |line| == |MARK| - 1 {
      assert (line + ";")[..|MARK|][|MARK| - 1] == ';';
      assert MARK[|MARK| - 1] == ' ';
    }
  }

  lemma PlainLine(st: State, line: string, rest: string)
    requires '\n' !in line && DropCR(line) == line && !HasPrefix(line, MARK) && st.current.Some?
    ensures Steps(st, Lines(line + "\n" + rest)) == Steps(st.(body := st.body + (line + "\n")), Lines(rest))
  {
    StepsCons(st, line, rest);
    assert st.body + line + "\n" == st.body + (line + "\n");
  }

  lemma CutLine(text: string, line: string, tail: string)
    requires text == line + "\n" + tail && NoCRLF(text)
    ensures DropCR(line) == line && NoCRLF(tail)
  {
    assert text[|line|] == '\n' && text[|line| + 1..] == tail;
    if line != "" { assert text[|line| - 1] == line[|line| - 1]; }
    forall i | 0 <= i < |tail| - 1
      ensures tail[i] != '\r' || tail[i + 1] != '\n'
    {
      assert text[|line| + 1 + i] == tail[i];
    }
  }

  lemma CutFirstLine(ddl: string, line: string, tail: string, rest: string)
    requires ddl == line + "\n" + tail
    ensures ddl + ";" + "\n" + rest == line + "\n" + (tail + ";" + "\n" + rest)
  {
  }

  lemma GlueFirstLine(body: string, ddl: string, line: string, tail: string)
    requires ddl == line + "\n" + tail
    ensures body + (line + "\n") + (tail + ";" + "\n") == body + (ddl + ";" + "\n")
  {
  }

  /** A statement's lines are collected as they were written. */
  lemma {:induction false} BodyLines(st: State, ddl: string, rest: string)
    requires st.current.Some? && NoCRLF(ddl) && NoMarker(ddl)
    ensures Steps(st, Lines(ddl + ";" + "\n" + rest)) == Steps(st.(body := st.body + (ddl + ";" + "\n")), Lines(rest))
    decreases |ddl|
  {
    var line := FirstLine(ddl);
    if |line| == |ddl| {
      NotAMarker(ddl);
      PlainLine(st, ddl + ";", rest);
    } else {
      var tail := ddl[|line| + 1..];
      assert ddl == line + "\n" + tail;
      CutLine(ddl, line, tail);
      CutFirstLine(ddl, line, tail, rest);
      GlueFirstLine(st.body, ddl, line, tail);
      PlainLine(st, line, tail + ";" + "\n" + rest);
      BodyLines(st.(body := st.body + (line + "\n")), tail, rest);
    }
  }

  lemma DropNewlines(s: string)
    requires s != "" && !IsSpace(s[0]) && !IsSpace(s[|s| - 1])
    ensures TrimSpace(s + "\n" + "\n") == s
  {
    var body := s + "\n" + "\n";
    assert TrimLeft(body, IsSpace) == body;
    assert body[..|body| - 1] == s + "\n";
    assert TrimRight(body, IsSpace) == TrimRight(s + "\n", IsSpace);
    assert (s + "\n")[..|s|] == s;
    assert TrimRight(s + "\n", IsSpace) == TrimRight(s, IsSpace) == s;
  }

  lemma DropSemicolon(ddl: string)
    requires !HasSuffix(ddl, ";")
    ensures TrimRight(ddl + ";", IsSemicolon) == ddl
  {
    assert (ddl + ";")[..|ddl|] == ddl;
    if ddl != "" {
      assert ddl[|ddl| - 1..] == [ddl[|ddl| - 1]];
    }
  }

  lemma BodyReadsBack(ddl: string)
    requires Trimmed(ddl) && !HasSuffix(ddl, ";")
    ensures CleanBody(ddl + ";" + "\n" + "\n") == ddl
  {
    DropNewlines(ddl + ";");
    DropSemicolon(ddl);
    TrimSpaceTrimmed(ddl);
  }

  lemma MarkerStep(st: State, o: Object, rest: string)
    requires Proper(o)
    ensures Steps(st, Lines(MarkerLine(o) + "\n" + rest))
         == Steps(State(Flushed(st), Some(Object(o.name, o.isMV, "")), ""), Lines(rest))
  {
    MarkerIsOneLine(o);
    StepsCons(st, MarkerLine(o), rest);
    MarkerReadsBack(o);
  }

  lemma BlankLine(st: State, rest: string)
    requires st.current.Some?
    ensures Steps(st, Lines("\n" + rest)) == Steps(st.(body := st.body + "\n"), Lines(rest))
  {
    assert "\n" + rest == "" + "\n" + rest;
    PlainLine(st, "", rest);
    assert "" + "\n" == "\n";
  }

  lemma BodySteps(st: State, ddl: string, rest: string)
    requires st.current.Some? && st.body == "" && NoCRLF(ddl) && NoMarker(ddl)
    ensures Steps(st, Lines(ddl + ";" + "\n" + ("\n" + rest)))
         == Steps(st.(body := ddl + ";" + "\n" + "\n"), Lines(rest))
  {
    var text := ddl + ";" + "\n";
    BodyLines(st, ddl, "\n" + rest);
    assert st.body + text == text;
    BlankLine(st.(body := text), rest);
  }

  lemma BlockText(o: Object, rest: string)
    ensures Block(o) + rest == MarkerLine(o) + "\n" + (o.ddl + ";" + "\n" + ("\n" + rest))
  {
    var body := o.ddl + ";" + "\n";
    assert body + "\n" + rest == body + ("\n" + rest);
    var head := MarkerLine(o) + "\n";
    assert head + (body + "\n") + rest == head + (body + "\n" + rest);
  }

  ghost predicate ReadsOne(st: State, st': State, o: Object, text: string, rest: string) {
    Steps(st, Lines(text)) == Steps(st', Lines(rest)) && Flushed(st') == Flushed(st) + [o]
  }

  /** Parsing one block closes the object before it and opens this one. */
  lemma OneBlock(st: State, o: Object, rest: string) returns (st': State)
    requires Proper(o)
    ensures ReadsOne(st, st', o, Block(o) + rest, rest)
  {
    var text := o.ddl + ";" + "\n" + ("\n" + rest);
    BlockText(o, rest);
    MarkerStep(st, o, text);
    var begun := State(Flushed(st), Some(Object(o.name, o.isMV, "")), "");
    BodySteps(begun, o.ddl, rest);
    st' := begun.(body := o.ddl + ";" + "\n" + "\n");
    BodyReadsBack(o.ddl);
  }

  lemma MarkerIsOneLine(o: Object)
    requires '\n' !in o.name
    ensures '\n' !in MarkerLine(o) && DropCR(MarkerLine(o)) == MarkerLine(o)
  {
    assert '\n' !in KindText(o.isMV);
    assert '\n' !in MARK;
  }

  lemma NextBlock(st: State, objs: seq<Object>) returns (st': State)
    requires objs != [] && Proper(objs[0])
    ensures Steps(st, Lines(Blocks(objs))) == Steps(st', Lines(Blocks(objs[1..])))
    ensures Flushed(st') == Flushed(st) + [objs[0]]
  {
    st' := OneBlock(st, objs[0], Blocks(objs[1..]));
  }

  lemma {:induction false} AllBlocks(st: State, objs: seq<Object>)
    requires forall i :: 0 <= i < |objs| ==> Proper(objs[i])
    ensures Flushed(Steps(st, Lines(Blocks(objs)))) == Flushed(st) + objs
    decreases |objs|
  {
    if objs == [] {
      assert Lines(Blocks(objs)) == [];
    } else {
      var st' := NextBlock(st, objs);
      AllBlocks(st', objs[1..]);
      TakeFirst(Flushed(st), objs);
    }
  }

  lemma TakeFirst(done: seq<Object>, objs: seq<Object>)
    requires objs != []
    ensures done + [objs[0]] + objs[1..] == done + objs
  {
  }

  lemma HeaderIsNoMarker()
    ensures '\n' !in HEADER && Step(START, DropCR(HEADER)) == START
  {
    assert HEADER[3] != MARK[3];
    assert HEADER[|HEADER| - 1] == '.';
  }

  lemma HeaderIsSkipped(rest: string)
    ensures Steps(START, Lines(HEADER + "\n" + ("\n" + rest))) == Steps(START, Lines(rest))
  {
    HeaderIsNoMarker();
    LineAndBlankSkipped(HEADER, rest);
  }

  lemma LineAndBlankSkipped(line: string, rest: string)
    requires '\n' !in line && Step(START, DropCR(line)) == START
    ensures Steps(START, Lines(line + "\n" + ("\n" + rest))) == Steps(START, Lines(rest))
  {
    StepsCons(START, line, "\n" + rest);
    assert "\n" + rest == "" + "\n" + rest;
    StepsCons(START, "", rest);
  }

  // ---------- only proper objects read back ----------

  /** How many lines look like a marker. */
  function Marks(lines: seq<string>): nat
    decreases |lines|
  {
    if lines == [] then 0 else (if HasPrefix(lines[0], MARK) then 1 else 0) + Marks(lines[1..])
  }

  lemma {:induction false} MarksConcat(a: seq<string>, b: seq<string>)
    ensures Marks(a + b) == Marks(a) + Marks(b)
    decreases |a|
  {
    if a == [] {
      assert a + b == b;
    } else {
      assert (a + b)[1..] == a[1..] + b;
      MarksConcat(a[1..], b);
    }
  }

  lemma {:induction false} StepsConcat(st: State, a: seq<string>, b: seq<string>)
    ensures Steps(st, a + b) == Steps(Steps(st, a), b)
    decreases |a|
  {
    if a == [] {
      assert a + b == b;
    } else {
      assert (a + b)[0] == a[0] && (a + b)[1..] == a[1..] + b;
      StepsConcat(Step(st, a[0]), a[1..], b);
    }
  }

  /** Text that ends its lines can be scanned in two parts. */
  lemma {:induction false} LinesConcat(a: string, b: string)
    requires a == "" || a[|a| - 1] == '\n'
    ensures Lines(a + b) == Lines(a) + Lines(b)
    decreases |a|
  {
    if a == "" {
      assert a + b == b;
    } else {
      var line, tail := CutEnded(a);
      LinesConcat(tail, b);
      LinesOfBoth(line, tail, b);
    }
  }

  lemma CutEnded(a: string) returns (line: string, tail: string)
    requires a != "" && a[|a| - 1] == '\n'
    ensures a == line + "\n" + tail && '\n' !in line && (tail == "" || tail[|tail| - 1] == '\n')
  {
    line := FirstLine(a);
    tail := a[|line| + 1..];
    if tail != "" { assert tail[|tail| - 1] == a[|a| - 1]; }
  }

  lemma LinesOfBoth(line: string, tail: string, b: string)
    requires '\n' !in line && Lines(tail + b) == Lines(tail) + Lines(b)
    ensures Lines(line + "\n" + tail + b) == Lines(line + "\n" + tail) + Lines(b)
  {
    var text := tail + b;
    LinesCons(line, tail);
    LinesCons(line, text);
    Regroup(line, tail, b);
  }

  lemma Regroup(line: string, tail: string, b: string)
    ensures line + "\n" + tail + b == line + "\n" + (tail + b)
  {
  }

  /** Each marker opens one object. */
  lemma {:induction false} MarksCountObjects(st: State, lines: seq<string>)
    ensures |Flushed(Steps(st, lines))| == |Flushed(st)| + Marks(lines)
    ensures st.objs <= Flushed(Steps(st, lines))
    decreases |lines|
  {
    if lines != [] {
      MarksCountObjects(Step(st, lines[0]), lines[1..]);
      assert st.objs <= Step(st, lines[0]).objs;
    }
  }

  /** A marker closes what came before it for good. */
  lemma MarkerCloses(st: State, lines: seq<string>)
    requires lines == [] || HasPrefix(lines[0], MARK)
    ensures Flushed(st) <= Flushed(Steps(st, lines))
  {
    if lines != [] {
      MarksCountObjects(Step(st, lines[0]), lines[1..]);
    }
  }

  lemma BlockParts(o: Object)
    ensures Block(o) == MarkerLine(o) + "\n" + (o.ddl + ";" + "\n" + "\n")
    ensures Block(o)[|Block(o)| - 1] == '\n'
    ensures Block(o)[..|MARK|] == MARK
  {
    assert MarkerLine(o)[..|MARK|] == MARK;
    assert Block(o)[..|MARK|] == MarkerLine(o)[..|MARK|];
    assert (o.ddl + ";" + "\n" + "\n")[|o.ddl| + 2] == '\n';
  }

  lemma {:induction false} FirstLineKeeps(front: string, text: string)
    requires '\n' !in front && |front| <= |text| && text[..|front|] == front
    ensures HasPrefix(FirstLine(text), front)
  {
    if front != "" {
      assert text[0] == text[..|front|][0] && text[1..][..|front| - 1] == text[..|front|][1..];
      FirstLineKeeps(front[1..], text[1..]);
      assert [front[0]] + front[1..] == front;
    }
  }

  lemma FirstIsMarker(text: string)
    requires |text| > |MARK| && text[..|MARK|] == MARK
    ensures Lines(text) != [] && HasPrefix(Lines(text)[0], MARK)
  {
    assert '\n' !in MARK;
    FirstLineKeeps(MARK, text);
    KeptMarker(FirstLine(text));
  }

  lemma BlockLines(objs: seq<Object>)
    requires objs != []
    ensures Lines(Blocks(objs)) == Lines(Block(objs[0])) + Lines(Blocks(objs[1..]))
    ensures Lines(Block(objs[0])) != [] && HasPrefix(Lines(Block(objs[0]))[0], MARK)
  {
    BlockParts(objs[0]);
    LinesConcat(Block(objs[0]), Blocks(objs[1..]));
    FirstIsMarker(Block(objs[0]));
  }

  lemma {:induction false} EnoughMarks(objs: seq<Object>)
    ensures Marks(Lines(Blocks(objs))) >= |objs|
    ensures objs != [] ==> Lines(Blocks(objs)) != [] && HasPrefix(Lines(Blocks(objs))[0], MARK)
    decreases |objs|
  {
    if objs != [] {
      BlockLines(objs);
      MarksConcat(Lines(Block(objs[0])), Lines(Blocks(objs[1..])));
      EnoughMarks(objs[1..]);
      assert Marks(Lines(Block(objs[0]))) >= 1;
    }
  }

  function Glue(lines: seq<string>): string
    decreases |lines|
  {
    if lines == [] then "" else lines[0] + "\n" + Glue(lines[1..])
  }

  lemma {:induction false} PlainLines(st: State, lines: seq<string>)
    requires st.current.Some? && Marks(lines) == 0
    ensures Steps(st, lines) == st.(body := st.body + Glue(lines))
    decreases |lines|
  {
    if lines == [] {
      assert st.body + Glue(lines) == st.body;
    } else {
      PlainLines(Step(st, lines[0]), lines[1..]);
      var more := Glue(lines[1..]);
      assert st.body + lines[0] + "\n" + more == st.body + (lines[0] + "\n" + more);
    }
  }

  /** text with every carriage return before a newline dropped. */
  function Uncr(text: string): string
    decreases |text|
  {
    var line := FirstLine(text);
    if |line| == |text| then text else DropCR(line) + "\n" + Uncr(text[|line| + 1..])
  }

  lemma {:induction false} UncrLength(text: string)
    ensures |Uncr(text)| <= |text|
    ensures |Uncr(text)| == |text| ==> NoCRLF(text) && Uncr(text) == text
    decreases |text|
  {
    var line := FirstLine(text);
    if |line| < |text| {
      var tail := text[|line| + 1..];
      UncrLength(tail);
      assert text == line + "\n" + tail;
      if |Uncr(text)| == |text| {
        forall i | 0 <= i < |text| - 1
          ensures text[i] != '\r' || text[i + 1] != '\n'
        {
          if i > |line| {
            assert text[i] == tail[i - |line| - 1];
          } else if i + 1 < |line| {
            assert text[i + 1] == line[i + 1];
          }
        }
      }
    }
  }

  /** The lines a rendered statement is read as. */
  function BodyOf(ddl: string): seq<string> {
    Lines(ddl + ";" + "\n" + "\n")
  }

  /** The lines of a body, glued, are its text with the line ends made plain. */
  predicate GluesBack(ddl: string) { Glue(BodyOf(ddl)) == Uncr(ddl) + ";" + "\n" + "\n" }

  lemma UncrMore(line: string, tail: string)
    requires '\n' !in line
    ensures Uncr(line + "\n" + tail) == DropCR(line) + "\n" + Uncr(tail)
  {
    FirstLineIs(line, tail);
    assert (line + "\n" + tail)[|line| + 1..] == tail;
  }

  lemma GluesBackMore(line: string, tail: string)
    requires '\n' !in line && GluesBack(tail)
    ensures GluesBack(line + "\n" + tail)
  {
    MoreBodyText(line, tail);
    UncrMore(line, tail);
    GlueMore(Glue(BodyOf(line + "\n" + tail)), Uncr(line + "\n" + tail), DropCR(line), Glue(BodyOf(tail)), Uncr(tail));
  }

  lemma GluesBackLast(line: string)
    requires '\n' !in line
    ensures GluesBack(line)
  {
    LastBodyLine(line);
    FirstLineOfOne(line);
  }

  lemma {:induction false} FirstLineOfOne(line: string)
    requires '\n' !in line
    ensures FirstLine(line) == line
  {
    if line != "" { FirstLineOfOne(line[1..]); }
  }

  lemma CutAt(text: string, line: string) returns (tail: string)
    requires line == FirstLine(text) && |line| < |text|
    ensures text == line + "\n" + tail && |tail| < |text|
  {
    tail := text[|line| + 1..];
  }

  lemma {:induction false} BodyText(ddl: string)
    ensures GluesBack(ddl)
    decreases |ddl|
  {
    var line := FirstLine(ddl);
    if |line| == |ddl| {
      GluesBackLast(ddl);
    } else {
      var tail := CutAt(ddl, line);
      BodyText(tail);
      GluesBackMore(line, tail);
    }
  }

  lemma {:induction false} BodyMarks(ddl: string)
    requires Marks(BodyOf(ddl)) == 0
    ensures NoMarker(ddl)
    decreases |ddl|
  {
    var line := FirstLine(ddl);
    if |line| == |ddl| {
      LastBodyLine(ddl);
    } else {
      var tail := ddl[|line| + 1..];
      assert ddl == line + "\n" + tail;
      MoreBodyText(line, tail);
      BodyMarks(tail);
    }
  }

  lemma LastBodyLine(ddl: string)
    requires '\n' !in ddl
    ensures BodyOf(ddl) == [ddl + ";", ""]
    ensures Glue([ddl + ";", ""]) == ddl + ";" + "\n" + "\n"
    ensures Marks([ddl + ";", ""]) == 0 ==> !HasPrefix(ddl, MARK)
  {
    LinesCons(ddl + ";", "\n");
    assert Lines("\n") == [""];
    assert [ddl + ";", ""][1..] == [""];
    assert Glue([""]) == "\n";
    if HasPrefix(ddl, MARK) { assert (ddl + ";")[..|MARK|] == MARK; }
  }

  lemma MoreBodyText(line: string, tail: string)
    requires '\n' !in line
    ensures Glue(BodyOf(line + "\n" + tail)) == DropCR(line) + "\n" + Glue(BodyOf(tail))
    ensures Marks(BodyOf(line + "\n" + tail)) >= Marks(BodyOf(tail))
    ensures HasPrefix(line, MARK) ==> Marks(BodyOf(line + "\n" + tail)) > 0
  {
    BodyCons(line, tail);
    var ls := BodyOf(line + "\n" + tail);
    assert ls[0] == DropCR(line) && ls[1..] == BodyOf(tail);
    if HasPrefix(line, MARK) { KeptMarker(line); }
  }

  lemma BodyCons(line: string, tail: string)
    requires '\n' !in line
    ensures BodyOf(line + "\n" + tail) == [DropCR(line)] + BodyOf(tail)
  {
    CutFirstLine(line + "\n" + tail, line, tail, "\n");
    LinesCons(line, tail + ";" + "\n" + "\n");
  }

  lemma GlueMore(body: string, text: string, line: string, body': string, text': string)
    requires body == line + "\n" + body' && text == line + "\n" + text' && body' == text' + ";" + "\n" + "\n"
    ensures body == text + ";" + "\n" + "\n"
  {
  }

  lemma KeptMarker(line: string)
    requires HasPrefix(line, MARK)
    ensures HasPrefix(DropCR(line), MARK)
  {
    assert MARK[|MARK| - 1] == ' ';
    assert line[|MARK| - 1] == line[..|MARK|][|MARK| - 1];
    if DropCR(line) != line { assert DropCR(line)[..|MARK|] == line[..|MARK|]; }
  }

  lemma {:induction false} TrimLeftStops(s: string, rest: string)
    ensures TrimLeft(s + ";" + rest, IsSpace) == TrimLeft(s, IsSpace) + ";" + rest
  {
    if s != "" && IsSpace(s[0]) {
      assert (s + ";" + rest)[1..] == s[1..] + ";" + rest;
      TrimLeftStops(s[1..], rest);
    }
  }

  lemma {:induction false} TrimmedShorter(s: string, drop: char -> bool)
    ensures |TrimLeft(s, drop)| <= |s| && |TrimRight(s, drop)| <= |s|
    ensures forall ch :: ch in TrimLeft(s, drop) || ch in TrimRight(s, drop) ==> ch in s
    ensures TrimLeft(s, drop) != "" ==> !drop(TrimLeft(s, drop)[0])
    ensures TrimRight(s, drop) != "" ==>
      !drop(TrimRight(s, drop)[|TrimRight(s, drop)| - 1]) && TrimRight(s, drop)[0] == s[0]
  {
    if s != "" {
      TrimmedShorter(s[1..], drop);
      TrimmedShorter(s[..|s| - 1], drop);
    }
  }

  lemma TrimSpaceTrims(s: string)
    ensures Trimmed(TrimSpace(s)) && |TrimSpace(s)| <= |s|
    ensures forall ch :: ch in TrimSpace(s) ==> ch in s
  {
    TrimmedShorter(s, IsSpace);
    TrimmedShorter(TrimLeft(s, IsSpace), IsSpace);
  }

  /** Cleaning a body gives at most the text before its final semicolon. */
  lemma CleanShorter(text: string)
    ensures Trimmed(CleanBody(text + ";" + "\n" + "\n"))
    ensures |CleanBody(text + ";" + "\n" + "\n")| <= |text|
  {
    var body := text + ";" + "\n" + "\n";
    var x := TrimLeft(text, IsSpace);
    assert body == text + ";" + ("\n" + "\n");
    TrimLeftStops(text, "\n" + "\n");
    TrimmedShorter(text, IsSpace);
    DropNewlinesAfter(x);
    assert TrimSpace(body) == x + ";";
    assert (x + ";")[..|x|] == x;
    TrimmedShorter(x, IsSemicolon);
    TrimSpaceTrims(TrimRight(x + ";", IsSemicolon));
  }

  lemma DropNewlinesAfter(x: string)
    ensures TrimRight(x + ";" + ("\n" + "\n"), IsSpace) == x + ";"
  {
    var body := x + ";" + ("\n" + "\n");
    assert body[..|body| - 1] == x + ";" + "\n";
    assert (x + ";" + "\n")[..|x| + 1] == x + ";";
    assert TrimRight(body, IsSpace) == TrimRight(x + ";" + "\n", IsSpace);
    assert TrimRight(x + ";" + "\n", IsSpace) == TrimRight(x + ";", IsSpace);
  }

  /** A trailing semicolon is lost. */
  lemma SemicolonLost(ddl: string)
    requires Trimmed(ddl) && HasSuffix(ddl, ";")
    ensures CleanBody(ddl + ";" + "\n" + "\n") != ddl
  {
    var n := |ddl| - 1;
    assert ddl[n..] == ";" && ddl[n] == ddl[n..][0];
    DropNewlines(ddl + ";");
    assert (ddl + ";")[..|ddl|] == ddl;
    assert TrimRight(ddl + ";", IsSemicolon) == TrimRight(ddl, IsSemicolon) == TrimRight(ddl[..n], IsSemicolon);
    TrimmedShorter(ddl[..n], IsSemicolon);
    TrimSpaceTrims(TrimRight(ddl[..n], IsSemicolon));
  }

  lemma MarkerName(line: string)
    requires ParseNameMarker(line).Some?
    ensures Trimmed(ParseNameMarker(line).value.0)
    ensures forall ch :: ch in ParseNameMarker(line).value.0 ==> ch in line
  {
    var rest := line[|MARK|..];
    var i := LastParen(rest);
    LastParenRange(rest);
    TrimSpaceTrims(rest);
    if 0 <= i { TrimSpaceTrims(rest[..i]); }
    forall ch | ch in ParseNameMarker(line).value.0
      ensures ch in line
    {
      assert ch in rest;
    }
  }

  lemma {:induction false} LinesAreLines(text: string, i: nat)
    requires i < |Lines(text)|
    ensures '\n' !in Lines(text)[i]
    decreases |text|
  {
    var line := FirstLine(text);
    if i > 0 {
      LinesAreLines(text[|line| + 1..], i - 1);
    }
  }

  lemma BodyIsProper(o: Object)
    requires Marks(BodyOf(o.ddl)) == 0 && CleanBody(Glue(BodyOf(o.ddl))) == o.ddl
    ensures Trimmed(o.ddl) && !HasSuffix(o.ddl, ";") && NoCRLF(o.ddl) && NoMarker(o.ddl)
  {
    BodyText(o.ddl);
    BodyMarks(o.ddl);
    CleanShorter(Uncr(o.ddl));
    UncrLength(o.ddl);
    if HasSuffix(o.ddl, ";") { SemicolonLost(o.ddl); }
  }

  /** A block that reads back as its object is that of a proper object. */
  lemma BlockIsProper(st: State, o: Object)
    ensures Marks(Lines(Block(o))) == 1 && Flushed(Steps(st, Lines(Block(o)))) == Flushed(st) + [o] ==> Proper(o)
  {
    BlockLines([o]);
    var ls := Lines(Block(o));
    if Marks(ls) == 1 && Flushed(Steps(st, ls)) == Flushed(st) + [o] {
      LinesAreLines(Block(o), 0);
      MarkerName(ls[0]);
      var begun := Step(st, ls[0]);
      PlainLines(begun, ls[1..]);
      assert begun.objs == Flushed(st);
      assert Flushed(Steps(st, ls))[|Flushed(st)|] == o;
      MarkerIsOneLine(o);
      BlockParts(o);
      LinesCons(MarkerLine(o), o.ddl + ";" + "\n" + "\n");
      assert ls[1..] == BodyOf(o.ddl);
      assert "" + Glue(ls[1..]) == Glue(ls[1..]);
      BodyIsProper(o);
    }
  }

  lemma PrefixLast(all: seq<Object>, done: seq<Object>, more: seq<Object>, next: seq<Object>)
    requires all == done + more && more != [] && next <= all && done <= next && |next| == |done| + 1
    ensures next == done + [more[0]] && all == next + more[1..]
  {
    assert next[..|done|] == done && next[|done|] == all[|done|] == more[0];
  }

  lemma {:induction false} OnlyProperReadsBack(st: State, objs: seq<Object>)
    requires Flushed(Steps(st, Lines(Blocks(objs)))) == Flushed(st) + objs
    ensures forall i :: 0 <= i < |objs| ==> Proper(objs[i])
    decreases |objs|
  {
    if objs != [] {
      var o, rest := objs[0], objs[1..];
      var a, b := Lines(Block(o)), Lines(Blocks(rest));
      BlockLines(objs);
      StepsConcat(st, a, b);
      MarksConcat(a, b);
      EnoughMarks(rest);
      MarksCountObjects(st, a + b);
      MarksCountObjects(st, a);
      var next := Steps(st, a);
      MarkerCloses(st, a);
      if rest == [] { assert b == []; }
      MarkerCloses(next, b);
      assert Marks(a) >= 1;
      PrefixLast(Flushed(Steps(next, b)), Flushed(st), objs, Flushed(next));
      BlockIsProper(st, o);
      OnlyProperReadsBack(next, rest);
      forall i | 0 <= i < |objs|
        ensures Proper(objs[i])
      {
        if i > 0 { assert objs[i] == rest[i - 1]; }
      }
    }
  }

  /** Parsing a rendered snapshot gives the objects back, in order, if and only if every
      object is proper. */
  lemma RoundTrip(objs: seq<Object>)
    ensures Parsed(Rendered(objs)) == objs <==> forall i :: 0 <= i < |objs| ==> Proper(objs[i])
  {
    if forall i :: 0 <= i < |objs| ==> Proper(objs[i]) {
      ProperReadsBack(objs);
    } else if Parsed(Rendered(objs)) == objs {
      ReadsBackIsProper(objs);
    }
  }

  lemma ProperReadsBack(objs: seq<Object>)
    requires forall i :: 0 <= i < |objs| ==> Proper(objs[i])
    ensures Parsed(Rendered(objs)) == objs
  {
    ParsedBlocks(objs);
    AllBlocks(START, objs);
    assert Flushed(START) == [];
    assert [] + objs == objs;
  }

  lemma ReadsBackIsProper(objs: seq<Object>)
    requires Parsed(Rendered(objs)) == objs
    ensures forall i :: 0 <= i < |objs| ==> Proper(objs[i])
  {
    ParsedBlocks(objs);
    assert Flushed(START) == [];
    assert [] + objs == objs;
    OnlyProperReadsBack(START, objs);
  }

  lemma ParsedBlocks(objs: seq<Object>)
    ensures Parsed(Rendered(objs)) == Flushed(Steps(START, Lines(Blocks(objs))))
  {
    HeaderIsSkipped(Blocks(objs));
  }

  /** A file that lost its final newline reads the same. */
  lemma FinalNewlineIsOptional(text: string)
    requires text != "" && text[|text| - 1] != '\n'
    ensures Parsed(text + "\n") == Parsed(text)
  {
    LastLineCounts(text);
  }

  // ---------- drift ----------

  datatype Issue = Missing | Untracked | Differs

  datatype Drift = Drift(name: string, issue: Issue)

  /** Objects by name, later ones replacing earlier ones. */
  function ByName(objs: seq<Object>): map<string, Object> {
    if objs == [] then map[]
    else ByName(objs[..|objs| - 1])[objs[|objs| - 1].name := objs[|objs| - 1]]
  }

  method Index(objs: seq<Object>) returns (m: map<string, Object>)
    ensures m == ByName(objs)
  {
    m := map[];
    var i := 0;
    while i < |objs|
      invariant 0 <= i <= |objs| && m == ByName(objs[..i])
    {
      assert objs[..i + 1][..i] == objs[..i];
      m := m[objs[i].name := objs[i]];
      i := i + 1;
    }
    assert objs[..i] == objs;
  }

  /** How, if at all, name drifted. */
  function Verdict(want: map<string, Object>, got: map<string, Object>, name: string): Option<Issue> {
    if name in want && name !in got then Some(Missing)
    else if name !in want && name in got then Some(Untracked)
    else if name in want && want[name].ddl != got[name].ddl then Some(Differs)
    else None
  }

  /** report has exactly one line for each drifted, not ignored name among names, sorted. */
  ghost predicate Reports(report: seq<Drift>, want: map<string, Object>, got: map<string, Object>,
                          ignore: set<string>, names: seq<string>)
  {
    && (forall d :: d in report <==> InReport(d, want, got, ignore, names))
    && SortedReport(report)
  }

  ghost predicate SortedReport(report: seq<Drift>) {
    forall i, j :: 0 <= i < j < |report| ==> Less(report[i].name, report[j].name)
  }

  ghost predicate InReport(d: Drift, want: map<string, Object>, got: map<string, Object>,
                           ignore: set<string>, names: seq<string>)
  {
    d.name in names && d.name !in ignore && Verdict(want, got, d.name) == Some(d.issue)
  }

  lemma ReportMore(report: seq<Drift>, want: map<string, Object>, got: map<string, Object>,
                   ignore: set<string>, names: seq<string>, n: string)
    requires Reports(report, want, got, ignore, names) && forall x :: x in names ==> Less(x, n)
    ensures
      var v := Verdict(want, got, n);
      Reports(if n !in ignore && v.Some? then report + [Drift(n, v.value)] else report, want, got, ignore, names + [n])
  {
    var v := Verdict(want, got, n);
    var more := if n !in ignore && v.Some? then report + [Drift(n, v.value)] else report;
    LessIrreflexive(n);
    forall d
      ensures d in more <==> InReport(d, want, got, ignore, names + [n])
    {
      assert d in report <==> InReport(d, want, got, ignore, names);
    }
    forall i | 0 <= i < |report|
      ensures Less(report[i].name, n)
    {
      assert InReport(report[i], want, got, ignore, names);
    }
  }

  /** Object i is the last of its name, the one that counts. */
  ghost predicate Counts(objs: seq<Object>, i: nat, name: string) {
    i < |objs| && objs[i].name == name && forall j :: i < j < |objs| ==> objs[j].name != name
  }

  ghost predicate Named(objs: seq<Object>, name: string) {
    exists i :: 0 <= i < |objs| && objs[i].name == name
  }

  /** The two lists disagree about the statement of an object that both have. */
  ghost predicate Conflict(want: seq<Object>, got: seq<Object>, name: string) {
    exists i: nat, j: nat :: Counts(want, i, name) && Counts(got, j, name) && want[i].ddl != got[j].ddl
  }

  /** What there is to report about a name, told from the two lists. */
  ghost predicate Drifted(want: seq<Object>, got: seq<Object>, d: Drift) {
    match d.issue
    case Missing => Named(want, d.name) && !Named(got, d.name)
    case Untracked => !Named(want, d.name) && Named(got, d.name)
    case Differs => Conflict(want, got, d.name)
  }

  lemma {:induction false} ByNameCounts(objs: seq<Object>, i: nat, name: string)
    requires Counts(objs, i, name)
    ensures name in ByName(objs) && ByName(objs)[name] == objs[i]
  {
    if i < |objs| - 1 {
      ByNameCounts(objs[..|objs| - 1], i, name);
    }
  }

  lemma {:induction false} ByNameHas(objs: seq<Object>, name: string) returns (i: nat)
    requires Named(objs, name)
    ensures Counts(objs, i, name)
  {
    var n := |objs| - 1;
    if objs[n].name == name {
      i := n;
    } else {
      var k :| 0 <= k < |objs| && objs[k].name == name;
      assert objs[..n][k] == objs[k];
      i := ByNameHas(objs[..n], name);
      assert objs[..n][i] == objs[i];
    }
  }

  lemma {:induction false} ByNameOnly(objs: seq<Object>, name: string)
    ensures name in ByName(objs) ==> Named(objs, name)
  {
    if objs != [] && objs[|objs| - 1].name != name {
      var n := |objs| - 1;
      ByNameOnly(objs[..n], name);
      if i :| 0 <= i < n && objs[..n][i].name == name { assert objs[i].name == name; }
    }
  }

  lemma VerdictIs(want: seq<Object>, got: seq<Object>, d: Drift)
    ensures Verdict(ByName(want), ByName(got), d.name) == Some(d.issue) <==> Drifted(want, got, d)
  {
    ByNameOnly(want, d.name);
    ByNameOnly(got, d.name);
    if Named(want, d.name) {
      var i := ByNameHas(want, d.name);
      ByNameCounts(want, i, d.name);
      if Named(got, d.name) {
        var j := ByNameHas(got, d.name);
        ByNameCounts(got, j, d.name);
        OneCounts(want, got, i, j, d.name);
      }
    } else if Named(got, d.name) {
      var j := ByNameHas(got, d.name);
      ByNameCounts(got, j, d.name);
    }
  }

  lemma OneCounts(want: seq<Object>, got: seq<Object>, i: nat, j: nat, name: string)
    requires Counts(want, i, name) && Counts(got, j, name)
    ensures Conflict(want, got, name) <==> want[i].ddl != got[j].ddl
  {
    if i': nat, j': nat :| Counts(want, i', name) && Counts(got, j', name) && want[i'].ddl != got[j'].ddl {
      assert i' == i && j' == j;
    }
  }

  /** One line for each name that drifted and is not ignored, in name order.  A name is missing if
      only want has it, untracked if only got has it, and otherwise differs if the last objects of
      that name have different statements. */
  method Diff(want: seq<Object>, got: seq<Object>, ignore: set<string>) returns (report: seq<Drift>)
    ensures forall d :: d in report <==> d.name !in ignore && Drifted(want, got, d)
    ensures SortedReport(report)
  {
    var w := Index(want);
    var g := Index(got);
    var names := SortedKeys(w.Keys + g.Keys);
    SortedKeysRise(w.Keys + g.Keys);
    report := DiffNames(w, g, ignore, names);
    ReportIsComplete(report, w, g, ignore, names);
    forall d ensures d in report <==> d.name !in ignore && Drifted(want, got, d) { VerdictIs(want, got, d); }
  }

  method DiffNames(w: map<string, Object>, g: map<string, Object>, ignore: set<string>, names: seq<string>)
    returns (report: seq<Drift>)
    requires forall i, j :: 0 <= i < j < |names| ==> Less(names[i], names[j])
    ensures Reports(report, w, g, ignore, names)
  {
    report := [];
    var i := 0;
    while i < |names|
      invariant 0 <= i <= |names|
      invariant Reports(report, w, g, ignore, names[..i])
    {
      var n := names[i];
      assert names[..i + 1] == names[..i] + [n];
      ReportMore(report, w, g, ignore, names[..i], n);
      if n !in ignore {
        var v := Verdict(w, g, n);
        if v.Some? {
          report := report + [Drift(n, v.value)];
        }
      }
      i := i + 1;
    }
    assert names[..i] == names;
  }

  lemma ReportIsComplete(report: seq<Drift>, want: map<string, Object>, got: map<string, Object>,
                         ignore: set<string>, names: seq<string>)
    requires Reports(report, want, got, ignore, names)
    requires forall n :: n in names <==> n in want.Keys + got.Keys
    ensures forall d :: d in report <==> d.name !in ignore && Verdict(want, got, d.name) == Some(d.issue)
  {
    forall d
      ensures d in report <==> d.name !in ignore && Verdict(want, got, d.name) == Some(d.issue)
    {
      assert d in report <==> InReport(d, want, got, ignore, names);
    }
  }

  lemma NoDriftFromItself(objs: seq<Object>, d: Drift)
    ensures !Drifted(objs, objs, d)
  {
    if i: nat, j: nat :| Counts(objs, i, d.name) && Counts(objs, j, d.name) && objs[i].ddl != objs[j].ddl {
      assert false;
    }
  }

  lemma SomeLine(report: seq<Drift>)
    ensures report == [] || exists d :: d in report
  {
    if report != [] { assert report[0] in report; }
  }

  /** A snapshot written, read back and compared with what was dumped shows no drift, whatever is
      ignored. */
  method NoDriftAfterRoundTrip(objs: seq<Object>, ignore: set<string>) returns (report: seq<Drift>)
    requires forall i :: 0 <= i < |objs| ==> Proper(objs[i])
    ensures report == []
  {
    var text := Render(objs);
    var read := Parse(text);
    RoundTrip(objs);
    report := Diff(read, objs, ignore);
    forall d ensures d !in report { NoDriftFromItself(objs, d); }
    SomeLine(report);
  }
}
