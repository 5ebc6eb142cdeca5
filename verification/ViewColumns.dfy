/** The column block of a view definition, and the quoting of chunk values. */
module ViewColumns {
  import opened Text
  import opened ColumnList

  // ---------- splitting at top-level commas ----------

  /** Opening minus closing parentheses. */
  function Depth(s: string): int {
    if s == [] then 0
    else
      var last := s[|s| - 1];
      Depth(s[..|s| - 1]) + (if last == '(' then 1 else if last == ')' then -1 else 0)
  }

  predicate TopCommaAt(s: string, i: nat)
    requires i < |s|
  {
    s[i] == ',' && Depth(s[..i]) == 0
  }

  predicate HasTopComma(s: string) {
    exists i :: 0 <= i < |s| && TopCommaAt(s, i)
  }

  /** pieces is s cut at its top-level commas and nowhere else. */
  ghost predicate IsTopSplit(pieces: seq<string>, s: string) {
    && pieces != []
    && Join(pieces, ',') == s
    && (forall i :: 0 <= i < |pieces| ==> !HasTopComma(pieces[i]))
    && (forall i :: 0 <= i < |pieces| - 1 ==> Depth(pieces[i]) == 0)
  }

  lemma {:induction false} DepthConcat(a: string, b: string)
    ensures Depth(a + b) == Depth(a) + Depth(b)
  {
    if b == [] {
      assert a + b == a;
    } else {
      var n := |b| - 1;
      assert (a + b)[..|a| + n] == a + b[..n];
      DepthConcat(a, b[..n]);
    }
  }

  lemma TopCommaGrow(s: string, ch: char)
    requires !HasTopComma(s) && (ch == ',' ==> Depth(s) != 0)
    ensures !HasTopComma(s + [ch])
  {
    forall i | 0 <= i < |s + [ch]|
      ensures !TopCommaAt(s + [ch], i)
    {
      if i < |s| {
        assert (s + [ch])[..i] == s[..i];
        assert !TopCommaAt(s, i);
      } else {
        assert (s + [ch])[..i] == s;
      }
    }
  }

  lemma {:induction false} JoinExtend(done: seq<string>, x: string, y: string)
    ensures Join(done + [x + y], ',') == Join(done + [x], ',') + y
  {
    if done != [] {
      JoinExtend(done[1..], x, y);
      assert (done + [x + y])[1..] == done[1..] + [x + y];
      assert (done + [x])[1..] == done[1..] + [x];
    }
  }

  lemma {:induction false} JoinStart(done: seq<string>, x: string)
    ensures Join(done + [x] + [""], ',') == Join(done + [x], ',') + ","
  {
    if done == [] {
      assert ([x] + [""])[1..] == [""];
      assert done + [x] + [""] == [x] + [""];
    } else {
      JoinStart(done[1..], x);
      assert (done + [x] + [""])[1..] == done[1..] + [x] + [""];
      assert (done + [x])[1..] == done[1..] + [x];
    }
  }

  /** What the scan knows at i: out is s cut at the top-level commas before start. */
  ghost predicate Scanned(s: string, out: seq<string>, start: nat, i: nat, depth: int) {
    && start <= i <= |s|
    && depth == Depth(s[start..i])
    && Join(out + [s[start..i]], ',') == s[..i]
    && !HasTopComma(s[start..i])
    && forall j :: 0 <= j < |out| ==> !HasTopComma(out[j]) && Depth(out[j]) == 0
  }

  lemma ScanComma(s: string, out: seq<string>, start: nat, i: nat)
    requires i < |s| && s[i] == ',' && Scanned(s, out, start, i, 0)
    ensures Scanned(s, out + [s[start..i]], i + 1, i + 1, 0)
  {
    JoinStart(out, s[start..i]);
    assert s[i + 1..i + 1] == "";
    assert s[..i + 1] == s[..i] + ",";
  }

  lemma ScanOther(s: string, out: seq<string>, start: nat, i: nat, depth: int)
    requires i < |s| && Scanned(s, out, start, i, depth) && (s[i] == ',' ==> depth != 0)
    ensures Scanned(s, out, start, i + 1, depth + (if s[i] == '(' then 1 else if s[i] == ')' then -1 else 0))
  {
    var piece := s[start..i];
    assert s[start..i + 1] == piece + [s[i]] && s[..i + 1] == s[..i] + [s[i]];
    assert (piece + [s[i]])[..|piece|] == piece;
    JoinExtend(out, piece, [s[i]]);
    TopCommaGrow(piece, s[i]);
  }

  method SplitTopLevel(s: string) returns (out: seq<string>)
    ensures IsTopSplit(out, s)
  {
    out := [];
    var depth, start := 0, 0;
    var i := 0;
    assert [] + [""] == [""];
    while i < |s|
      invariant Scanned(s, out, start, i, depth)
    {
      if s[i] == ',' && depth == 0 {
        ScanComma(s, out, start, i);
        out := out + [s[start..i]];
        start := i + 1;
      } else {
        ScanOther(s, out, start, i, depth);
        if s[i] == '(' {
          depth := depth + 1;
        } else if s[i] == ')' {
          depth := depth - 1;
        }
      }
      i := i + 1;
    }
    assert s[start..i] == s[start..] && s[..i] == s;
    out := out + [s[start..]];
  }

  lemma CutInside(a: string, rest: string, b: string, rest': string)
    requires a + "," + rest == b + "," + rest'
    requires Depth(a) == 0 && |a| < |b|
    ensures HasTopComma(b)
  {
    var s := a + "," + rest;
    assert s[..|a|] == a && (b + "," + rest')[..|a|] == b[..|a|];
    assert s[|a|] == ',' && (b + "," + rest')[|a|] == b[|a|];
    assert TopCommaAt(b, |a|);
  }

  lemma CutPoint(a: string, rest: string, b: string, rest': string)
    requires a + "," + rest == b + "," + rest'
    requires Depth(a) == 0 && !HasTopComma(b)
    ensures |a| >= |b|
  {
    if |a| < |b| {
      CutInside(a, rest, b, rest');
    }
  }

  /** A string has only one such split. */
  lemma {:induction false} TopSplitUnique(p: seq<string>, q: seq<string>, s: string)
    requires IsTopSplit(p, s) && IsTopSplit(q, s)
    ensures p == q
  {
    if |p| == 1 && |q| > 1 {
      WholeHasNoCut(q, s);
    } else if |q| == 1 && |p| > 1 {
      WholeHasNoCut(p, s);
    } else if |p| > 1 {
      var pr, qr := Join(p[1..], ','), Join(q[1..], ',');
      assert s == p[0] + "," + pr == q[0] + "," + qr;
      CutPoint(p[0], pr, q[0], qr);
      CutPoint(q[0], qr, p[0], pr);
      assert s[..|p[0]|] == p[0] && s[..|q[0]|] == q[0];
      assert s[|p[0]| + 1..] == pr && s[|q[0]| + 1..] == qr;
      TopSplitUnique(p[1..], q[1..], pr);
    }
  }

  lemma WholeHasNoCut(q: seq<string>, s: string)
    requires IsTopSplit(q, s) && |q| > 1
    ensures HasTopComma(s)
  {
    assert s == q[0] + "," + Join(q[1..], ',');
    assert s[..|q[0]|] == q[0];
    assert TopCommaAt(s, |q[0]|);
  }

  // ---------- column names ----------

  /** The first whitespace-separated word of a string without leading space. */
  function FirstWord(s: string): string {
    if s == [] || IsSpace(s[0]) then "" else [s[0]] + FirstWord(s[1..])
  }

  predicate IsBacktick(ch: char) { ch == '`' }

  function TrimBackticks(s: string): string {
    TrimRight(TrimLeft(s, IsBacktick), IsBacktick)
  }

  method ColumnNames(columns: string) returns (names: seq<string>)
    ensures forall parts :: IsTopSplit(parts, columns) ==> names == NamesOf(parts)
  {
    var parts := SplitTopLevel(columns);
    names := [];
    var i := 0;
    while i < |parts|
      invariant 0 <= i <= |parts| && names == NamesOf(parts[..i])
    {
      assert parts[..i + 1][..i] == parts[..i];
      var word := FirstWord(TrimSpace(parts[i]));
      if word != "" {
        names := names + [TrimBackticks(word)];
      }
      i := i + 1;
    }
    assert parts[..i] == parts;
    forall other | IsTopSplit(other, columns)
      ensures names == NamesOf(other)
    {
      TopSplitUnique(parts, other, columns);
    }
  }

  /** Names read from the pieces, blank pieces skipped. */
  function NamesOf(parts: seq<string>): seq<string> {
    if parts == [] then [] else NamesOf(parts[..|parts| - 1]) + NameIn(parts[|parts| - 1])
  }

  /** The name a piece starts with, if it is not blank. */
  function NameIn(piece: string): seq<string> {
    var word := FirstWord(TrimSpace(piece));
    if word == "" then [] else [TrimBackticks(word)]
  }

  // ---------- a rendered column block ----------

  /** Spaces, tabs and line ends. */
  predicate Blank(s: string) { forall i :: 0 <= i < |s| ==> s[i] in " \t\n\r" }

  /** A column as a definition shows it: a bare or back-quoted name, a gap, its type. */
  datatype Col = Col(name: string, quoted: bool, gap: string, typ: string) {
    function Word(): string { if quoted then Quoted(name) else name }

    function Shown(): string { Word() + gap + typ }

    ghost predicate Proper() {
      && name != "" && gap != "" && Blank(gap)
      && (forall i :: 0 <= i < |name| ==> !IsSpace(name[i]) && !IsBacktick(name[i]))
      && !HasTopComma(Shown()) && Depth(Shown()) == 0
    }
  }

  function Pieces(cols: seq<Col>, indent: string): (pieces: seq<string>)
    ensures |pieces| == |cols|
    ensures forall i :: 0 <= i < |cols| ==> pieces[i] == (if i == 0 then "" else indent) + cols[i].Shown()
  {
    seq(|cols|, i requires 0 <= i < |cols| => (if i == 0 then "" else indent) + cols[i].Shown())
  }

  /** name type,indent name type, ... */
  function RenderCols(cols: seq<Col>, indent: string): string {
    Join(Pieces(cols, indent), ',')
  }

  lemma {:induction false} BlankIsFlat(s: string)
    requires Blank(s)
    ensures Depth(s) == 0 && forall i :: 0 <= i < |s| ==> IsSpace(s[i])
  {
    if s != "" { BlankIsFlat(s[..|s| - 1]); }
  }

  lemma BlankInFront(indent: string, s: string)
    requires Blank(indent)
    ensures Depth(indent + s) == Depth(s)
    ensures HasTopComma(indent + s) ==> HasTopComma(s)
  {
    BlankIsFlat(indent);
    DepthConcat(indent, s);
    if i :| 0 <= i < |indent + s| && TopCommaAt(indent + s, i) {
      assert i >= |indent|;
      assert (indent + s)[..i] == indent + s[..i - |indent|];
      DepthConcat(indent, s[..i - |indent|]);
      assert TopCommaAt(s, i - |indent|);
    }
  }

  lemma {:induction false} FirstWordIs(w: string, tail: string)
    requires forall i :: 0 <= i < |w| ==> !IsSpace(w[i])
    requires tail == "" || IsSpace(tail[0])
    ensures FirstWord(w + tail) == w
  {
    if w == "" {
      assert w + tail == tail;
    } else {
      assert (w + tail)[1..] == w[1..] + tail;
      FirstWordIs(w[1..], tail);
    }
  }

  lemma {:induction false} TrimRightKeeps(w: string, tail: string)
    requires w != "" && !IsSpace(w[|w| - 1])
    ensures exists k :: 0 <= k <= |tail| && TrimRight(w + tail, IsSpace) == w + tail[..k]
  {
    if tail == "" {
      assert w + tail == w && tail[..0] == "";
      assert TrimRight(w + tail, IsSpace) == w + tail[..0];
    } else {
      var n := |tail| - 1;
      if IsSpace(tail[n]) {
        assert (w + tail)[..|w| + n] == w + tail[..n];
        TrimRightKeeps(w, tail[..n]);
        var k :| 0 <= k <= n && TrimRight(w + tail[..n], IsSpace) == w + tail[..n][..k];
        assert tail[..n][..k] == tail[..k];
        assert TrimRight(w + tail, IsSpace) == w + tail[..k];
      } else {
        assert tail[..n + 1] == tail;
        assert TrimRight(w + tail, IsSpace) == w + tail[..n + 1];
      }
    }
  }

  lemma WordBeforeGap(w: string, tail: string)
    requires w != "" && forall i :: 0 <= i < |w| ==> !IsSpace(w[i])
    requires tail == "" || IsSpace(tail[0])
    ensures FirstWord(TrimRight(w + tail, IsSpace)) == w
  {
    TrimRightKeeps(w, tail);
    var k :| 0 <= k <= |tail| && TrimRight(w + tail, IsSpace) == w + tail[..k];
    FirstWordIs(w, tail[..k]);
  }

  lemma TrimmedFirstWord(indent: string, w: string, gap: string, typ: string)
    requires w != "" && forall i :: 0 <= i < |w| ==> !IsSpace(w[i])
    requires Blank(indent) && gap != "" && Blank(gap)
    ensures FirstWord(TrimSpace(indent + (w + gap + typ))) == w
  {
    BlankIsFlat(indent);
    BlankIsFlat(gap);
    assert w + gap + typ == w + (gap + typ);
    assert (w + (gap + typ))[0] == w[0];
    TrimLeftIs(indent, w + (gap + typ), IsSpace);
    WordBeforeGap(w, gap + typ);
  }

  lemma UnquoteWord(c: Col)
    requires c.Proper()
    ensures TrimBackticks(c.Word()) == c.name
    ensures forall i :: 0 <= i < |c.Word()| ==> !IsSpace(c.Word()[i])
  {
    var w, n := c.Word(), c.name;
    if c.quoted {
      assert w[1..] == n + "`";
      assert TrimLeft(n + "`", IsBacktick) == n + "`";
      assert TrimLeft(w, IsBacktick) == n + "`";
      assert (n + "`")[..|n|] == n;
      assert TrimRight(n, IsBacktick) == n;
    }
  }

  lemma RenderedIsSplit(cols: seq<Col>, indent: string)
    requires cols != [] && Blank(indent) && forall i :: 0 <= i < |cols| ==> cols[i].Proper()
    ensures IsTopSplit(Pieces(cols, indent), RenderCols(cols, indent))
  {
    forall i | 0 <= i < |cols|
      ensures !HasTopComma(Pieces(cols, indent)[i]) && Depth(Pieces(cols, indent)[i]) == 0
    {
      BlankInFront(if i == 0 then "" else indent, cols[i].Shown());
    }
  }

  lemma PieceName(c: Col, indent: string)
    requires c.Proper() && Blank(indent)
    ensures NameIn(indent + c.Shown()) == [c.name]
  {
    UnquoteWord(c);
    TrimmedFirstWord(indent, c.Word(), c.gap, c.typ);
  }

  predicate NamesColumn(piece: string, name: string) { NameIn(piece) == [name] }

  lemma {:induction false} NamesOfEach(parts: seq<string>, names: seq<string>)
    requires |parts| == |names| && forall i :: 0 <= i < |parts| ==> NamesColumn(parts[i], names[i])
    ensures NamesOf(parts) == names
  {
    if parts != [] {
      var n := |parts| - 1;
      NamesOfEach(parts[..n], names[..n]);
      assert NamesColumn(parts[n], names[n]);
      assert names == names[..n] + [names[n]];
    }
  }

  /** Reading a rendered block gives the column names in order, whatever white space it is laid out
      with and whatever commas and parentheses the types contain; the backfill INSERT then names
      exactly these. */
  lemma RenderedNames(cols: seq<Col>, indent: string, parts: seq<string>)
    requires cols != [] && Blank(indent) && forall i :: 0 <= i < |cols| ==> cols[i].Proper()
    requires IsTopSplit(parts, RenderCols(cols, indent))
    ensures |NamesOf(parts)| == |cols| && forall i :: 0 <= i < |cols| ==> NamesOf(parts)[i] == cols[i].name
  {
    RenderedIsSplit(cols, indent);
    TopSplitUnique(parts, Pieces(cols, indent), RenderCols(cols, indent));
    forall i | 0 <= i < |cols|
      ensures NamesColumn(parts[i], cols[i].name)
    {
      PieceName(cols[i], if i == 0 then "" else indent);
    }
    NamesOfEach(parts, seq(|cols|, i requires 0 <= i < |cols| => cols[i].name));
  }

  // ---------- the types in a column block ----------

  /** A type: a word, or a name with arguments. */
  datatype Type = Plain(word: string) | Of(name: string, args: seq<Type>) {
    function Shown(): string {
      match this
      case Plain(word) => word
      case Of(name, args) => name + "(" + ShowArgs(args) + ")"
    }

    ghost predicate Clear() {
      match this
      case Plain(word) => Mild(word)
      case Of(name, args) => Mild(name) && forall i :: 0 <= i < |args| ==> args[i].Clear()
    }
  }

  predicate Mild(s: string) { '(' !in s && ')' !in s && ',' !in s }

  function ShowArgs(args: seq<Type>): string {
    if args == [] then ""
    else if |args| == 1 then args[0].Shown()
    else ShowArgs(args[..|args| - 1]) + ", " + args[|args| - 1].Shown()
  }

  /** Every parenthesis is closed, and none before it is opened. */
  ghost predicate Balanced(s: string) {
    Depth(s) == 0 && forall i :: 0 <= i <= |s| ==> Depth(s[..i]) >= 0
  }

  lemma BalancedConcat(a: string, b: string)
    requires Balanced(a) && Balanced(b)
    ensures Balanced(a + b)
  {
    DepthConcat(a, b);
    forall i | 0 <= i <= |a + b|
      ensures Depth((a + b)[..i]) >= 0
    {
      if i <= |a| {
        assert (a + b)[..i] == a[..i];
      } else {
        assert (a + b)[..i] == a + b[..i - |a|];
        DepthConcat(a, b[..i - |a|]);
      }
    }
  }

  lemma {:induction false} MildIsFlat(s: string)
    requires '(' !in s && ')' !in s
    ensures Balanced(s)
  {
    if s == "" {
      assert forall i :: 0 <= i <= |s| ==> s[..i] == "";
    } else {
      var n := |s| - 1;
      MildIsFlat(s[..n]);
      forall i | 0 <= i <= |s|
        ensures Depth(s[..i]) >= 0
      {
        if i <= n { assert s[..i] == s[..n][..i]; } else { assert s[..i] == s; }
      }
    }
  }

  /** Between a pair of parentheses no comma is at the top. */
  lemma Enclosed(name: string, inner: string)
    requires Mild(name) && Balanced(inner)
    ensures Balanced(name + "(" + inner + ")") && !HasTopComma(name + "(" + inner + ")")
  {
    var s := name + "(" + inner + ")";
    MildIsFlat(name);
    DepthConcat(name, "(");
    DepthConcat(name + "(", inner);
    DepthConcat(name + "(" + inner, ")");
    assert Depth("(") == 1 && Depth(")") == -1;
    forall i | 0 <= i <= |s|
      ensures Depth(s[..i]) >= 0 && (i < |s| ==> !TopCommaAt(s, i))
    {
      if i <= |name| {
        assert s[..i] == name[..i];
      } else if i < |s| {
        var k := i - |name| - 1;
        assert s[..i] == name + "(" + inner[..k];
        DepthConcat(name + "(", inner[..k]);
      } else {
        assert s[..i] == s;
      }
    }
  }

  lemma {:induction false} TypeIsWhole(t: Type)
    requires t.Clear()
    ensures Balanced(t.Shown()) && !HasTopComma(t.Shown())
    decreases t, if t.Of? then |t.args| + 1 else 0
  {
    match t
    case Plain(word) => MildIsFlat(word);
    case Of(name, args) =>
      ArgsAreWhole(t, args);
      Enclosed(name, ShowArgs(args));
  }

  lemma {:induction false} ArgsAreWhole(t: Type, args: seq<Type>)
    requires t.Of? && |args| <= |t.args| && args == t.args[..|args|]
    requires forall i :: 0 <= i < |args| ==> args[i].Clear()
    ensures Balanced(ShowArgs(args))
    decreases t, |args|
  {
    if args == [] {
      MildIsFlat("");
    } else {
      var n := |args| - 1;
      assert args[n] == t.args[n];
      TypeIsWhole(args[n]);
      if n > 0 {
        ArgsAreWhole(t, args[..n]);
        MildIsFlat(", ");
        BalancedConcat(ShowArgs(args[..n]), ", ");
        BalancedConcat(ShowArgs(args[..n]) + ", ", args[n].Shown());
      }
    }
  }

  /** A column of any such type is a piece of its own, so RenderedNames applies to it. */
  lemma TypedColumnIsProper(c: Col, t: Type)
    requires t.Clear() && c.typ == t.Shown() && Mild(c.name)
    requires c.name != "" && forall i :: 0 <= i < |c.name| ==> !IsSpace(c.name[i]) && !IsBacktick(c.name[i])
    requires c.gap != "" && Blank(c.gap)
    ensures c.Proper()
  {
    WordAndGapAreMild(c.Word(), c.name, c.gap);
    MildIsFlat(c.Word() + c.gap);
    TypeIsWhole(t);
    NoCommaInFront(c.Word() + c.gap, t.Shown());
  }

  lemma WordAndGapAreMild(word: string, name: string, gap: string)
    requires (word == name || word == Quoted(name)) && Mild(name) && Blank(gap)
    ensures Mild(word + gap)
  {
    assert Mild(word) && Mild(gap);
  }

  lemma NoCommaInFront(a: string, b: string)
    requires Mild(a) && Depth(a) == 0 && !HasTopComma(b)
    ensures Depth(a + b) == Depth(b) && !HasTopComma(a + b)
  {
    DepthConcat(a, b);
    forall i | 0 <= i < |a + b|
      ensures !TopCommaAt(a + b, i)
    {
      if i >= |a| {
        assert (a + b)[..i] == a + b[..i - |a|];
        DepthConcat(a, b[..i - |a|]);
        assert !TopCommaAt(b, i - |a|);
      }
    }
  }

  // ---------- quoting a chunk value ----------

  function ReplaceAll(s: string, ch: char, to: string): string {
    if s == [] then [] else (if s[0] == ch then to else [s[0]]) + ReplaceAll(s[1..], ch, to)
  }

  /** First every backslash is doubled, then every quote gets a backslash. */
  function Esc(s: string): string {
    ReplaceAll(ReplaceAll(s, '\\', "\\\\"), '\'', "\\'")
  }

  lemma {:induction false} ReplaceConcat(a: string, b: string, ch: char, to: string)
    ensures ReplaceAll(a + b, ch, to) == ReplaceAll(a, ch, to) + ReplaceAll(b, ch, to)
  {
    if a == [] {
      assert a + b == b;
    } else {
      assert (a + b)[1..] == a[1..] + b;
      ReplaceConcat(a[1..], b, ch, to);
    }
  }

  /** What quoting makes of one character. */
  function EscChar(ch: char): string {
    if ch == '\\' || ch == '\'' then ['\\', ch] else [ch]
  }

  lemma EscFirst(s: string)
    requires s != []
    ensures Esc(s) == EscChar(s[0]) + Esc(s[1..])
  {
    var first := if s[0] == '\\' then "\\\\" else [s[0]];
    ReplaceConcat(first, ReplaceAll(s[1..], '\\', "\\\\"), '\'', "\\'");
    EscOne(s[0]);
  }

  lemma EscOne(ch: char)
    ensures ReplaceAll(if ch == '\\' then "\\\\" else [ch], '\'', "\\'") == EscChar(ch)
  {
    if ch == '\\' {
      assert "\\\\"[1..] == "\\" && "\\"[1..] == "";
    } else {
      assert [ch][1..] == "";
    }
  }

  /** The server reading a literal after its opening quote: the value and what follows.
      (Esc writes no other escapes than the two, so only those are read here.) */
  function Lex(s: string): Option<(string, string)> {
    if s == [] then None
    else if s[0] == '\'' then Some(("", s[1..]))
    else if s[0] == '\\' then
      if |s| == 1 then None
      else
        match Lex(s[2..])
        case None => None
        case Some(r) => Some(([s[1]] + r.0, r.1))
    else
      match Lex(s[1..])
      case None => None
      case Some(r) => Some(([s[0]] + r.0, r.1))
  }

  lemma EscapedHead(s: string, rest: string)
    requires s != []
    ensures Esc(s) + "'" + rest == EscChar(s[0]) + (Esc(s[1..]) + "'" + rest)
  {
    EscFirst(s);
  }

  /** Any value survives quoting, and the literal ends where it was meant to. */
  lemma {:induction false} EscapedLiteral(s: string, rest: string)
    ensures Lex(Esc(s) + "'" + rest) == Some((s, rest))
  {
    var text := Esc(s) + "'" + rest;
    if s == [] {
      assert text == "'" + rest;
    } else {
      EscapedLiteral(s[1..], rest);
      EscapedHead(s, rest);
      var tail := Esc(s[1..]) + "'" + rest;
      assert text[if s[0] == '\\' || s[0] == '\'' then 2 else 1..] == tail;
      assert [s[0]] + s[1..] == s;
    }
  }
}
