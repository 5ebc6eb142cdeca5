/** The column list of an INSERT: how it is written, and how the driver reads it back. */
module ColumnList {
  import opened Text

  /** Names that survive the trip; the server also forbids backslashes. */
  predicate GoodName(name: string) {
    ',' !in name && '`' !in name && '\\' !in name
  }

  function Quoted(name: string): string { "`" + name + "`" }

  /** (`a`, `b`) without the parentheses. */
  function RenderList(names: seq<string>): string {
    if names == [] then ""
    else if |names| == 1 then Quoted(names[0])
    else RenderList(names[..|names| - 1]) + ", " + Quoted(names[|names| - 1])
  }

  /** INSERT INTO table (`a`, `b`). */
  function InsertText(table: string, names: seq<string>): string {
    "INSERT INTO " + table + " (" + RenderList(names) + ")"
  }

  method InsertQuery(table: string, names: seq<string>) returns (query: string)
    ensures query == InsertText(table, names)
  {
    query := "INSERT INTO " + table + " (";
    ghost var head := query;
    var i := 0;
    while i < |names|
      invariant 0 <= i <= |names| && query == head + RenderList(names[..i])
    {
      assert names[..i + 1][..i] == names[..i];
      if i > 0 {
        query := query + ", ";
      }
      query := query + "`";
      query := query + names[i];
      query := query + "`";
      assert query == head + RenderList(names[..i + 1]);
      i := i + 1;
    }
    assert names[..i] == names;
    query := query + ")";
  }

  // ---------- reading the list ----------

  function RemoveAll(s: string, ch: char): (r: string)
    ensures ch !in r
    ensures ch !in s ==> r == s
  {
    if s == [] then []
    else if s[0] == ch then RemoveAll(s[1..], ch)
    else [s[0]] + RemoveAll(s[1..], ch)
  }

  function TrimQuotes(s: string): string {
    TrimRight(TrimLeft(s, ch => ch == '"'), ch => ch == '"')
  }

  /** One piece of the list: trim space, trim double quotes, drop every backtick. */
  function Clean(piece: string): string {
    RemoveAll(TrimQuotes(TrimSpace(piece)), '`')
  }

  function CleanAll(pieces: seq<string>): (names: seq<string>)
    ensures |names| == |pieces|
  {
    if pieces == [] then [] else CleanAll(pieces[..|pieces| - 1]) + [Clean(pieces[|pieces| - 1])]
  }

  function ReadList(list: string): seq<string> {
    CleanAll(Split(list, ','))
  }

  method DriverNames(list: string) returns (names: seq<string>)
    ensures names == ReadList(list)
  {
    var pieces := Split(list, ',');
    names := pieces;
    var i := 0;
    while i < |names|
      invariant 0 <= i <= |names| && |names| == |pieces|
      invariant names == CleanAll(pieces[..i]) + pieces[i..]
    {
      assert pieces[..i + 1][..i] == pieces[..i];
      names := names[i := Clean(names[i])];
      i := i + 1;
    }
    assert pieces[..i] == pieces;
  }

  // ---------- the round trip ----------

  lemma RemoveAllConcat(a: string, b: string, ch: char)
    ensures RemoveAll(a + b, ch) == RemoveAll(a, ch) + RemoveAll(b, ch)
  {
    if a == [] {
      assert a + b == b;
    } else {
      assert (a + b)[1..] == a[1..] + b;
      RemoveAllConcat(a[1..], b, ch);
    }
  }

  lemma CleanQuoted(name: string)
    ensures Clean(Quoted(name)) == RemoveAll(name, '`')
    ensures Clean(" " + Quoted(name)) == RemoveAll(name, '`')
  {
    var q := Quoted(name);
    assert (" " + q)[1..] == q;
    assert TrimLeft(q, IsSpace) == q && TrimRight(q, IsSpace) == q;
    assert TrimSpace(" " + q) == q && TrimSpace(q) == q;
    assert TrimQuotes(q) == q;
    RemoveAllConcat("`" + name, "`", '`');
    RemoveAllConcat("`", name, '`');
    assert RemoveAll("`", '`') == [];
  }

  lemma QuotedCommas(name: string)
    ensures Count(Quoted(name), ',') == Count(name, ',')
  {
    CountConcat("`" + name, "`", ',');
    CountConcat("`", name, ',');
    assert Count("`", ',') == 0;
  }

  lemma OneMoreComma(list: string, name: string)
    ensures Count(list + ", " + Quoted(name), ',') == Count(list, ',') + 1 + Count(name, ',')
  {
    QuotedCommas(name);
    CountConcat(list + ", ", Quoted(name), ',');
    CountConcat(list, ", ", ',');
    assert ", "[1..] == " " && " "[1..] == "";
    assert Count(" ", ',') == 0 && Count(", ", ',') == 1;
  }

  lemma {:induction false} RenderCommas(names: seq<string>)
    requires names != []
    ensures Count(RenderList(names), ',') >= |names| - 1
    ensures Count(RenderList(names), ',') == |names| - 1 <==> forall i :: 0 <= i < |names| ==> ',' !in names[i]
  {
    var n := |names| - 1;
    CountZero(names[n], ',');
    if n == 0 {
      QuotedCommas(names[0]);
    } else {
      RenderCommas(names[..n]);
      OneMoreComma(RenderList(names[..n]), names[n]);
      assert names == names[..n] + [names[n]];
    }
  }

  lemma {:induction false} SplitAppend(s: string, piece: string)
    requires ',' !in piece
    ensures Split(s + "," + piece, ',') == Split(s, ',') + [piece]
  {
    if s == [] {
      assert s + "," + piece == "" + [','] + piece;
      SplitAt("", piece, ',');
      SplitFree(piece, ',');
    } else {
      assert (s + "," + piece)[1..] == s[1..] + "," + piece;
      SplitAppend(s[1..], piece);
    }
  }

  lemma CleanAllAppend(pieces: seq<string>, piece: string)
    ensures CleanAll(pieces + [piece]) == CleanAll(pieces) + [Clean(piece)]
  {
    assert (pieces + [piece])[..|pieces|] == pieces;
  }

  lemma ReadAppend(list: string, piece: string)
    requires ',' !in piece
    ensures ReadList(list + "," + piece) == ReadList(list) + [Clean(piece)]
  {
    SplitAppend(list, piece);
    CleanAllAppend(Split(list, ','), piece);
  }

  lemma RenderLast(names: seq<string>)
    requires |names| > 1
    ensures RenderList(names) ==
            RenderList(names[..|names| - 1]) + "," + (" " + Quoted(names[|names| - 1]))
  {
    CommaSpace(RenderList(names[..|names| - 1]), Quoted(names[|names| - 1]));
  }

  lemma CommaSpace(a: string, b: string)
    ensures a + ", " + b == a + "," + (" " + b)
  {
    assert a + ", " + b == a + (", " + b);
    assert ", " + b == "," + (" " + b);
  }

  lemma CommaFree(name: string)
    requires ',' !in name
    ensures ',' !in Quoted(name) && ',' !in " " + Quoted(name)
  {
  }

  lemma ReadOne(name: string)
    requires ',' !in name
    ensures ReadList(Quoted(name)) == [RemoveAll(name, '`')]
  {
    CommaFree(name);
    SplitFree(Quoted(name), ',');
    CleanAllAppend([], Quoted(name));
    assert [] + [Quoted(name)] == [Quoted(name)];
    CleanQuoted(name);
  }

  lemma ReadLast(text: string, list: string, name: string)
    requires text == list + "," + (" " + Quoted(name)) && ',' !in name
    ensures ReadList(text) == ReadList(list) + [RemoveAll(name, '`')]
  {
    CommaFree(name);
    ReadAppend(list, " " + Quoted(name));
    CleanQuoted(name);
  }

  function StripTicks(names: seq<string>): (r: seq<string>)
    ensures |r| == |names|
    ensures forall i :: 0 <= i < |names| ==> r[i] == RemoveAll(names[i], '`')
  {
    if names == [] then []
    else StripTicks(names[..|names| - 1]) + [RemoveAll(names[|names| - 1], '`')]
  }

  /** Without commas, reading gives the names back less their backticks. */
  lemma {:induction false} ReadRendered(names: seq<string>)
    requires names != [] && forall i :: 0 <= i < |names| ==> ',' !in names[i]
    ensures ReadList(RenderList(names)) == StripTicks(names)
  {
    var n := |names| - 1;
    if n == 0 {
      ReadOne(names[0]);
    } else {
      ReadRendered(names[..n]);
      RenderLast(names);
      ReadLast(RenderList(names), RenderList(names[..n]), names[n]);
    }
  }

  /** The driver reads back exactly the list that was written if and only if no name holds a
      comma or a backtick; in particular for every list checkName accepts. */
  lemma ListRoundTrip(names: seq<string>)
    requires names != []
    ensures ReadList(RenderList(names)) == names
        <==> forall i :: 0 <= i < |names| ==> ',' !in names[i] && '`' !in names[i]
  {
    RenderCommas(names);
    SplitLength(RenderList(names), ',');
    if forall i :: 0 <= i < |names| ==> ',' !in names[i] {
      ReadRendered(names);
      if ReadList(RenderList(names)) == names {
        forall i | 0 <= i < |names| ensures '`' !in names[i] {
          assert names[i] == StripTicks(names)[i];
        }
      }
    }
  }

  lemma GoodNamesRoundTrip(names: seq<string>)
    requires names != [] && forall i :: 0 <= i < |names| ==> GoodName(names[i])
    ensures ReadList(RenderList(names)) == names
  {
    ListRoundTrip(names);
  }

  // ---------- which names survive ----------

  /** The server reading an identifier after its opening backtick: the name and what follows.  A
      backslash makes one character of two, whatever that is. */
  function Identifier(s: string, unescape: char -> char): Option<(string, string)> {
    if s == "" then None
    else if s[0] == '`' then Some(("", s[1..]))
    else if s[0] == '\\' then
      if |s| == 1 then None
      else
        match Identifier(s[2..], unescape)
        case None => None
        case Some(r) => Some(([unescape(s[1])] + r.0, r.1))
    else
      match Identifier(s[1..], unescape)
      case None => None
      case Some(r) => Some(([s[0]] + r.0, r.1))
  }

  lemma {:induction false} PlainIdentifier(name: string, rest: string, unescape: char -> char)
    requires '`' !in name && '\\' !in name
    ensures Identifier(name + "`" + rest, unescape) == Some((name, rest))
  {
    var s := name + "`" + rest;
    if name == "" {
      assert s[1..] == rest;
    } else {
      assert s[1..] == name[1..] + "`" + rest;
      PlainIdentifier(name[1..], rest, unescape);
      assert [name[0]] + name[1..] == name;
    }
  }

  /** An escape uses up a character. */
  lemma {:induction false} EscapesShorten(s: string, unescape: char -> char)
    requires Identifier(s, unescape).Some?
    ensures
      var r := Identifier(s, unescape).value;
      |r.0| + 1 + |r.1| <= |s| && (|r.0| + 1 + |r.1| == |s| ==> '\\' !in s[..|r.0|])
    decreases |s|
  {
    if s[0] != '`' {
      var rest := if s[0] == '\\' then s[2..] else s[1..];
      EscapesShorten(rest, unescape);
      var r := Identifier(s, unescape).value;
      assert s[0] != '\\' ==> s[..|r.0|] == [s[0]] + s[1..][..|r.0| - 1];
    }
  }

  /** checkName accepts exactly the names that both readers give back: the driver from the list in
      the statement, the server from the identifier, whatever its escapes mean. */
  lemma GoodNameIff(name: string, rest: string, unescape: char -> char)
    ensures GoodName(name) <==>
      ReadList(RenderList([name])) == [name] && Identifier(name + "`" + rest, unescape) == Some((name, rest))
  {
    ListRoundTrip([name]);
    if '`' !in name && '\\' !in name {
      PlainIdentifier(name, rest, unescape);
    } else if Identifier(name + "`" + rest, unescape) == Some((name, rest)) {
      EscapesShorten(name + "`" + rest, unescape);
      assert (name + "`" + rest)[..|name|] == name;
    }
  }

  // ---------- other ways to write a list ----------

  datatype Quotes = Bare | Double | Back

  function Show(name: string, quotes: Quotes): string {
    match quotes
    case Bare => name
    case Double => "\"" + name + "\""
    case Back => Quoted(name)
  }

  /** A name comes back however it is quoted and whatever space is around it. */
  lemma AnyQuotes(name: string, quotes: Quotes, before: string, after: string)
    requires name != "" && Trimmed(name) && '`' !in name && name[0] != '"' && name[|name| - 1] != '"'
    requires forall i :: 0 <= i < |before| ==> IsSpace(before[i])
    requires forall i :: 0 <= i < |after| ==> IsSpace(after[i])
    ensures Clean(before + Show(name, quotes) + after) == name
  {
    var shown := Show(name, quotes);
    TrimSpaceIs(before, shown, after);
    match quotes {
      case Bare =>
        TrimQuotesKeeps(name);
      case Double =>
        assert shown == "\"" + (name + "\"");
        TrimLeftIs("\"", name + "\"", ch => ch == '"');
        TrimRightIs(name, "\"", ch => ch == '"');
      case Back =>
        TrimQuotesKeeps(shown);
        RemoveAllConcat("`" + name, "`", '`');
        RemoveAllConcat("`", name, '`');
        assert RemoveAll("`", '`') == [];
    }
  }

  lemma TrimQuotesKeeps(s: string)
    requires s != "" && s[0] != '"' && s[|s| - 1] != '"'
    ensures TrimQuotes(s) == s
  {
  }

  lemma {:induction false} ReadPieces(pieces: seq<string>, names: seq<string>)
    requires |pieces| == |names| && forall i :: 0 <= i < |pieces| ==> Clean(pieces[i]) == names[i]
    ensures CleanAll(pieces) == names
  {
    if pieces != [] {
      var n := |pieces| - 1;
      ReadPieces(pieces[..n], names[..n]);
      assert names == names[..n] + [names[n]];
    }
  }

  // ---------- finding the list in a statement ----------

  const INSERT := "INSERT INTO "

  /** White space, then an opening parenthesis. */
  predicate GapAt(s: string, i: nat) {
    i + 1 < |s| && s[i] in " \t\n\r\U{000C}" && s[i + 1] == '('
  }

  ghost predicate HasGap(s: string) { exists i: nat :: GapAt(s, i) }

  /** The driver's last expression, INSERT INTO .+\s\((.+)\)$ with both dots matching anything: table
      and list are what a statement of that form has before and after its last gap. */
  ghost predicate Finds(query: string, table: string, list: string) {
    && HasPrefix(query, INSERT) && HasSuffix(query, ")") && table != "" && list != ""
    && exists i: nat ::
         && |INSERT| <= i < |query| - 2 && GapAt(query, i)
         && query[|INSERT|..i] == table && query[i + 2..|query| - 1] == list
         && forall j: nat :: i < j < |query| - 3 ==> !GapAt(query, j)
  }

  lemma GapConcat(a: string, b: string)
    requires b == "" || b[0] != '('
    ensures HasGap(a + b) <==> HasGap(a) || HasGap(b)
  {
    if i: nat :| GapAt(a, i) { assert GapAt(a + b, i); }
    if i: nat :| GapAt(b, i) { assert GapAt(a + b, |a| + i); }
    if i: nat :| GapAt(a + b, i) {
      if i + 1 < |a| {
        assert GapAt(a, i);
      } else {
        assert (a + b)[i + 1] == b[i + 1 - |a|];
        assert GapAt(b, i - |a|);
      }
    }
  }

  lemma QuotedGap(name: string)
    ensures HasGap(Quoted(name)) <==> HasGap(name)
  {
    if i: nat :| GapAt(name, i) { assert GapAt(Quoted(name), i + 1); }
    if i: nat :| GapAt(Quoted(name), i) { assert GapAt(name, i - 1); }
  }

  lemma {:induction false} ListGap(names: seq<string>)
    requires names != []
    ensures HasGap(RenderList(names)) <==> exists i :: 0 <= i < |names| && HasGap(names[i])
  {
    var n := |names| - 1;
    QuotedGap(names[n]);
    if n > 0 {
      ListGap(names[..n]);
      GapConcat(RenderList(names[..n]), ", ");
      GapConcat(RenderList(names[..n]) + ", ", Quoted(names[n]));
      assert !HasGap(", ");
      if i :| 0 <= i < |names| && HasGap(names[i]) && i < n { assert names[..n][i] == names[i]; }
    }
  }

  /** query is the statement with this table and list, the list's gap being at this place. */
  predicate LaidOut(query: string, table: string, list: string, at: nat) {
    && at == |INSERT| + |table| && |query| == at + 3 + |list|
    && query[..|INSERT|] == INSERT && query[|INSERT|..at] == table && query[at] == ' ' && query[at + 1] == '('
    && query[at + 2..at + 2 + |list|] == list && query[|query| - 1] == ')'
  }

  lemma TextIsLaidOut(table: string, list: string)
    ensures LaidOut(INSERT + table + " (" + list + ")", table, list, |INSERT| + |table|)
  {
    var query, at := INSERT + table + " (" + list + ")", |INSERT| + |table|;
    assert query == INSERT + (table + (" (" + (list + ")")));
    assert query[|INSERT|..] == table + (" (" + (list + ")"));
    assert query[at..] == " (" + (list + ")");
    assert query[at + 2..] == list + ")";
  }

  lemma SameGaps(query: string, table: string, list: string, at: nat, k: nat)
    requires LaidOut(query, table, list, at) && k + 1 < |list|
    ensures GapAt(query, at + 2 + k) <==> GapAt(list, k)
  {
    assert query[at + 2..at + 2 + |list|][k] == query[at + 2 + k];
    assert query[at + 2..at + 2 + |list|][k + 1] == query[at + 2 + k + 1];
  }

  lemma FoundIff(query: string, table: string, list: string, at: nat)
    requires LaidOut(query, table, list, at) && table != "" && list != "" && list[|list| - 1] != '('
    ensures Finds(query, table, list) <==> !HasGap(list)
  {
    forall k: nat | k + 1 < |list| ensures GapAt(query, at + 2 + k) <==> GapAt(list, k) {
      SameGaps(query, table, list, at, k);
    }
    if HasGap(list) {
      var k: nat :| GapAt(list, k);
      assert GapAt(query, at + 2 + k) && k + 2 < |list|;
    } else {
      assert GapAt(query, at) && query[|query| - 1..] == ")";
      forall j: nat | at < j < |query| - 3
        ensures !GapAt(query, j)
      {
        if j > at + 1 { assert !GapAt(list, j - at - 2); }
      }
    }
  }

  /** In the statement that is written the driver finds table and list if and only if no name has a
      gap in it; whatever the table is called, and only because a space stands before the list. */
  lemma ListIsFound(table: string, names: seq<string>)
    requires table != "" && names != []
    ensures Finds(InsertText(table, names), table, RenderList(names))
        <==> forall i :: 0 <= i < |names| ==> !HasGap(names[i])
  {
    ListGap(names);
    ListEnds(names);
    TextIsLaidOut(table, RenderList(names));
    FoundIff(InsertText(table, names), table, RenderList(names), |INSERT| + |table|);
  }

  lemma ListEnds(names: seq<string>)
    requires names != []
    ensures RenderList(names) != "" && RenderList(names)[|RenderList(names)| - 1] == '`'
  {
    assert Quoted(names[|names| - 1])[|names[|names| - 1]| + 1] == '`';
  }

  /** A statement has one table and one list. */
  lemma FindsOne(query: string, t: string, l: string, t': string, l': string)
    requires Finds(query, t, l) && Finds(query, t', l')
    ensures t == t' && l == l'
  {
  }
}
