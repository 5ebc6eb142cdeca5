/** Column resolution: two walks over a struct type that must agree, and the checks on their
    results. */
module Columns {
  import opened Text
  import opened ColumnList

  datatype Field = Field(name: string, tag: string, exported: bool, anonymous: bool, typ: nat)

  datatype Kind = Struct(fields: seq<Field>) | Pointer(elem: nat) | Other

  /** Types form a graph that may be cyclic through embedded pointers; both walks carry the set
      of types on the current path. */
  type Types = map<nat, Kind>

  datatype Column = Column(field: seq<string>, name: string)

  /** An entry of the driver's index: column name, field, and whether a tag names it. */
  datatype Write = Write(name: string, field: seq<string>, tagged: bool)

  datatype Problem =
    | NotStruct | EmbeddedTagged | TaggedUnderPointer | EmbeddedNotStruct | Unexported | BadName
    | NoColumns | Duplicate | Shadowed | Unreadable

  datatype Result<+T> = Ok(value: T) | Err(problem: Problem)

  /** Every type mentioned is described; no field has the skip marker for its name. */
  predicate Closed(ts: Types) {
    forall t :: t in ts ==>
      match ts[t]
      case Struct(fields) => forall i :: 0 <= i < |fields| ==> FieldKnown(ts, fields[i])
      case Pointer(elem) => elem in ts
      case Other => true
  }

  predicate FieldKnown(ts: Types, f: Field) { f.typ in ts && f.name != "-" }

  /** The language rule that field names differ within a struct (blank fields aside, which
      are neither exported nor embedded). */
  predicate NamesDiffer(ts: Types) {
    forall t :: t in ts && ts[t].Struct? ==>
      forall i, j :: 0 <= i < j < |ts[t].fields| && Walked(ts[t].fields[i]) && Walked(ts[t].fields[j]) ==>
        ts[t].fields[i].name != ts[t].fields[j].name
  }

  predicate Walked(f: Field) { f.exported || f.anonymous }

  // ---------- the first walk: the columns an insert names ----------

  function Resolve(ts: Types, t: nat, prefix: seq<string>, path: set<nat>): Result<seq<Column>>
    requires Closed(ts) && t in ts
    decreases |ts.Keys - path|, 0
  {
    if !ts[t].Struct? then Err(NotStruct)
    else if t in path then Ok([])
    else
      PathGrows(ts.Keys, path, t);
      ResolveFields(ts, ts[t].fields, prefix, path + {t})
  }

  /** The termination measure: types not yet on the path. */
  lemma PathGrows(types: set<nat>, path: set<nat>, t: nat)
    requires t in types && t !in path
    ensures |types - (path + {t})| < |types - path|
  {
    assert types - path == (types - (path + {t})) + {t};
  }

  /** The columns of the first fields, in order; the first problem stops the walk. */
  function ResolveFields(ts: Types, fields: seq<Field>, prefix: seq<string>, path: set<nat>): Result<seq<Column>>
    requires Closed(ts) && forall i :: 0 <= i < |fields| ==> FieldKnown(ts, fields[i])
    decreases |ts.Keys - path|, |fields| + 1
  {
    if fields == [] then Ok([])
    else
      var n := |fields| - 1;
      var before := ResolveFields(ts, fields[..n], prefix, path);
      if before.Err? then before
      else
        var own := ResolveField(ts, fields[n], prefix, path);
        if own.Err? then own else Ok(before.value + own.value)
  }

  function ResolveField(ts: Types, f: Field, prefix: seq<string>, path: set<nat>): Result<seq<Column>>
    requires Closed(ts) && FieldKnown(ts, f)
    decreases |ts.Keys - path|, 1
  {
    var field := prefix + [f.name];
    if f.tag == "-" then Ok([])
    else if f.anonymous then
      if f.tag != "" then Err(EmbeddedTagged)
      else if ts[f.typ].Pointer? then
        if !ts[ts[f.typ].elem].Struct? then Ok([])
        else
          var inner := Resolve(ts, ts[f.typ].elem, field, path);
          if inner.Err? then inner
          else if inner.value != [] then Err(TaggedUnderPointer)
          else Ok([])
      else if !ts[f.typ].Struct? then Err(EmbeddedNotStruct)
      else Resolve(ts, f.typ, field, path)
    else if f.tag == "" then Ok([])
    else if !f.exported then Err(Unexported)
    else if !GoodName(f.tag) then Err(BadName)
    else Ok([Column(field, f.tag)])
  }

  // ---------- the second walk: the driver's index ----------

  function Writes(ts: Types, t: nat, prefix: seq<string>, path: set<nat>): seq<Write>
    requires Closed(ts) && t in ts
    decreases |ts.Keys - path|, 0
  {
    if !ts[t].Struct? || t in path then []
    else
      PathGrows(ts.Keys, path, t);
      WritesOf(ts, ts[t].fields, prefix, path + {t})
  }

  function WritesOf(ts: Types, fields: seq<Field>, prefix: seq<string>, path: set<nat>): seq<Write>
    requires Closed(ts) && forall i :: 0 <= i < |fields| ==> FieldKnown(ts, fields[i])
    decreases |ts.Keys - path|, |fields| + 1
  {
    if fields == [] then []
    else
      var n := |fields| - 1;
      WritesOf(ts, fields[..n], prefix, path) + WritesOfField(ts, fields[n], prefix, path)
  }

  function WritesOfField(ts: Types, f: Field, prefix: seq<string>, path: set<nat>): seq<Write>
    requires Closed(ts) && FieldKnown(ts, f)
    decreases |ts.Keys - path|, 1
  {
    var name := if f.tag != "" then f.tag else f.name;
    if name == "-" || !Walked(f) then []
    else if f.anonymous then
      if ts[f.typ].Pointer? then [] else Writes(ts, f.typ, prefix + [f.name], path)
    else [Write(name, prefix + [f.name], f.tag != "")]
  }

  // ---------- the walks agree ----------

  /** The tagged entries of an index, as columns. */
  function TaggedOf(ws: seq<Write>): seq<Column> {
    if ws == [] then []
    else
      var last := ws[|ws| - 1];
      TaggedOf(ws[..|ws| - 1]) + (if last.tagged then [Column(last.field, last.name)] else [])
  }

  lemma {:induction false} TaggedConcat(a: seq<Write>, b: seq<Write>)
    ensures TaggedOf(a + b) == TaggedOf(a) + TaggedOf(b)
  {
    if b == [] {
      assert a + b == a;
    } else {
      var n := |b| - 1;
      assert (a + b)[..|a| + n] == a + b[..n];
      TaggedConcat(a, b[..n]);
    }
  }

  /** When the first walk succeeds its columns are exactly the tagged entries the second
      walk writes: the same fields, in the same order. */
  lemma {:induction false} WalksAgree(ts: Types, t: nat, prefix: seq<string>, path: set<nat>)
    requires Closed(ts) && t in ts && Resolve(ts, t, prefix, path).Ok?
    ensures Resolve(ts, t, prefix, path).value == TaggedOf(Writes(ts, t, prefix, path))
    decreases |ts.Keys - path|, 0
  {
    if t !in path {
      PathGrows(ts.Keys, path, t);
      FieldWalksAgree(ts, ts[t].fields, prefix, path + {t});
    }
  }

  lemma {:induction false} FieldWalksAgree(ts: Types, fields: seq<Field>, prefix: seq<string>, path: set<nat>)
    requires Closed(ts) && forall i :: 0 <= i < |fields| ==> FieldKnown(ts, fields[i])
    requires ResolveFields(ts, fields, prefix, path).Ok?
    ensures ResolveFields(ts, fields, prefix, path).value == TaggedOf(WritesOf(ts, fields, prefix, path))
    decreases |ts.Keys - path|, |fields| + 1
  {
    if fields != [] {
      var n := |fields| - 1;
      FieldWalksAgree(ts, fields[..n], prefix, path);
      var f := fields[n];
      if f.anonymous && f.tag == "" && ts[f.typ].Struct? {
        WalksAgree(ts, f.typ, prefix + [f.name], path);
      }
      TaggedConcat(WritesOf(ts, fields[..n], prefix, path), WritesOfField(ts, f, prefix, path));
    }
  }

  // ---------- the last write wins ----------

  /** The index after a list of writes. */
  function Replay(idx: map<string, seq<string>>, ws: seq<Write>): map<string, seq<string>> {
    if ws == [] then idx
    else
      var last := ws[|ws| - 1];
      Replay(idx, ws[..|ws| - 1])[last.name := last.field]
  }

  lemma {:induction false} ReplayConcat(idx: map<string, seq<string>>, a: seq<Write>, b: seq<Write>)
    ensures Replay(idx, a + b) == Replay(Replay(idx, a), b)
  {
    if b == [] {
      assert a + b == a;
    } else {
      var n := |b| - 1;
      assert (a + b)[..|a| + n] == a + b[..n];
      ReplayConcat(idx, a, b[..n]);
    }
  }

  lemma {:induction false} LastWrite(ws: seq<Write>, i: nat)
    requires i < |ws| && forall j :: i < j < |ws| ==> ws[j].name != ws[i].name
    ensures ws[i].name in Replay(map[], ws) && Replay(map[], ws)[ws[i].name] == ws[i].field
  {
    if i < |ws| - 1 {
      LastWrite(ws[..|ws| - 1], i);
    }
  }

  lemma {:induction false} SomeLastWrite(ws: seq<Write>, i: nat) returns (k: nat)
    requires i < |ws|
    ensures i <= k < |ws| && ws[k].name == ws[i].name
    ensures forall j :: k < j < |ws| ==> ws[j].name != ws[k].name
  {
    var n := |ws| - 1;
    if ws[n].name == ws[i].name {
      k := n;
    } else {
      k := SomeLastWrite(ws[..n], i);
    }
  }

  // ---------- every write has its own field ----------

  ghost predicate Under(ws: seq<Write>, prefix: seq<string>) {
    forall i :: 0 <= i < |ws| ==> |ws[i].field| > |prefix| && ws[i].field[..|prefix|] == prefix
  }

  ghost predicate FieldsDiffer(ws: seq<Write>) {
    forall i, j :: 0 <= i < j < |ws| ==> ws[i].field != ws[j].field
  }

  lemma {:induction false} WritesDiffer(ts: Types, t: nat, prefix: seq<string>, path: set<nat>)
    requires Closed(ts) && NamesDiffer(ts) && t in ts
    ensures Under(Writes(ts, t, prefix, path), prefix) && FieldsDiffer(Writes(ts, t, prefix, path))
    decreases |ts.Keys - path|, 0
  {
    if ts[t].Struct? && t !in path {
      PathGrows(ts.Keys, path, t);
      FieldWritesDiffer(ts, ts[t].fields, prefix, path + {t});
    }
  }

  /** Writes of the first fields start with the name of one of them. */
  ghost predicate Starting(ws: seq<Write>, prefix: seq<string>, fields: seq<Field>) {
    forall i :: 0 <= i < |ws| ==> StartsIn(ws[i], prefix, fields)
  }

  ghost predicate StartsIn(w: Write, prefix: seq<string>, fields: seq<Field>) {
    |w.field| > |prefix| &&
    exists k :: 0 <= k < |fields| && Walked(fields[k]) && fields[k].name == w.field[|prefix|]
  }

  lemma {:induction false} FieldWritesDiffer(ts: Types, fields: seq<Field>, prefix: seq<string>, path: set<nat>)
    requires Closed(ts) && NamesDiffer(ts) && forall i :: 0 <= i < |fields| ==> FieldKnown(ts, fields[i])
    requires forall i, j :: 0 <= i < j < |fields| && Walked(fields[i]) && Walked(fields[j]) ==>
      fields[i].name != fields[j].name
    ensures Under(WritesOf(ts, fields, prefix, path), prefix)
    ensures FieldsDiffer(WritesOf(ts, fields, prefix, path))
    ensures Starting(WritesOf(ts, fields, prefix, path), prefix, fields)
    decreases |ts.Keys - path|, |fields| + 1
  {
    if fields != [] {
      var n := |fields| - 1;
      var f := fields[n];
      FieldWritesDiffer(ts, fields[..n], prefix, path);
      OneFieldDiffers(ts, f, prefix, path);
      var a, b := WritesOf(ts, fields[..n], prefix, path), WritesOfField(ts, f, prefix, path);
      StartingMore(a, prefix, fields, n);
      forall j | 0 <= j < |b|
        ensures StartsIn(b[j], prefix, fields)
      {
        assert fields[n].name == b[j].field[|prefix|];
      }
      forall i, j | 0 <= i < |a| && 0 <= j < |b|
        ensures a[i].field != b[j].field
      {
        assert StartsIn(a[i], prefix, fields[..n]);
        assert b[j].field[|prefix|] == f.name;
      }
    }
  }

  lemma StartingMore(ws: seq<Write>, prefix: seq<string>, fields: seq<Field>, n: nat)
    requires n <= |fields| && Starting(ws, prefix, fields[..n])
    ensures Starting(ws, prefix, fields)
  {
    forall i | 0 <= i < |ws|
      ensures StartsIn(ws[i], prefix, fields)
    {
      assert StartsIn(ws[i], prefix, fields[..n]);
      var k :| 0 <= k < n && Walked(fields[..n][k]) && fields[..n][k].name == ws[i].field[|prefix|];
      assert fields[k] == fields[..n][k];
    }
  }

  lemma {:induction false} OneFieldDiffers(ts: Types, f: Field, prefix: seq<string>, path: set<nat>)
    requires Closed(ts) && NamesDiffer(ts) && FieldKnown(ts, f)
    ensures Under(WritesOfField(ts, f, prefix, path), prefix + [f.name]) || !f.anonymous
    ensures forall i :: 0 <= i < |WritesOfField(ts, f, prefix, path)| ==>
      var w := WritesOfField(ts, f, prefix, path)[i];
      Walked(f) && |w.field| > |prefix| && w.field[..|prefix|] == prefix && w.field[|prefix|] == f.name
    ensures FieldsDiffer(WritesOfField(ts, f, prefix, path))
    decreases |ts.Keys - path|, 1
  {
    if f.anonymous && !ts[f.typ].Pointer? {
      var inner := prefix + [f.name];
      WritesDiffer(ts, f.typ, inner, path);
      var ws := WritesOfField(ts, f, prefix, path);
      forall i | 0 <= i < |ws|
        ensures |ws[i].field| > |prefix| && ws[i].field[..|prefix|] == prefix && ws[i].field[|prefix|] == f.name
      {
        assert ws[i].field[..|inner|] == inner;
        assert ws[i].field[..|prefix|] == ws[i].field[..|inner|][..|prefix|];
        assert ws[i].field[|prefix|] == ws[i].field[..|inner|][|prefix|];
      }
    }
  }

  // ---------- shadowing ----------

  ghost predicate Bound(idx: map<string, seq<string>>, cols: seq<Column>) {
    forall i :: 0 <= i < |cols| ==> BoundAt(idx, cols[i])
  }

  predicate BoundAt(idx: map<string, seq<string>>, col: Column) {
    col.name in idx && idx[col.name] == col.field
  }

  /** Does a later exported field claim a name that a tag listed? */
  ghost predicate Claimed(ws: seq<Write>) {
    exists i, j :: 0 <= i < j < |ws| && ws[i].tagged && ws[j].name == ws[i].name
  }

  ghost predicate NamesDistinct(cols: seq<Column>) {
    forall i, j :: 0 <= i < j < |cols| ==> cols[i].name != cols[j].name
  }

  lemma {:induction false} TaggedBothWays(ws: seq<Write>, col: Column)
    ensures col in TaggedOf(ws) <==>
      exists i :: 0 <= i < |ws| && ws[i].tagged && ws[i].field == col.field && ws[i].name == col.name
  {
    if ws != [] {
      var n := |ws| - 1;
      TaggedBothWays(ws[..n], col);
      if i :| 0 <= i < |ws| && ws[i].tagged && ws[i].field == col.field && ws[i].name == col.name {
        if i < n { assert ws[..n][i] == ws[i]; }
      }
    }
  }

  lemma {:induction false} UnclaimedNamesDistinct(ws: seq<Write>)
    requires !Claimed(ws)
    ensures NamesDistinct(TaggedOf(ws))
  {
    if ws != [] {
      var n := |ws| - 1;
      UnclaimedNamesDistinct(ws[..n]);
      var cols := TaggedOf(ws[..n]);
      forall i | 0 <= i < |cols| && ws[n].tagged
        ensures cols[i].name != ws[n].name
      {
        TaggedBothWays(ws[..n], cols[i]);
        var k :| 0 <= k < n && ws[..n][k].tagged && ws[..n][k].name == cols[i].name;
        assert ws[k].tagged && ws[k].name == cols[i].name;
      }
    }
  }

  /** Over the writes: every listed name is bound to its own field unless a later write claims
      it; and then the listed names are distinct. */
  lemma BoundIffUnclaimed(ts: Types, t: nat, cols: seq<Column>)
    requires Closed(ts) && NamesDiffer(ts) && t in ts && Resolve(ts, t, [], {}) == Ok(cols)
    ensures
      var ws := Writes(ts, t, [], {});
      && (Bound(Replay(map[], ws), cols) <==> !Claimed(ws))
      && (Bound(Replay(map[], ws), cols) ==> NamesDistinct(cols))
  {
    var ws := Writes(ts, t, [], {});
    var idx := Replay(map[], ws);
    WalksAgree(ts, t, [], {});
    if !Claimed(ws) {
      UnclaimedNamesDistinct(ws);
      forall i | 0 <= i < |cols|
        ensures BoundAt(idx, cols[i])
      {
        TaggedBothWays(ws, cols[i]);
        var k :| 0 <= k < |ws| && ws[k].tagged && ws[k].field == cols[i].field && ws[k].name == cols[i].name;
        LastWrite(ws, k);
      }
    } else {
      var i, j :| 0 <= i < j < |ws| && ws[i].tagged && ws[j].name == ws[i].name;
      TaggedBothWays(ws, Column(ws[i].field, ws[i].name));
      var k := SomeLastWrite(ws, j);
      LastWrite(ws, k);
      WritesDiffer(ts, t, [], {});
      assert !BoundAt(idx, Column(ws[i].field, ws[i].name));
    }
  }

  // ---------- the resolved column list ----------

  function NamesIn(cols: seq<Column>): (names: seq<string>)
    ensures |names| == |cols| && forall i :: 0 <= i < |cols| ==> names[i] == cols[i].name
  {
    seq(|cols|, i requires 0 <= i < |cols| => cols[i].name)
  }

  ghost function ColumnsOf(ts: Types, t: nat): Result<seq<Column>>
    requires Closed(ts) && t in ts
  {
    var r := Resolve(ts, t, [], {});
    if r.Err? then r
    else if r.value == [] then Err(NoColumns)
    else if !NamesDistinct(r.value) then Err(Duplicate)
    else if !Bound(Replay(map[], Writes(ts, t, [], {})), r.value) then Err(Shadowed)
    else r
  }

  lemma {:induction false} ResolvedNamesAreGood(ts: Types, t: nat, prefix: seq<string>, path: set<nat>)
    requires Closed(ts) && t in ts && Resolve(ts, t, prefix, path).Ok?
    ensures forall c :: c in Resolve(ts, t, prefix, path).value ==> GoodName(c.name)
    decreases |ts.Keys - path|, 0
  {
    if t !in path {
      PathGrows(ts.Keys, path, t);
      ResolvedFieldNamesAreGood(ts, ts[t].fields, prefix, path + {t});
    }
  }

  lemma {:induction false} ResolvedFieldNamesAreGood(ts: Types, fields: seq<Field>, prefix: seq<string>, path: set<nat>)
    requires Closed(ts) && forall i :: 0 <= i < |fields| ==> FieldKnown(ts, fields[i])
    requires ResolveFields(ts, fields, prefix, path).Ok?
    ensures forall c :: c in ResolveFields(ts, fields, prefix, path).value ==> GoodName(c.name)
    decreases |ts.Keys - path|, |fields| + 1
  {
    if fields != [] {
      var n := |fields| - 1;
      ResolvedFieldNamesAreGood(ts, fields[..n], prefix, path);
      var f := fields[n];
      if f.anonymous && f.tag == "" && ts[f.typ].Struct? {
        ResolvedNamesAreGood(ts, f.typ, prefix + [f.name], path);
      }
    }
  }
}
