/** The walks and checks as they run: a path set that is extended on entry and restored on
    every return, an index that is overwritten in place, and two caches. */
module ColumnWalks {
  import opened Text
  import opened ColumnList
  import opened Columns
  import opened Routes

  /** The types on the current path. */
  class TypePath {
    var on: set<nat>

    constructor ()
      ensures on == {}
    {
      on := {};
    }
  }

  /** The driver's index: column name to field, later writes replacing earlier ones. */
  class Index {
    var entries: map<string, seq<string>>

    constructor ()
      ensures entries == map[]
    {
      entries := map[];
    }
  }

  method ResolveColumns(ts: Types, t: nat, prefix: seq<string>, path: TypePath) returns (r: Result<seq<Column>>)
    requires Closed(ts) && t in ts
    modifies path
    ensures r == Resolve(ts, t, prefix, old(path.on)) && path.on == old(path.on)
    decreases |ts.Keys - path.on|, 0
  {
    if !ts[t].Struct? {
      return Err(NotStruct);
    }
    if t in path.on {
      return Ok([]);
    }
    PathGrows(ts.Keys, path.on, t);
    path.on := path.on + {t};
    var cols: seq<Column> := [];
    ghost var inside := path.on;
    var fields := ts[t].fields;
    assert inside - {t} == old(path.on);
    var i := 0;
    while i < |fields|
      invariant 0 <= i <= |fields| && path.on == inside
      invariant ResolveFields(ts, fields[..i], prefix, inside) == Ok(cols)
    {
      assert fields[..i + 1][..i] == fields[..i];
      assert FieldKnown(ts, fields[i]);
      var own := ResolveOne(ts, fields[i], prefix, path);
      if own.Err? {
        StopsAt(ts, fields, i, prefix, inside);
        path.on := path.on - {t};
        return own;
      }
      cols := cols + own.value;
      i := i + 1;
    }
    assert fields[..i] == fields;
    path.on := path.on - {t};
    return Ok(cols);
  }

  /** The first problem is the walk's result. */
  lemma {:induction false} StopsAt(ts: Types, fields: seq<Field>, i: nat, prefix: seq<string>, path: set<nat>)
    requires Closed(ts) && forall j :: 0 <= j < |fields| ==> FieldKnown(ts, fields[j])
    requires i < |fields| && ResolveFields(ts, fields[..i], prefix, path).Ok?
    requires ResolveField(ts, fields[i], prefix, path).Err?
    ensures ResolveFields(ts, fields, prefix, path) == ResolveField(ts, fields[i], prefix, path)
  {
    var n := |fields| - 1;
    if i < n {
      assert fields[..n][..i] == fields[..i];
      StopsAt(ts, fields[..n], i, prefix, path);
    }
  }

  method ResolveOne(ts: Types, f: Field, prefix: seq<string>, path: TypePath) returns (r: Result<seq<Column>>)
    requires Closed(ts) && FieldKnown(ts, f)
    modifies path
    ensures r == ResolveField(ts, f, prefix, old(path.on)) && path.on == old(path.on)
    decreases |ts.Keys - path.on|, 1
  {
    if f.tag == "-" {
      return Ok([]);
    }
    var field := prefix + [f.name];
    if f.anonymous {
      if f.tag != "" {
        return Err(EmbeddedTagged);
      }
      if ts[f.typ].Pointer? {
        if !ts[ts[f.typ].elem].Struct? {
          return Ok([]);
        }
        var inner := ResolveColumns(ts, ts[f.typ].elem, field, path);
        if inner.Err? {
          return inner;
        }
        if inner.value != [] {
          return Err(TaggedUnderPointer);
        }
        return Ok([]);
      }
      if !ts[f.typ].Struct? {
        return Err(EmbeddedNotStruct);
      }
      r := ResolveColumns(ts, f.typ, field, path);
      return;
    }
    if f.tag == "" {
      return Ok([]);
    }
    if !f.exported {
      return Err(Unexported);
    }
    if !GoodName(f.tag) {
      return Err(BadName);
    }
    return Ok([Column(field, f.tag)]);
  }

  method DriverIndex(ts: Types, t: nat, prefix: seq<string>, path: TypePath, out: Index)
    requires Closed(ts) && t in ts
    modifies path, out
    ensures path.on == old(path.on)
    ensures out.entries == Replay(old(out.entries), Writes(ts, t, prefix, old(path.on)))
    decreases |ts.Keys - path.on|, 0
  {
    if !ts[t].Struct? || t in path.on {
      return;
    }
    PathGrows(ts.Keys, path.on, t);
    path.on := path.on + {t};
    assert path.on - {t} == old(path.on);
    IndexFields(ts, ts[t].fields, prefix, path, out);
    path.on := path.on - {t};
  }

  method IndexFields(ts: Types, fields: seq<Field>, prefix: seq<string>, path: TypePath, out: Index)
    requires Closed(ts) && forall i :: 0 <= i < |fields| ==> FieldKnown(ts, fields[i])
    modifies path, out
    ensures path.on == old(path.on)
    ensures out.entries == Replay(old(out.entries), WritesOf(ts, fields, prefix, old(path.on)))
    decreases |ts.Keys - path.on|, 2
  {
    ghost var inside := path.on;
    ghost var start := out.entries;
    var i := 0;
    while i < |fields|
      invariant 0 <= i <= |fields| && path.on == inside
      invariant out.entries == Replay(start, WritesOf(ts, fields[..i], prefix, inside))
    {
      assert fields[..i + 1][..i] == fields[..i];
      ReplayConcat(start, WritesOf(ts, fields[..i], prefix, inside), WritesOfField(ts, fields[i], prefix, inside));
      IndexField(ts, fields[i], prefix, path, out);
      i := i + 1;
    }
    assert fields[..i] == fields;
  }

  method IndexField(ts: Types, f: Field, prefix: seq<string>, path: TypePath, out: Index)
    requires Closed(ts) && FieldKnown(ts, f)
    modifies path, out
    ensures path.on == old(path.on)
    ensures out.entries == Replay(old(out.entries), WritesOfField(ts, f, prefix, old(path.on)))
    decreases |ts.Keys - path.on|, 1
  {
    var name := f.name;
    if f.tag != "" {
      name := f.tag;
    }
    if name == "-" || (!f.exported && !f.anonymous) {
      return;
    }
    var field := prefix + [f.name];
    if f.anonymous {
      if !ts[f.typ].Pointer? {
        DriverIndex(ts, f.typ, field, path, out);
      }
      return;
    }
    out.entries := out.entries[name := field];
  }

  method CheckDuplicates(cols: seq<Column>) returns (ok: bool)
    ensures ok <==> NamesDistinct(cols)
  {
    var seen: set<string> := {};
    var i := 0;
    while i < |cols|
      invariant 0 <= i <= |cols|
      invariant forall n :: n in seen <==> exists j :: 0 <= j < i && cols[j].name == n
      invariant NamesDistinct(cols[..i])
    {
      if cols[i].name in seen {
        return false;
      }
      seen := seen + {cols[i].name};
      i := i + 1;
    }
    assert cols[..i] == cols;
    return true;
  }

  method CheckShadowing(ts: Types, t: nat, cols: seq<Column>) returns (ok: bool)
    requires Closed(ts) && t in ts
    ensures ok <==> Bound(Replay(map[], Writes(ts, t, [], {})), cols)
    ensures NamesDiffer(ts) && Resolve(ts, t, [], {}) == Ok(cols) ==> (ok <==> !Overtaken(ts, t))
  {
    if NamesDiffer(ts) && Resolve(ts, t, [], {}) == Ok(cols) { ShadowingIff(ts, t, cols); }
    var idx := new Index();
    var path := new TypePath();
    DriverIndex(ts, t, [], path, idx);
    var i := 0;
    while i < |cols|
      invariant 0 <= i <= |cols|
      invariant forall j :: 0 <= j < i ==> BoundAt(idx.entries, cols[j])
    {
      if !BoundAt(idx.entries, cols[i]) {
        return false;
      }
      i := i + 1;
    }
    return true;
  }

  // ---------- statements and caches ----------

  /** The driver's regular expressions: the text of the list it finds in a statement. */
  type Finder = string -> Option<string>

  datatype Plan = Plan(query: string, cols: Result<seq<Column>>)

  /** Would the driver read this statement's list back as these names? */
  predicate Parseable(find: Finder, query: string, names: seq<string>) {
    find(query).Some? && ReadList(find(query).value) == names
  }

  /** The uncached plan. */
  ghost function PlanOf(ts: Types, find: Finder, t: nat, table: string): Plan
    requires Closed(ts) && t in ts
  {
    var cols := ColumnsOf(ts, t);
    if cols.Err? then Plan("", cols)
    else
      var query := InsertText(table, NamesIn(cols.value));
      if Parseable(find, query, NamesIn(cols.value)) then Plan(query, cols) else Plan("", Err(Unreadable))
  }

  class Planner {
    const ts: Types
    const find: Finder
    var columnCache: map<nat, Result<seq<Column>>>
    var planCache: map<(nat, string), Plan>

    /** Every cached entry is what computing it afresh would give. */
    ghost predicate Valid()
      reads this
    {
      && Closed(ts)
      && (forall t :: t in columnCache ==> t in ts && columnCache[t] == ColumnsOf(ts, t))
      && (forall t, table :: (t, table) in planCache ==> t in ts && planCache[(t, table)] == PlanOf(ts, find, t, table))
    }

    constructor (ts: Types, find: Finder)
      requires Closed(ts)
      ensures Valid() && this.ts == ts && this.find == find
    {
      this.ts, this.find, columnCache, planCache := ts, find, map[], map[];
    }

    method ColumnsFor(t: nat) returns (r: Result<seq<Column>>)
      requires Valid() && t in ts
      modifies this`columnCache
      ensures Valid() && r == ColumnsOf(ts, t)
      ensures NamesDiffer(ts) ==> (r.Ok? <==> Acceptable(ts, t))
      ensures columnCache == old(columnCache)[t := r]
    {
      if NamesDiffer(ts) { AcceptedIff(ts, t); }
      if t in columnCache {
        return columnCache[t];
      }
      var path := new TypePath();
      r := ResolveColumns(ts, t, [], path);
      if r.Ok? && r.value == [] {
        r := Err(NoColumns);
      }
      if r.Ok? {
        var distinct := CheckDuplicates(r.value);
        if !distinct {
          r := Err(Duplicate);
        }
      }
      if r.Ok? {
        var bound := CheckShadowing(ts, t, r.value);
        if !bound {
          r := Err(Shadowed);
        }
      }
      columnCache := columnCache[t := r];
    }

    method InsertPlan(t: nat, table: string) returns (plan: Plan)
      requires Valid() && t in ts
      modifies this`columnCache, this`planCache
      ensures Valid() && plan == PlanOf(ts, find, t, table)
      ensures planCache == old(planCache)[(t, table) := plan]
    {
      if (t, table) in planCache {
        return planCache[(t, table)];
      }
      var cols := ColumnsFor(t);
      var query := "";
      if cols.Ok? {
        query := InsertQuery(table, NamesIn(cols.value));
        var parseable := CheckParseable(query, NamesIn(cols.value));
        if !parseable {
          cols := Err(Unreadable);
        }
      }
      if cols.Err? {
        query := "";
      }
      plan := Plan(query, cols);
      planCache := planCache[(t, table) := plan];
    }

    method CheckParseable(query: string, names: seq<string>) returns (ok: bool)
      requires names != []
      ensures ok <==> Parseable(find, query, names)
    {
      var found := find(query);
      if found.None? {
        return false;
      }
      var got := DriverNames(found.value);
      return got == names;
    }
  }

  /** A plan without error names exactly the columns the driver will fill, each from the field
      that declared it; where the driver finds the list as written, the plan fails only if
      the type itself is rejected. */
  lemma PlanMeaning(ts: Types, find: Finder, t: nat, table: string)
    returns (routes: seq<seq<nat>>)
    requires Closed(ts) && NamesDiffer(ts) && t in ts
    ensures
      var plan := PlanOf(ts, find, t, table);
      plan.cols.Ok? ==>
        && ListedBy(ts, t, routes, plan.cols.value) && !Overtaken(ts, t)
        && Bound(Replay(map[], Writes(ts, t, [], {})), plan.cols.value)
        && plan.query == InsertText(table, NamesIn(plan.cols.value))
        && find(plan.query).Some? && ReadList(find(plan.query).value) == NamesIn(plan.cols.value)
    ensures
      ColumnsOf(ts, t).Ok?
      && find(InsertText(table, NamesIn(ColumnsOf(ts, t).value))) == Some(RenderList(NamesIn(ColumnsOf(ts, t).value)))
      ==> PlanOf(ts, find, t, table).cols.Ok?
  {
    routes := [];
    if ColumnsOf(ts, t).Ok? {
      routes := AcceptedColumns(ts, t, ColumnsOf(ts, t).value);
    }
  }
}
