/** The fields of a struct type, by the routes that lead to them. */
module Routes {
  // Which of them the driver fills and an insert names is told here without the walks.

  import opened Text
  import opened ColumnList
  import opened Columns

  // ---------- routes ----------

  /** What a route leads to: a field, the names on the way, and whether an embedded pointer was
      followed. */
  datatype Found = Found(field: Field, names: seq<string>, deref: bool)

  /** Follow a route from type t: each index but the last picks an embedded struct or an embedded
      pointer to one, the last picks a field.  No type is entered twice. */
  ghost function At(ts: Types, t: nat, path: set<nat>, route: seq<nat>): Option<Found>
    requires Closed(ts)
    decreases |route|
  {
    if t !in ts || !ts[t].Struct? || t in path || route == [] || route[0] >= |ts[t].fields| then None
    else
      var f := ts[t].fields[route[0]];
      if |route| == 1 then Some(Found(f, [f.name], false))
      else if !f.anonymous || f.tag == "-" then None
      else
        var inner := At(ts, Entered(ts, f), path + {t}, route[1..]);
        if inner.None? then None
        else Some(Found(inner.value.field, [f.name] + inner.value.names, inner.value.deref || ts[f.typ].Pointer?))
  }

  /** The type an embedded field leads into. */
  function Entered(ts: Types, f: Field): nat
    requires f.typ in ts
  {
    match ts[f.typ]
    case Pointer(elem) => elem
    case _ => f.typ
  }

  /** Declaration order: an embedded struct's fields stand where it is embedded. */
  predicate Before(a: seq<nat>, b: seq<nat>) {
    b != [] && (a == [] || a[0] < b[0] || (a[0] == b[0] && Before(a[1..], b[1..])))
  }

  /** A field the driver fills: exported, not embedded, not skipped, and not under a pointer. */
  predicate Fills(x: Found) {
    x.field.exported && !x.field.anonymous && x.field.tag != "-" && !x.deref
  }

  /** The column it fills: the tag, or else the Go name. */
  function ColumnOf(f: Field): string { if f.tag != "" then f.tag else f.name }

  /** The route leads to a field that the driver fills from column name. */
  ghost predicate Claims(ts: Types, t: nat, route: seq<nat>, name: string)
    requires Closed(ts)
  {
    var x := At(ts, t, {}, route);
    x.Some? && Fills(x.value) && ColumnOf(x.value.field) == name
  }

  /** The same with a tag, so that an insert names the column. */
  ghost predicate Lists(ts: Types, t: nat, route: seq<nat>, col: Column)
    requires Closed(ts)
  {
    Claims(ts, t, route, col.name) && At(ts, t, {}, route).value.field.tag != "" &&
    At(ts, t, {}, route).value.names == col.field
  }

  /** A column's name is claimed by a field further down. */
  ghost predicate Overtaken(ts: Types, t: nat)
    requires Closed(ts)
  {
    exists r, r', col :: Lists(ts, t, r, col) && Before(r, r') && Claims(ts, t, r', col.name)
  }

  // ---------- the index lists the routes in order ----------

  ghost predicate Indexed(ts: Types, t: nat, path: set<nat>, route: seq<nat>)
    requires Closed(ts)
  {
    At(ts, t, path, route).Some? && Fills(At(ts, t, path, route).value)
  }

  ghost predicate EntryAt(ts: Types, t: nat, path: set<nat>, prefix: seq<string>, route: seq<nat>, w: Write)
    requires Closed(ts)
  {
    Indexed(ts, t, path, route) &&
    var x := At(ts, t, path, route).value;
    w == Write(ColumnOf(x.field), prefix + x.names, x.field.tag != "")
  }

  /** routes are those to fields lo to hi, in order, and ws what the driver writes for each. */
  ghost predicate Enumerates(ts: Types, t: nat, path: set<nat>, prefix: seq<string>, lo: nat, hi: nat,
                             routes: seq<seq<nat>>, ws: seq<Write>)
    requires Closed(ts)
  {
    && |routes| == |ws|
    && (forall i :: 0 <= i < |ws| ==> EntryAt(ts, t, path, prefix, routes[i], ws[i]))
    && (forall i :: 0 <= i < |ws| ==> From(routes[i], lo, hi))
    && Ordered(routes)
    && (forall r :: From(r, lo, hi) && Indexed(ts, t, path, r) ==> r in routes)
  }

  predicate From(route: seq<nat>, lo: nat, hi: nat) { route != [] && lo <= route[0] < hi }

  predicate Ordered(routes: seq<seq<nat>>) {
    forall i, j :: 0 <= i < j < |routes| ==> Before(routes[i], routes[j])
  }

  /** The number of fields of a type; none if it is not a struct. */
  function Width(ts: Types, t: nat): nat
    requires t in ts
  {
    if ts[t].Struct? then |ts[t].fields| else 0
  }

  lemma {:induction false} RoutesOfType(ts: Types, t: nat, prefix: seq<string>, path: set<nat>)
    returns (routes: seq<seq<nat>>)
    requires Closed(ts) && t in ts
    ensures Enumerates(ts, t, path, prefix, 0, Width(ts, t), routes, Writes(ts, t, prefix, path))
    decreases |ts.Keys - path|, 0
  {
    if !ts[t].Struct? || t in path {
      routes := [];
    } else {
      PathGrows(ts.Keys, path, t);
      routes := RoutesOfFields(ts, t, |ts[t].fields|, prefix, path);
      assert ts[t].fields[..|ts[t].fields|] == ts[t].fields;
    }
  }

  lemma {:induction false} RoutesOfFields(ts: Types, t: nat, n: nat, prefix: seq<string>, path: set<nat>)
    returns (routes: seq<seq<nat>>)
    requires Closed(ts) && t in ts && ts[t].Struct? && t !in path && n <= |ts[t].fields|
    requires |ts.Keys - (path + {t})| < |ts.Keys - path|
    ensures Enumerates(ts, t, path, prefix, 0, n, routes, WritesOf(ts, ts[t].fields[..n], prefix, path + {t}))
    decreases |ts.Keys - (path + {t})|, n + 1
  {
    var fields := ts[t].fields;
    if n == 0 {
      routes := [];
    } else {
      assert fields[..n][..n - 1] == fields[..n - 1];
      var front := RoutesOfFields(ts, t, n - 1, prefix, path);
      var own := RoutesOfField(ts, t, n - 1, prefix, path);
      routes := front + own;
      Joined(ts, t, path, prefix, n - 1, front, WritesOf(ts, fields[..n - 1], prefix, path + {t}),
             own, WritesOfField(ts, fields[n - 1], prefix, path + {t}));
    }
  }

  lemma Joined(ts: Types, t: nat, path: set<nat>, prefix: seq<string>, k: nat,
               front: seq<seq<nat>>, ws: seq<Write>, own: seq<seq<nat>>, more: seq<Write>)
    requires Closed(ts)
    requires Enumerates(ts, t, path, prefix, 0, k, front, ws) && Enumerates(ts, t, path, prefix, k, k + 1, own, more)
    ensures Enumerates(ts, t, path, prefix, 0, k + 1, front + own, ws + more)
  {
    forall i | 0 <= i < |ws + more|
      ensures EntryAt(ts, t, path, prefix, (front + own)[i], (ws + more)[i])
      ensures From((front + own)[i], 0, k + 1)
    {
      if i < |ws| {
        assert EntryAt(ts, t, path, prefix, front[i], ws[i]);
      } else {
        assert EntryAt(ts, t, path, prefix, own[i - |ws|], more[i - |ws|]);
      }
    }
    forall r | From(r, 0, k + 1) && Indexed(ts, t, path, r)
      ensures r in front + own
    {
      assert From(r, 0, k) || From(r, k, k + 1);
    }
  }

  /** Routes that start with field k. */
  lemma {:induction false} RoutesOfField(ts: Types, t: nat, k: nat, prefix: seq<string>, path: set<nat>)
    returns (routes: seq<seq<nat>>)
    requires Closed(ts) && t in ts && ts[t].Struct? && t !in path && k < |ts[t].fields|
    ensures Enumerates(ts, t, path, prefix, k, k + 1, routes, WritesOfField(ts, ts[t].fields[k], prefix, path + {t}))
    decreases |ts.Keys - (path + {t})|, 1
  {
    var f := ts[t].fields[k];
    assert FieldKnown(ts, f);
    if f.anonymous {
      if f.tag == "-" || ts[f.typ].Pointer? {
        routes := [];
        forall r | From(r, k, k + 1) ensures !Indexed(ts, t, path, r) {}
      } else {
        var inner := RoutesOfType(ts, f.typ, prefix + [f.name], path + {t});
        routes := Under(k, inner);
        Embedded(ts, t, k, prefix, path, inner, Writes(ts, f.typ, prefix + [f.name], path + {t}));
      }
    } else {
      routes := if f.exported && f.tag != "-" then [[k]] else [];
      assert At(ts, t, path, [k]) == Some(Found(f, [f.name], false));
      forall r | From(r, k, k + 1) && Indexed(ts, t, path, r) ensures r in routes {
        assert r == [k];
      }
    }
  }

  function Under(k: nat, routes: seq<seq<nat>>): (rs: seq<seq<nat>>)
    ensures |rs| == |routes| && forall i :: 0 <= i < |rs| ==> rs[i] == [k] + routes[i]
  {
    seq(|routes|, i requires 0 <= i < |routes| => [k] + routes[i])
  }

  /** Is field k of t an embedded struct that the driver flattens? */
  ghost predicate Flattened(ts: Types, t: nat, path: set<nat>, k: nat)
    requires Closed(ts)
  {
    && t in ts && ts[t].Struct? && t !in path && k < |ts[t].fields| && FieldKnown(ts, ts[t].fields[k])
    && ts[t].fields[k].anonymous && ts[t].fields[k].tag != "-" && !ts[ts[t].fields[k].typ].Pointer?
  }

  lemma ThroughField(ts: Types, t: nat, path: set<nat>, k: nat, route: seq<nat>)
    requires Closed(ts) && Flattened(ts, t, path, k)
    ensures
      var f := ts[t].fields[k];
      var inner := At(ts, f.typ, path + {t}, route);
      At(ts, t, path, [k] + route) ==
      if route == [] then Some(Found(f, [f.name], false))
      else if inner.None? then None
      else Some(Found(inner.value.field, [f.name] + inner.value.names, inner.value.deref))
  {
    assert ([k] + route)[1..] == route;
  }

  lemma EntryThrough(ts: Types, t: nat, path: set<nat>, prefix: seq<string>, k: nat, route: seq<nat>, w: Write)
    requires Closed(ts) && Flattened(ts, t, path, k) && route != []
    requires EntryAt(ts, ts[t].fields[k].typ, path + {t}, prefix + [ts[t].fields[k].name], route, w)
    ensures EntryAt(ts, t, path, prefix, [k] + route, w)
  {
    var f := ts[t].fields[k];
    ThroughField(ts, t, path, k, route);
    var x := At(ts, f.typ, path + {t}, route).value;
    assert prefix + [f.name] + x.names == prefix + ([f.name] + x.names);
  }

  lemma BeforeUnder(k: nat, a: seq<nat>, b: seq<nat>)
    ensures Before([k] + a, [k] + b) <==> Before(a, b)
  {
    assert ([k] + a)[1..] == a && ([k] + b)[1..] == b;
  }

  lemma RouteUnder(ts: Types, t: nat, path: set<nat>, k: nat, r: seq<nat>)
    requires Closed(ts) && Flattened(ts, t, path, k) && From(r, k, k + 1) && Indexed(ts, t, path, r)
    ensures From(r[1..], 0, Width(ts, ts[t].fields[k].typ)) && r == [k] + r[1..]
    ensures Indexed(ts, ts[t].fields[k].typ, path + {t}, r[1..])
  {
    assert r == [k] + r[1..];
    ThroughField(ts, t, path, k, r[1..]);
  }

  lemma UnderOrdered(k: nat, routes: seq<seq<nat>>)
    requires Ordered(routes)
    ensures Ordered(Under(k, routes))
  {
    forall i, j | 0 <= i < j < |routes|
      ensures Before(Under(k, routes)[i], Under(k, routes)[j])
    {
      BeforeUnder(k, routes[i], routes[j]);
    }
  }

  /** Entering an embedded struct puts its index in front of every route. */
  lemma Embedded(ts: Types, t: nat, k: nat, prefix: seq<string>, path: set<nat>, inner: seq<seq<nat>>, ws: seq<Write>)
    requires Closed(ts) && Flattened(ts, t, path, k)
    requires
      var f := ts[t].fields[k];
      Enumerates(ts, f.typ, path + {t}, prefix + [f.name], 0, Width(ts, f.typ), inner, ws)
    ensures Enumerates(ts, t, path, prefix, k, k + 1, Under(k, inner), ws)
  {
    var typ, inside := ts[t].fields[k].typ, prefix + [ts[t].fields[k].name];
    UnderOrdered(k, inner);
    forall i | 0 <= i < |ws|
      ensures EntryAt(ts, t, path, prefix, Under(k, inner)[i], ws[i]) && From(Under(k, inner)[i], k, k + 1)
    {
      assert EntryAt(ts, typ, path + {t}, inside, inner[i], ws[i]);
      assert From(inner[i], 0, Width(ts, typ));
      EntryThrough(ts, t, path, prefix, k, inner[i], ws[i]);
    }
    forall r | From(r, k, k + 1) && Indexed(ts, t, path, r)
      ensures r in Under(k, inner)
    {
      RouteUnder(ts, t, path, k, r);
      InUnder(k, inner, r[1..]);
    }
  }

  lemma InUnder(k: nat, routes: seq<seq<nat>>, route: seq<nat>)
    requires route in routes
    ensures [k] + route in Under(k, routes)
  {
    var i :| 0 <= i < |routes| && routes[i] == route;
    assert Under(k, routes)[i] == [k] + route;
  }

  lemma {:induction false} BeforeIsOrder(a: seq<nat>, b: seq<nat>)
    ensures !(Before(a, b) && Before(b, a)) && !Before(a, a)
  {
    if a != [] && b != [] {
      BeforeIsOrder(a[1..], b[1..]);
    } else if a != [] {
      BeforeIsOrder(a[1..], a[1..]);
    }
    if a != [] { BeforeIsOrder(a[1..], a[1..]); }
  }

  // ---------- what the driver fills ----------

  /** The driver writes a column from a field exactly if a route leads there. */
  lemma WrittenIff(ts: Types, t: nat, w: Write)
    requires Closed(ts) && t in ts
    ensures w in Writes(ts, t, [], {}) <==> exists r :: EntryAt(ts, t, {}, [], r, w)
  {
    var routes := RoutesOfType(ts, t, [], {});
    var ws := Writes(ts, t, [], {});
    if w in ws {
      var i :| 0 <= i < |ws| && ws[i] == w;
      assert EntryAt(ts, t, {}, [], routes[i], w);
    }
    if r :| EntryAt(ts, t, {}, [], r, w) {
      assert From(r, 0, Width(ts, t)) && Indexed(ts, t, {}, r);
      var i :| 0 <= i < |routes| && routes[i] == r;
      assert EntryAt(ts, t, {}, [], r, ws[i]);
    }
  }

  lemma EntryClaims(ts: Types, t: nat, r: seq<nat>, w: Write)
    requires Closed(ts) && EntryAt(ts, t, {}, [], r, w)
    ensures Claims(ts, t, r, w.name) && (w.tagged <==> Lists(ts, t, r, Column(w.field, w.name)))
  {
    var x := At(ts, t, {}, r).value;
    assert [] + x.names == x.names;
  }

  lemma ClaimIsEntry(ts: Types, t: nat, r: seq<nat>, name: string) returns (w: Write)
    requires Closed(ts) && Claims(ts, t, r, name)
    ensures EntryAt(ts, t, {}, [], r, w) && w.name == name
  {
    var x := At(ts, t, {}, r).value;
    w := Write(name, [] + x.names, x.field.tag != "");
  }

  /** Where a route stands in the index. */
  lemma Position(ts: Types, t: nat, routes: seq<seq<nat>>, r: seq<nat>, name: string) returns (i: nat)
    requires Closed(ts) && t in ts && Claims(ts, t, r, name)
    requires Enumerates(ts, t, {}, [], 0, Width(ts, t), routes, Writes(ts, t, [], {}))
    ensures i < |routes| && routes[i] == r && EntryAt(ts, t, {}, [], r, Writes(ts, t, [], {})[i])
    ensures Writes(ts, t, [], {})[i].name == name
  {
    var w := ClaimIsEntry(ts, t, r, name);
    assert From(r, 0, Width(ts, t)) && Indexed(ts, t, {}, r);
    i :| 0 <= i < |routes| && routes[i] == r;
    assert EntryAt(ts, t, {}, [], routes[i], Writes(ts, t, [], {})[i]);
  }

  lemma OrderIsIndex(routes: seq<seq<nat>>, i: nat, j: nat)
    requires Ordered(routes) && i < |routes| && j < |routes|
    ensures Before(routes[i], routes[j]) <==> i < j
  {
    BeforeIsOrder(routes[i], routes[j]);
  }

  lemma ClaimOvertakes(ts: Types, t: nat, routes: seq<seq<nat>>, ws: seq<Write>, i: nat, j: nat)
    requires Closed(ts) && t in ts && Enumerates(ts, t, {}, [], 0, Width(ts, t), routes, ws)
    requires i < j < |ws| && ws[i].tagged && ws[j].name == ws[i].name
    ensures Overtaken(ts, t)
  {
    OrderIsIndex(routes, i, j);
    EntryClaims(ts, t, routes[i], ws[i]);
    EntryClaims(ts, t, routes[j], ws[j]);
    assert Lists(ts, t, routes[i], Column(ws[i].field, ws[i].name));
  }

  lemma OvertakingClaims(ts: Types, t: nat, routes: seq<seq<nat>>, r: seq<nat>, r': seq<nat>, col: Column)
    requires Closed(ts) && t in ts
    requires Enumerates(ts, t, {}, [], 0, Width(ts, t), routes, Writes(ts, t, [], {}))
    requires Lists(ts, t, r, col) && Before(r, r') && Claims(ts, t, r', col.name)
    ensures Claimed(Writes(ts, t, [], {}))
  {
    var ws := Writes(ts, t, [], {});
    var i := Position(ts, t, routes, r, col.name);
    var j := Position(ts, t, routes, r', col.name);
    OrderIsIndex(routes, i, j);
    assert ws[i].tagged && ws[j].name == ws[i].name;
  }

  lemma ClaimedIff(ts: Types, t: nat)
    requires Closed(ts) && t in ts
    ensures Claimed(Writes(ts, t, [], {})) <==> Overtaken(ts, t)
  {
    var ws := Writes(ts, t, [], {});
    var routes := RoutesOfType(ts, t, [], {});
    if Claimed(ws) {
      var i, j :| 0 <= i < j < |ws| && ws[i].tagged && ws[j].name == ws[i].name;
      ClaimOvertakes(ts, t, routes, ws, i, j);
    }
    if Overtaken(ts, t) {
      var r, r', col :| Lists(ts, t, r, col) && Before(r, r') && Claims(ts, t, r', col.name);
      OvertakingClaims(ts, t, routes, r, r', col);
    }
  }

  // ---------- which columns an insert names ----------

  /** cols are the tagged fields the driver fills, in declaration order. */
  ghost predicate ListedBy(ts: Types, t: nat, routes: seq<seq<nat>>, cols: seq<Column>)
    requires Closed(ts)
  {
    && |routes| == |cols| && Ordered(routes)
    && (forall i :: 0 <= i < |cols| ==> Lists(ts, t, routes[i], cols[i]))
    && (forall r, col :: Lists(ts, t, r, col) ==> r in routes)
  }

  /** routes are those of the tagged writes, in their order. */
  ghost predicate Selected(ts: Types, t: nat, all: seq<seq<nat>>, ws: seq<Write>, routes: seq<seq<nat>>)
    requires Closed(ts) && |all| == |ws|
  {
    && |routes| == |TaggedOf(ws)| && Ordered(routes)
    && (forall r :: r in routes ==> r in all)
    && (forall i :: 0 <= i < |routes| ==> Lists(ts, t, routes[i], TaggedOf(ws)[i]))
    && (forall i :: 0 <= i < |all| && ws[i].tagged ==> all[i] in routes)
  }

  lemma OrderedMore(routes: seq<seq<nat>>, all: seq<seq<nat>>, last: seq<nat>)
    requires Ordered(routes) && Ordered(all + [last]) && forall r :: r in routes ==> r in all
    ensures Ordered(routes + [last])
  {
    forall i | 0 <= i < |routes|
      ensures Before(routes[i], last)
    {
      assert routes[i] in all;
      var k :| 0 <= k < |all| && all[k] == routes[i];
      assert Before((all + [last])[k], (all + [last])[|all|]);
    }
  }

  lemma SelectedMore(ts: Types, t: nat, all: seq<seq<nat>>, ws: seq<Write>, routes: seq<seq<nat>>)
    requires Closed(ts) && all != [] && |all| == |ws| && Ordered(all)
    requires EntryAt(ts, t, {}, [], all[|all| - 1], ws[|ws| - 1])
    requires Selected(ts, t, all[..|all| - 1], ws[..|ws| - 1], routes)
    ensures Selected(ts, t, all, ws, if ws[|ws| - 1].tagged then routes + [all[|all| - 1]] else routes)
  {
    var n := |ws| - 1;
    assert all == all[..n] + [all[n]];
    EntryClaims(ts, t, all[n], ws[n]);
    OrderedMore(routes, all[..n], all[n]);
    var more := if ws[n].tagged then routes + [all[n]] else routes;
    forall i | 0 <= i < |all| && ws[i].tagged
      ensures all[i] in more
    {
      if i < n { assert all[..n][i] == all[i] && ws[..n][i] == ws[i]; }
    }
  }

  lemma {:induction false} TaggedRoutes(ts: Types, t: nat, all: seq<seq<nat>>, ws: seq<Write>)
    returns (routes: seq<seq<nat>>)
    requires Closed(ts) && |all| == |ws| && Ordered(all)
    requires forall i :: 0 <= i < |ws| ==> EntryAt(ts, t, {}, [], all[i], ws[i])
    ensures Selected(ts, t, all, ws, routes)
  {
    routes := [];
    if ws != [] {
      var n := |ws| - 1;
      routes := TaggedRoutes(ts, t, all[..n], ws[..n]);
      SelectedMore(ts, t, all, ws, routes);
      if ws[n].tagged { routes := routes + [all[n]]; }
    }
  }

  lemma ListedInOrder(ts: Types, t: nat) returns (routes: seq<seq<nat>>)
    requires Closed(ts) && t in ts
    ensures ListedBy(ts, t, routes, TaggedOf(Writes(ts, t, [], {})))
  {
    var ws := Writes(ts, t, [], {});
    var all := RoutesOfType(ts, t, [], {});
    routes := TaggedRoutes(ts, t, all, ws);
    forall r, col | Lists(ts, t, r, col)
      ensures r in routes
    {
      var i := Position(ts, t, all, r, col.name);
      assert ws[i].tagged;
    }
  }

  lemma SameNameRepeats(ts: Types, t: nat, routes: seq<seq<nat>>, cols: seq<Column>, i: nat, j: nat)
    requires Closed(ts) && ListedBy(ts, t, routes, cols) && i < j < |cols| && cols[i].name == cols[j].name
    ensures Repeated(ts, t)
  {
    OrderIsIndex(routes, i, j);
    assert Lists(ts, t, routes[i], cols[i]) && Lists(ts, t, routes[j], cols[j]);
  }

  lemma RepeatIsListed(ts: Types, t: nat, routes: seq<seq<nat>>, cols: seq<Column>,
                       r: seq<nat>, r': seq<nat>, col: Column, col': Column)
    requires Closed(ts) && ListedBy(ts, t, routes, cols)
    requires Lists(ts, t, r, col) && Lists(ts, t, r', col') && Before(r, r') && col.name == col'.name
    ensures !NamesDistinct(cols)
  {
    var i :| 0 <= i < |routes| && routes[i] == r;
    var j :| 0 <= j < |routes| && routes[j] == r';
    OrderIsIndex(routes, i, j);
    assert Lists(ts, t, routes[i], cols[i]) && Lists(ts, t, routes[j], cols[j]);
    assert cols[i].name == cols[j].name;
  }

  lemma SameNameListed(ts: Types, t: nat, routes: seq<seq<nat>>, cols: seq<Column>)
    requires Closed(ts) && ListedBy(ts, t, routes, cols)
    ensures NamesDistinct(cols) <==> !Repeated(ts, t)
    ensures cols != [] <==> exists r, col :: Lists(ts, t, r, col)
  {
    if !NamesDistinct(cols) {
      var i, j :| 0 <= i < j < |cols| && cols[i].name == cols[j].name;
      SameNameRepeats(ts, t, routes, cols, i, j);
    }
    if Repeated(ts, t) {
      var r, r', col, col' :| Lists(ts, t, r, col) && Lists(ts, t, r', col') && Before(r, r') && col.name == col'.name;
      RepeatIsListed(ts, t, routes, cols, r, r', col, col');
    }
    if cols != [] { assert Lists(ts, t, routes[0], cols[0]); }
  }

  /** Two tags name the same column. */
  ghost predicate Repeated(ts: Types, t: nat)
    requires Closed(ts)
  {
    exists r, r', col, col' :: Lists(ts, t, r, col) && Lists(ts, t, r', col') && Before(r, r') && col.name == col'.name
  }

  // ---------- when the column walk refuses a type ----------

  /** What cannot be written as declared: an embedded field with a tag or that is neither a struct
      nor a pointer; a tagged field under an embedded pointer, a private one, one with a bad name. */
  ghost predicate Trouble(ts: Types, x: Found) {
    var f := x.field;
    f.tag != "-" &&
    if f.anonymous then f.tag != "" || (f.typ in ts && ts[f.typ].Other?)
    else f.tag != "" && (x.deref || !f.exported || !GoodName(f.tag))
  }

  ghost predicate TroubleAt(ts: Types, t: nat, path: set<nat>, route: seq<nat>)
    requires Closed(ts)
  {
    At(ts, t, path, route).Some? && Trouble(ts, At(ts, t, path, route).value)
  }

  ghost predicate Sound(ts: Types, t: nat, path: set<nat>)
    requires Closed(ts)
  {
    forall r :: !TroubleAt(ts, t, path, r)
  }

  ghost predicate SoundFrom(ts: Types, t: nat, path: set<nat>, lo: nat, hi: nat)
    requires Closed(ts)
  {
    forall r :: From(r, lo, hi) ==> !TroubleAt(ts, t, path, r)
  }

  /** The walk succeeds on a struct if and only if no route leads to trouble. */
  lemma {:induction false} ResolvesIff(ts: Types, t: nat, prefix: seq<string>, path: set<nat>)
    requires Closed(ts) && t in ts
    ensures Resolve(ts, t, prefix, path).Ok? <==> ts[t].Struct? && Sound(ts, t, path)
    decreases |ts.Keys - path|, 0
  {
    if ts[t].Struct? && t !in path {
      PathGrows(ts.Keys, path, t);
      var n := |ts[t].fields|;
      FieldsResolveIff(ts, t, n, prefix, path);
      assert ts[t].fields[..n] == ts[t].fields;
      forall r | TroubleAt(ts, t, path, r) ensures From(r, 0, n) {}
    }
  }

  lemma {:induction false} FieldsResolveIff(ts: Types, t: nat, n: nat, prefix: seq<string>, path: set<nat>)
    requires Closed(ts) && t in ts && ts[t].Struct? && t !in path && n <= |ts[t].fields|
    requires |ts.Keys - (path + {t})| < |ts.Keys - path|
    ensures ResolveFields(ts, ts[t].fields[..n], prefix, path + {t}).Ok? <==> SoundFrom(ts, t, path, 0, n)
    decreases |ts.Keys - (path + {t})|, n + 1
  {
    var fields := ts[t].fields;
    if n > 0 {
      assert fields[..n][..n - 1] == fields[..n - 1];
      FieldsResolveIff(ts, t, n - 1, prefix, path);
      FieldResolvesIff(ts, t, n - 1, prefix, path);
      forall r | From(r, 0, n) ensures From(r, 0, n - 1) || From(r, n - 1, n) {}
    }
  }

  lemma {:induction false} FieldResolvesIff(ts: Types, t: nat, k: nat, prefix: seq<string>, path: set<nat>)
    requires Closed(ts) && t in ts && ts[t].Struct? && t !in path && k < |ts[t].fields|
    ensures ResolveField(ts, ts[t].fields[k], prefix, path + {t}).Ok? <==> SoundFrom(ts, t, path, k, k + 1)
    decreases |ts.Keys - (path + {t})|, 1
  {
    var f := ts[t].fields[k];
    assert FieldKnown(ts, f);
    assert At(ts, t, path, [k]) == Some(Found(f, [f.name], false)) && From([k], k, k + 1);
    if f.anonymous && f.tag == "" && !ts[f.typ].Other? {
      var u := Entered(ts, f);
      if ts[u].Struct? { ResolvesIff(ts, u, prefix + [f.name], path + {t}); }
      EnteredSound(ts, t, path, k);
      if ts[f.typ].Pointer? && ts[u].Struct? && Sound(ts, u, path + {t}) {
        WalksAgree(ts, u, prefix + [f.name], path + {t});
        NothingTagged(ts, u, prefix + [f.name], path + {t});
      }
    } else if f.anonymous && f.tag != "-" {
      assert TroubleAt(ts, t, path, [k]);
    } else {
      forall r | From(r, k, k + 1) && r != [k] ensures At(ts, t, path, r).None? {}
    }
  }

  /** Trouble below an embedded struct; below a pointer every tagged field is. */
  lemma EnteredSound(ts: Types, t: nat, path: set<nat>, k: nat)
    requires Closed(ts) && t in ts && ts[t].Struct? && t !in path && k < |ts[t].fields|
    requires
      var f := ts[t].fields[k];
      FieldKnown(ts, f) && f.anonymous && f.tag == "" && !ts[f.typ].Other?
    ensures
      var u := Entered(ts, ts[t].fields[k]);
      SoundFrom(ts, t, path, k, k + 1) <==>
      Sound(ts, u, path + {t}) && (ts[ts[t].fields[k].typ].Pointer? ==> forall r :: !TagAt(ts, u, path + {t}, r))
  {
    var f := ts[t].fields[k];
    var u := Entered(ts, f);
    assert At(ts, t, path, [k]) == Some(Found(f, [f.name], false));
    forall r
      ensures From([k] + r, k, k + 1)
      ensures r != [] ==> (TroubleAt(ts, t, path, [k] + r) <==>
        TroubleAt(ts, u, path + {t}, r) || (ts[f.typ].Pointer? && TagAt(ts, u, path + {t}, r)))
    {
      assert ([k] + r)[1..] == r;
    }
    forall r | From(r, k, k + 1) ensures r == [k] + r[1..] {}
    forall r | TroubleAt(ts, u, path + {t}, r) || TagAt(ts, u, path + {t}, r) ensures r != [] {}
  }

  ghost predicate TagAt(ts: Types, t: nat, path: set<nat>, route: seq<nat>)
    requires Closed(ts)
  {
    At(ts, t, path, route).Some? &&
    var f := At(ts, t, path, route).value.field;
    !f.anonymous && f.tag != "" && f.tag != "-"
  }

  lemma NothingTagged(ts: Types, t: nat, prefix: seq<string>, path: set<nat>)
    requires Closed(ts) && t in ts && Sound(ts, t, path)
    ensures TaggedOf(Writes(ts, t, prefix, path)) == [] <==> forall r :: !TagAt(ts, t, path, r)
  {
    var ws := Writes(ts, t, prefix, path);
    var routes := RoutesOfType(ts, t, prefix, path);
    if TaggedOf(ws) != [] {
      TaggedBothWays(ws, TaggedOf(ws)[0]);
      var i :| 0 <= i < |ws| && ws[i].tagged;
      assert EntryAt(ts, t, path, prefix, routes[i], ws[i]);
      assert TagAt(ts, t, path, routes[i]);
    }
    if r :| TagAt(ts, t, path, r) {
      assert !TroubleAt(ts, t, path, r) && Indexed(ts, t, path, r) && From(r, 0, Width(ts, t));
      var i :| 0 <= i < |routes| && routes[i] == r;
      assert EntryAt(ts, t, path, prefix, r, ws[i]);
      TaggedBothWays(ws, Column(ws[i].field, ws[i].name));
    }
  }

  // ---------- the checks ----------

  /** The shadowing check fails exactly when an exported field further down, tagged or not, claims
      a listed name. */
  lemma ShadowingIff(ts: Types, t: nat, cols: seq<Column>)
    requires Closed(ts) && NamesDiffer(ts) && t in ts && Resolve(ts, t, [], {}) == Ok(cols)
    ensures Bound(Replay(map[], Writes(ts, t, [], {})), cols) <==> !Overtaken(ts, t)
  {
    BoundIffUnclaimed(ts, t, cols);
    ClaimedIff(ts, t);
  }

  /** A struct on which no route leads to trouble, with some tagged field the driver fills, each of
      them the last that claims its column. */
  ghost predicate Acceptable(ts: Types, t: nat)
    requires Closed(ts) && t in ts
  {
    ts[t].Struct? && Sound(ts, t, {}) && !Overtaken(ts, t) && exists r, col :: Lists(ts, t, r, col)
  }

  /** What becomes of a type, told from its fields alone. */
  lemma AcceptedIff(ts: Types, t: nat)
    requires Closed(ts) && NamesDiffer(ts) && t in ts
    ensures Resolve(ts, t, [], {}).Ok? <==> ts[t].Struct? && Sound(ts, t, {})
    ensures ts[t].Struct? && Sound(ts, t, {}) ==>
      && (ColumnsOf(ts, t) == Err(NoColumns) <==> !exists r, col :: Lists(ts, t, r, col))
      && (ColumnsOf(ts, t) == Err(Duplicate) <==> Repeated(ts, t))
      && (ColumnsOf(ts, t) == Err(Shadowed) <==> Overtaken(ts, t) && !Repeated(ts, t))
    ensures ColumnsOf(ts, t).Ok? <==> Acceptable(ts, t)
  {
    ResolvesIff(ts, t, [], {});
    if Resolve(ts, t, [], {}).Ok? {
      var cols := Resolve(ts, t, [], {}).value;
      WalksAgree(ts, t, [], {});
      ShadowingIff(ts, t, cols);
      BoundIffUnclaimed(ts, t, cols);
      var routes := ListedInOrder(ts, t);
      SameNameListed(ts, t, routes, cols);
      RepeatedIsOvertaken(ts, t);
    }
  }

  /** A duplicate is a special case of shadowing; the duplicate check only gives it its own name. */
  lemma RepeatedIsOvertaken(ts: Types, t: nat)
    requires Closed(ts)
    ensures Repeated(ts, t) ==> Overtaken(ts, t)
  {
  }

  /** What an accepted type guarantees: its columns are the tagged fields that the driver fills, in
      declaration order; no field further down claims the name of one; names are distinct; and the
      list reads back as written. */
  lemma AcceptedColumns(ts: Types, t: nat, cols: seq<Column>) returns (routes: seq<seq<nat>>)
    requires Closed(ts) && NamesDiffer(ts) && t in ts && ColumnsOf(ts, t) == Ok(cols)
    ensures ListedBy(ts, t, routes, cols) && !Overtaken(ts, t) && NamesDistinct(cols)
    ensures Bound(Replay(map[], Writes(ts, t, [], {})), cols)
    ensures ReadList(RenderList(NamesIn(cols))) == NamesIn(cols)
  {
    WalksAgree(ts, t, [], {});
    ShadowingIff(ts, t, cols);
    routes := ListedInOrder(ts, t);
    ResolvedNamesAreGood(ts, t, [], {});
    forall i | 0 <= i < |cols|
      ensures GoodName(NamesIn(cols)[i])
    {
      assert cols[i] in cols;
    }
    GoodNamesRoundTrip(NamesIn(cols));
  }

  /** In particular, an untagged field below a tagged one, named as its column, is enough. */
  lemma UntaggedShadows(ts: Types, t: nat, i: nat, j: nat)
    requires Closed(ts) && NamesDiffer(ts) && t in ts && ts[t].Struct? && Sound(ts, t, {}) && !Repeated(ts, t)
    requires i < j < |ts[t].fields|
    requires
      var f, g := ts[t].fields[i], ts[t].fields[j];
      && f.exported && !f.anonymous && f.tag != "" && f.tag != "-"
      && g.exported && !g.anonymous && g.tag == "" && g.name == f.tag
    ensures ColumnsOf(ts, t) == Err(Shadowed)
  {
    var f := ts[t].fields[i];
    assert Lists(ts, t, [i], Column([f.name], f.tag));
    assert Claims(ts, t, [j], f.tag) && Before([i], [j]);
    AcceptedIff(ts, t);
  }
}
