/** The server: sources that only receive inserts, aggregate tables, and views that copy each
    batch into the table they feed. */
module Warehouse {
  import opened Text

  datatype Event = Event(time: nat, chunk: string, key: string, value: nat)

  /** A row of an aggregate table is kept un-merged, as "this event, counted once through this
      view definition"; merging is GroupBy in Aggregates. */
  datatype Row = Row(mv: string, event: Event)

  /** A view definition reduced to what the protocol depends on; needs are the source columns
      its SELECT mentions. */
  datatype MV = MV(name: string, target: string, source: string, groupBy: string, needs: set<string>)

  /** A view in the catalog: the definition it was made from, the table it writes to, and the
      boundary predicate if it is an armed copy. */
  datatype View = View(def: MV, target: string, lower: Option<nat>)

  datatype Db = Db(
    sources: map<string, seq<Event>>,
    columns: map<string, set<string>>,  // of each source
    tables: map<string, multiset<Row>>,
    views: map<string, View>)

  /** Does a definition's SELECT, with the boundary column, resolve against its source? */
  predicate Resolves(db: Db, m: MV, boundaryColumn: string) {
    && m.source in db.sources
    && m.source in db.columns && m.needs + {boundaryColumn} <= db.columns[m.source]
  }

  /** The value of a bucket expression on an event; any function will do. */
  type Hash = (string, Event) -> nat

  /** The WHERE clauses the protocol uses. */
  datatype Filter =
    | All
    | From(t: nat)
    | Before(t: nat)
    | Day(t: nat, val: string)
    | Slice(t: nat, val: string, expr: string, n: nat, b: nat)

  predicate Passes(h: Hash, f: Filter, e: Event) {
    match f
    case All => true
    case From(t) => e.time >= t
    case Before(t) => e.time < t
    case Day(t, val) => e.time < t && e.chunk == val
    case Slice(t, val, expr, n, b) => e.time < t && e.chunk == val && n > 0 && h(expr, e) % n == b
  }

  /** The rows a definition's SELECT contributes from a sequence of events. */
  function Select(h: Hash, mv: string, events: seq<Event>, f: Filter): (rows: multiset<Row>)
    ensures forall r: Row ::
      rows[r] == if r.mv == mv && Passes(h, f, r.event) then multiset(events)[r.event] else 0
  {
    if events == [] then multiset{}
    else
      var last := |events| - 1;
      assert events == events[..last] + [events[last]];
      Select(h, mv, events[..last], f) +
      (if Passes(h, f, events[last]) then multiset{Row(mv, events[last])} else multiset{})
  }

  lemma SelectMonotone(h: Hash, mv: string, events: seq<Event>, more: seq<Event>, f: Filter)
    requires events <= more
    ensures Select(h, mv, events, f) <= Select(h, mv, more, f)
  {
    assert more == events + more[|events|..];
  }

  lemma SameSizeSameRows(part: multiset<Row>, whole: multiset<Row>)
    requires part <= whole && |part| == |whole|
    ensures part == whole
  {
    assert whole == part + (whole - part);
  }

  function LowerBound(v: View): Filter {
    match v.lower
    case None => All
    case Some(t) => From(t)
  }

  /** What one view writes into table when batch is inserted into source. */
  function FiredBy(h: Hash, v: View, table: string, source: string, batch: seq<Event>): multiset<Row> {
    if v.target == table && v.def.source == source then Select(h, v.def.name, batch, LowerBound(v)) else multiset{}
  }

  /** What the views in names write into table when batch is inserted into source. */
  ghost function Fired(h: Hash, views: map<string, View>, names: set<string>,
                       table: string, source: string, batch: seq<Event>): multiset<Row>
    requires names <= views.Keys
  {
    if names == {} then multiset{}
    else
      var n :| n in names;
      Fired(h, views, names - {n}, table, source, batch) + FiredBy(h, views[n], table, source, batch)
  }

  /** The order in which views fire does not matter: any one can be taken last. */
  lemma {:induction false} FiredSplit(h: Hash, views: map<string, View>, names: set<string>, n: string,
                                      table: string, source: string, batch: seq<Event>)
    requires names <= views.Keys && n in names
    ensures Fired(h, views, names, table, source, batch)
         == Fired(h, views, names - {n}, table, source, batch) + FiredBy(h, views[n], table, source, batch)
    decreases names
  {
    var k :| k in names
          && Fired(h, views, names, table, source, batch)
          == Fired(h, views, names - {k}, table, source, batch) + FiredBy(h, views[k], table, source, batch);
    if k != n {
      FiredSplit(h, views, names - {k}, n, table, source, batch);
      FiredSplit(h, views, names - {n}, k, table, source, batch);
      assert names - {k} - {n} == names - {n} - {k};
    }
  }

  /** Rows of a definition that no matching view carries are not written. */
  lemma {:induction false} FiredNone(h: Hash, views: map<string, View>, names: set<string>, row: Row,
                                     table: string, source: string, batch: seq<Event>)
    requires names <= views.Keys
    requires forall n :: n in names ==>
      views[n].def.name != row.mv || views[n].target != table || views[n].def.source != source
    ensures Fired(h, views, names, table, source, batch)[row] == 0
    decreases names
  {
    if names != {} {
      var n :| n in names;
      FiredSplit(h, views, names, n, table, source, batch);
      FiredNone(h, views, names - {n}, row, table, source, batch);
    }
  }

  /** If one view alone carries the definition into the table, it decides the count. */
  lemma FiredOne(h: Hash, views: map<string, View>, names: set<string>, n: string, row: Row,
                 table: string, source: string, batch: seq<Event>)
    requires names <= views.Keys && n in names
    requires forall k :: k in names && k != n ==>
      views[k].def.name != row.mv || views[k].target != table || views[k].def.source != source
    ensures Fired(h, views, names, table, source, batch)[row]
         == FiredBy(h, views[n], table, source, batch)[row]
  {
    FiredSplit(h, views, names, n, table, source, batch);
    FiredNone(h, views, names - {n}, row, table, source, batch);
  }

  /** An insert is refused when the source is unknown or a view on it writes to a
      table that is gone. */
  predicate Refuses(db: Db, source: string) {
    source !in db.sources ||
    exists n :: n in db.views && db.views[n].def.source == source && db.views[n].target !in db.tables
  }

  /** The database after inserting batch into source. */
  ghost function Inserted(h: Hash, db: Db, source: string, batch: seq<Event>): Db {
    if Refuses(db, source) then db
    else db.(
      sources := db.sources[source := db.sources[source] + batch],
      tables := map t | t in db.tables ::
        db.tables[t] + Fired(h, db.views, db.views.Keys, t, source, batch))
  }

  /** tables is what db's tables become once the views in done have fired. */
  ghost predicate AfterFiring(h: Hash, db: Db, done: set<string>, tables: map<string, multiset<Row>>,
                              source: string, batch: seq<Event>)
  {
    && done <= db.views.Keys
    && tables.Keys == db.tables.Keys
    && forall t :: t in tables ==>
         tables[t] == db.tables[t] + Fired(h, db.views, done, t, source, batch)
  }

  lemma FireNext(h: Hash, views: map<string, View>, done: set<string>, n: string, before: multiset<Row>,
                 table: string, source: string, batch: seq<Event>)
    requires done <= views.Keys && n in views && n !in done
    ensures before + Fired(h, views, done + {n}, table, source, batch)
         == before + Fired(h, views, done, table, source, batch) + FiredBy(h, views[n], table, source, batch)
  {
    FiredSplit(h, views, done + {n}, n, table, source, batch);
    assert done + {n} - {n} == done;
  }

  lemma FiredOnceMore(h: Hash, db: Db, done: set<string>, n: string, tables: map<string, multiset<Row>>,
                      after: map<string, multiset<Row>>, source: string, batch: seq<Event>)
    requires n in db.views && n !in done && AfterFiring(h, db, done, tables, source, batch)
    requires after.Keys == tables.Keys
    requires forall t :: t in after ==> after[t] == tables[t] + FiredBy(h, db.views[n], t, source, batch)
    ensures AfterFiring(h, db, done + {n}, after, source, batch)
  {
    forall t | t in after
      ensures after[t] == db.tables[t] + Fired(h, db.views, done + {n}, t, source, batch)
    {
      FireNext(h, db.views, done, n, db.tables[t], t, source, batch);
    }
  }

  method FireView(h: Hash, db: Db, ghost done: set<string>, n: string, tables: map<string, multiset<Row>>,
                  source: string, batch: seq<Event>)
    returns (after: map<string, multiset<Row>>)
    requires n in db.views && n !in done
    requires db.views[n].def.source == source ==> db.views[n].target in db.tables
    requires AfterFiring(h, db, done, tables, source, batch)
    ensures AfterFiring(h, db, done + {n}, after, source, batch)
  {
    var v := db.views[n];
    var rows := Select(h, v.def.name, batch, LowerBound(v));
    after := if v.def.source == source then tables[v.target := tables[v.target] + rows] else tables;
    FiredOnceMore(h, db, done, n, tables, after, source, batch);
  }

  lemma AllFired(h: Hash, db: Db, tables: map<string, multiset<Row>>, source: string, batch: seq<Event>)
    requires !Refuses(db, source) && AfterFiring(h, db, db.views.Keys, tables, source, batch)
    ensures tables == Inserted(h, db, source, batch).tables
  {
  }

  /** One INSERT into a source: the server appends the batch, then fires each view. */
  method Insert(h: Hash, db: Db, source: string, batch: seq<Event>) returns (after: Db)
    ensures after == Inserted(h, db, source, batch)
  {
    if Refuses(db, source) {
      return db;
    }
    var tables := db.tables;
    var waiting := db.views.Keys;
    ghost var done := {};
    while waiting != {}
      invariant waiting == db.views.Keys - done
      invariant AfterFiring(h, db, done, tables, source, batch)
      decreases waiting
    {
      var n :| n in waiting;
      tables := FireView(h, db, done, n, tables, source, batch);
      waiting, done := waiting - {n}, done + {n};
    }
    assert done == db.views.Keys;
    AllFired(h, db, tables, source, batch);
    after := db.(sources := db.sources[source := db.sources[source] + batch], tables := tables);
  }
}
