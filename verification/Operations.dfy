/** Abort and Cutover, and what every sequence of operations keeps. */
module Operations {
  import opened Text
  import opened Warehouse
  import opened Outcomes
  import opened Journal
  import opened Chunks
  import opened Limits
  import opened Protocol
  import opened Statements
  import opened Accounting
  import opened Progress
  import opened Orchestrators

  // ---------- what an operation leaves alone ----------

  /** Every view outside names is as it was. */
  ghost predicate ViewsKept(w: World, w': World, names: iset<string>) {
    forall n :: n in w.db.views && n !in names ==> n in w'.db.views && w'.db.views[n] == w.db.views[n]
  }

  /** Every table but gone still exists and has lost no row. */
  ghost predicate TablesKept(w: World, w': World, gone: iset<string>) {
    forall t :: t in w.db.tables && t !in gone ==> t in w'.db.tables && w.db.tables[t] <= w'.db.tables[t]
  }

  ghost predicate SourcesGrow(w: World, w': World) {
    forall s :: s in w.db.sources ==> s in w'.db.sources && w.db.sources[s] <= w'.db.sources[s]
  }

  /** Only views in names and tables in gone may have been dropped; with no insert, nothing
      else changed at all. */
  ghost predicate Dropped(w: World, w': World, names: iset<string>, gone: iset<string>) {
    && ViewsKept(w, w', names) && TablesKept(w, w', gone) && SourcesGrow(w, w')
    && (forall n :: n in w'.db.views ==> n in w.db.views && w'.db.views[n] == w.db.views[n])
    && w'.db.tables.Keys <= w.db.tables.Keys
    && w'.log == w.log && w.book.arrived <= w'.book.arrived && w'.book.build == w.book.build
    && w'.db.columns == w.db.columns
    && (w.book.arrived == w'.book.arrived ==>
          w'.db.sources == w.db.sources && forall t :: t in w'.db.tables ==> w'.db.tables[t] == w.db.tables[t])
  }

  lemma DroppedTransitive(w0: World, w1: World, w2: World, names: iset<string>, gone: iset<string>)
    requires Dropped(w0, w1, names, gone) && Dropped(w1, w2, names, gone)
    ensures Dropped(w0, w2, names, gone)
  {
    forall t | t in w0.db.tables && t !in gone
      ensures t in w2.db.tables && w0.db.tables[t] <= w2.db.tables[t]
    {
      assert w0.db.tables[t] <= w1.db.tables[t];
    }
    forall s | s in w0.db.sources
      ensures s in w2.db.sources && w0.db.sources[s] <= w2.db.sources[s]
    {
      assert w0.db.sources[s] <= w1.db.sources[s];
    }
  }

  lemma CalmIsDropped(c: Setting, w: World, w': World, names: iset<string>, gone: iset<string>)
    requires Calm(w, w')
    ensures Dropped(w, w', names, gone)
  {
    forall t | t in w.db.tables ensures t in w'.db.tables && w.db.tables[t] <= w'.db.tables[t] {
      assert TableGrows(w, w', t);
    }
    forall s | s in w.db.sources ensures s in w'.db.sources && w.db.sources[s] <= w'.db.sources[s] {
      assert SourceGrows(w, w', s);
    }
  }

  // ---------- statements ----------

  method DropOneView(o: Orchestrator, name: string, ghost names: iset<string>) returns (ok: bool)
    requires o.Ok() && name in names
    modifies o`db, o`now, o`script, o`book
    ensures o.Ok() && Dropped(old(o.W()), o.W(), names, iset{})
    ensures ok ==> name !in o.db.views
    ensures old(o.Smooth()) ==> o.Quietly() && ok
  {
    ghost var w0 := o.W();
    var outcome, _ := o.Interleave(Plain);
    ghost var mid := o.W();
    CalmIsDropped(o.C(), w0, mid, names, iset{});
    if !outcome.Lost? {
      o.db := DropView(o.db, name);
      o.book := AfterDropView(mid, name).book;
      DropViewKeepsInv(o.C(), mid, name);
      DroppedTransitive(w0, mid, o.W(), names, iset{});
    }
    ok := outcome.Applied?;
  }

  /** DROP VIEW IF EXISTS for each name, stopping at the first error. */
  method DropViews(o: Orchestrator, doomed: seq<string>, ghost names: iset<string>) returns (ok: bool)
    requires o.Ok() && forall n :: n in doomed ==> n in names
    modifies o`db, o`now, o`script, o`book
    ensures o.Ok() && Dropped(old(o.W()), o.W(), names, iset{})
    ensures ok ==> forall n :: n in doomed ==> n !in o.db.views
    ensures old(o.Smooth()) ==> o.Quietly() && ok
  {
    ghost var w0 := o.W();
    var i := 0;
    while i < |doomed|
      invariant 0 <= i <= |doomed|
      invariant o.Ok() && Dropped(w0, o.W(), names, iset{})
      invariant forall j :: 0 <= j < i ==> doomed[j] !in o.db.views
      invariant old(o.Smooth()) ==> o.Quietly()
    {
      ghost var w := o.W();
      ok := DropOneView(o, doomed[i], names);
      DroppedTransitive(w0, w, o.W(), names, iset{});
      if !ok {
        return;
      }
      i := i + 1;
    }
    ok := true;
  }

  function ArmedNames(mvs: seq<string>): (names: seq<string>)
    ensures |names| == |mvs|
    ensures forall i :: 0 <= i < |mvs| ==> names[i] == V2Name(mvs[i])
  {
    seq(|mvs|, i requires 0 <= i < |mvs| => V2Name(mvs[i]))
  }

  lemma ArmedNamesCover(c: Setting, db: Db)
    requires forall n :: n in ArmedNames(c.spec.mvs) ==> n !in db.views
    ensures NoV2View(c, db)
  {
    forall m | c.Listed(m)
      ensures V2Name(m) !in db.views
    {
      var i :| 0 <= i < |c.spec.mvs| && c.spec.mvs[i] == m;
      assert ArmedNames(c.spec.mvs)[i] == V2Name(m);
    }
  }

  // ---------- abort ----------

  ghost function V2Names(c: Setting): iset<string> { iset n | CopyName(c.spec.mvs, n) }

  /** What a process does not list stays: the copies left are those the spec leaves out. */
  lemma UnlistedStay(c: Setting, w: World, w': World)
    requires Dropped(w, w', V2Names(c), iset{c.V2()}) && NoV2View(c, w'.db)
    ensures Feeders(c, w'.db) == Unlisted(c, w.db)
  {
    forall n | n in Feeders(c, w'.db)
      ensures n in Unlisted(c, w.db)
    {
      if m :| m in c.spec.mvs && n == V2Name(m) { assert c.Listed(m); }
    }
  }

  /** Copies are left out if and only if a view that v2 is built from has one and is not listed. */
  lemma UnlistedIff(c: Setting, c': Setting, w: World)
    requires Inv(c, w) && Tracked(c, w) && c'.V2() == c.V2()
    ensures Unlisted(c', w.db) == {} <==>
      forall m :: m in w.Defs() && V2Name(m) in w.db.views ==> c'.Listed(m)
  {
    InvParts(c, w);
    forall m | m in w.Defs() && V2Name(m) in w.db.views
      ensures V2Name(m) in Unlisted(c', w.db) <==> !c'.Listed(m)
    {
      DefName(c, w, m);
      assert ArmedAt(c, w, m);
      forall x ensures x in c'.spec.mvs && V2Name(x) == V2Name(m) ==> x == m {
        assert V2Name(x)[..|x|] == x && V2Name(m)[..|m|] == m;
      }
    }
    forall n | n in Unlisted(c', w.db)
      ensures exists m :: m in w.Defs() && n == V2Name(m)
    {
      var m := FeederIsCopy(c, w, n);
    }
  }

  method DropV2Table(o: Orchestrator) returns (ok: bool)
    requires o.Ok() && NoV2View(o.C(), o.db)
    modifies o`db, o`now, o`script, o`book
    ensures o.Ok() && NoV2View(o.C(), o.db)
    ensures Dropped(old(o.W()), o.W(), V2Names(o.C()), iset{o.spec.V2Table()})
    ensures ok ==> !HasV2(o.C(), o.W())
    ensures old(o.Smooth()) ==> o.Quietly() && ok
  {
    ghost var w0 := o.W();
    var outcome, _ := o.Interleave(Plain);
    ghost var mid := o.W();
    CalmIsDropped(o.C(), w0, mid, V2Names(o.C()), iset{o.spec.V2Table()});
    if !outcome.Lost? {
      o.db := DropTable(o.db, o.spec.V2Table());
      DropTableKeepsInv(o.C(), mid);
      DroppedTransitive(w0, mid, o.W(), V2Names(o.C()), iset{o.spec.V2Table()});
    }
    ok := outcome.Applied?;
  }

  method RecordAbort(o: Orchestrator)
    requires o.Ok() && NoV2View(o.C(), o.db) && !HasV2(o.C(), o.W())
    requires o.log == [] || Last(o.log).phase != CutOver
    modifies o`db, o`log, o`now, o`script, o`book
    ensures o.Ok() && NoV2View(o.C(), o.db) && !HasV2(o.C(), o.W())
    ensures Dropped(old(o.W()), o.W().(log := old(o.log)), V2Names(o.C()), iset{o.spec.V2Table()})
    ensures o.log == old(o.log) || o.log == old(o.log) + [Record(o.spec.hash, Aborted, Done, "", "")]
    ensures old(o.Smooth()) ==> o.Quietly()
    ensures old(o.Smooth()) ==> o.log == old(o.log) + [Record(o.spec.hash, Aborted, Done, "", "")]
  {
    ghost var w0 := o.W();
    var outcome, _ := o.Interleave(Plain);
    ghost var mid := o.W();
    CalmIsDropped(o.C(), w0, mid, V2Names(o.C()), iset{o.spec.V2Table()});
    var r := Record(o.spec.hash, Aborted, Done, "", "");
    InvParts(o.C(), mid);
    if !outcome.Lost? {
      o.log := o.log + [r];
      AppendAbortKeepsInv(o.C(), mid, r);
    }
  }

  /** Drop the copies of the listed views, then the v2 table.  The copies of other views are not
      touched: once the table is gone, they are the ones without it. */
  method TearDown(o: Orchestrator) returns (ok: bool)
    requires o.Ok()
    modifies o`db, o`now, o`script, o`book
    ensures o.Ok() && Dropped(old(o.W()), o.W(), V2Names(o.C()), iset{o.spec.V2Table()})
    ensures ok ==> NoV2View(o.C(), o.db) && !HasV2(o.C(), o.W())
    ensures old(HasV2(o.C(), o.W())) && !HasV2(o.C(), o.W()) ==> NoV2View(o.C(), o.db)
    ensures ok ==> Feeders(o.C(), o.db) == Unlisted(o.C(), old(o.db))
    ensures old(o.Smooth()) ==> o.Quietly() && ok
  {
    ghost var w0 := o.W();
    ghost var names, gone := V2Names(o.C()), iset{o.spec.V2Table()};
    forall n | n in ArmedNames(o.spec.mvs)
      ensures n in names
    {
      var i :| 0 <= i < |o.spec.mvs| && ArmedNames(o.spec.mvs)[i] == n;
      assert o.spec.mvs[i] in o.spec.mvs;
    }
    ok := DropViews(o, ArmedNames(o.spec.mvs), names);
    DroppedMore(w0, o.W(), names, iset{}, names, gone);
    if !ok {
      return;
    }
    ArmedNamesCover(o.C(), o.db);
    ghost var w := o.W();
    ok := DropV2Table(o);
    DroppedTransitive(w0, w, o.W(), names, gone);
    UnlistedStay(o.C(), w0, o.W());
  }

  /** Every listed live view and the target table are in place, the latter with all its rows. */
  ghost predicate LiveObjectsKept(c: Setting, w: World, w': World) {
    && (forall m :: c.Listed(m) && m in w.db.views ==> m in w'.db.views && w'.db.views[m] == w.db.views[m])
    && (c.spec.targetTable in w.db.tables ==>
          c.spec.targetTable in w'.db.tables && w.db.tables[c.spec.targetTable] <= w'.db.tables[c.spec.targetTable])
  }

  lemma DroppedV2Only(c: Setting, w: World, w': World)
    requires Inv(c, w) && Dropped(w, w', V2Names(c), iset{c.V2()})
    ensures LiveObjectsKept(c, w, w')
  {
    InvParts(c, w);
    forall m | c.Listed(m) && m in w.db.views
      ensures m in w'.db.views && w'.db.views[m] == w.db.views[m]
    {
      assert m in Names(c);
      forall x ensures !(x in c.spec.mvs && m == V2Name(x)) {
        if x in c.spec.mvs { assert x in Names(c) && c.ApartAt(m, x); }
      }
    }
  }

  /** Drop the armed copies, then the v2 table, then say so; refused after a cutover.  It leaves
      a copy without its table if and only if there is one of a view that the spec does not list. */
  method Abort(o: Orchestrator) returns (ok: bool)
    requires o.Ok()
    modifies o`db, o`log, o`now, o`script, o`book
    ensures o.Ok()
    ensures old(o.log) != [] && Last(old(o.log)).phase == CutOver ==> !ok && Calm(old(o.W()), o.W())
    ensures Dropped(old(o.W()), o.W().(log := old(o.log)), V2Names(o.C()), iset{o.spec.V2Table()})
    ensures o.log == old(o.log) || o.log == old(o.log) + [Record(o.spec.hash, Aborted, Done, "", "")]
    ensures o.log != old(o.log) ==> NoV2View(o.C(), o.db) && !HasV2(o.C(), o.W())
    ensures ok ==> !HasV2(o.C(), o.W()) && Feeders(o.C(), o.db) == Unlisted(o.C(), old(o.db))
    ensures ok ==> (NoDangling(o.db) <==> Unlisted(o.C(), old(o.db)) == {})
    ensures LeftBehind(o.C(), old(o.W()), o.W())
    ensures LiveObjectsKept(o.C(), old(o.W()), o.W()) && o.book.build == old(o.book.build)
    ensures old(o.Smooth()) && !(old(o.log) != [] && Last(old(o.log)).phase == CutOver) ==>
      ok && o.Quietly() &&
      o.log == old(o.log) + [Record(o.spec.hash, Aborted, Done, "", "")]
  {
    ghost var w0 := o.W();
    ok := TearDownAndRecord(o);
    DroppedV2Only(o.C(), w0, o.W().(log := w0.log));
    DroppedDangling(o.C(), w0, o.W(), w0.log);
  }

  lemma DroppedDangling(c: Setting, w: World, w': World, log: seq<Record>)
    requires Inv(c, w) && Inv(c, w') && Dropped(w, w'.(log := log), V2Names(c), iset{c.V2()})
    requires HasV2(c, w) && !HasV2(c, w') ==> NoV2View(c, w'.db)
    ensures NoV2View(c, w'.db) && !HasV2(c, w') ==>
      Feeders(c, w'.db) == Unlisted(c, w.db) && (NoDangling(w'.db) <==> Unlisted(c, w.db) == {})
    ensures LeftBehind(c, w, w')
  {
    OnlyCopiesDangle(c, w);
    OnlyCopiesDangle(c, w');
    if NoV2View(c, w'.db) { UnlistedStay(c, w, w'.(log := log)); }
  }

  method TearDownAndRecord(o: Orchestrator) returns (ok: bool)
    requires o.Ok()
    modifies o`db, o`log, o`now, o`script, o`book
    ensures o.Ok()
    ensures old(o.log) != [] && Last(old(o.log)).phase == CutOver ==> !ok && Calm(old(o.W()), o.W())
    ensures Dropped(old(o.W()), o.W().(log := old(o.log)), V2Names(o.C()), iset{o.spec.V2Table()})
    ensures o.log == old(o.log) || o.log == old(o.log) + [Record(o.spec.hash, Aborted, Done, "", "")]
    ensures o.log != old(o.log) ==> NoV2View(o.C(), o.db) && !HasV2(o.C(), o.W())
    ensures ok ==> NoV2View(o.C(), o.db) && !HasV2(o.C(), o.W())
    ensures old(HasV2(o.C(), o.W())) && !HasV2(o.C(), o.W()) ==> NoV2View(o.C(), o.db)
    ensures old(o.Smooth()) && !(old(o.log) != [] && Last(old(o.log)).phase == CutOver) ==>
      ok && o.Quietly() &&
      o.log == old(o.log) + [Record(o.spec.hash, Aborted, Done, "", "")]
  {
    ghost var w0 := o.W();
    ghost var names, gone := V2Names(o.C()), iset{o.spec.V2Table()};
    var recs;
    ok, recs := o.Records();
    CalmIsDropped(o.C(), w0, o.W(), names, gone);
    if !ok {
      return;
    }
    if recs != [] && Last(recs).phase == CutOver {
      return false;
    }
    ghost var w := o.W();
    ok := TearDown(o);
    DroppedTransitive(w0, w, o.W(), names, gone);
    if !ok {
      return;
    }
    w := o.W();
    RecordAbort(o);
    DroppedTransitive(w0, w, o.W().(log := w.log), names, gone);
  }

  lemma DroppedMore(w: World, w': World, names: iset<string>, gone: iset<string>,
                    names': iset<string>, gone': iset<string>)
    requires Dropped(w, w', names, gone) && names <= names' && gone <= gone'
    ensures Dropped(w, w', names', gone')
  {
  }

  // ---------- cutover ----------

  ghost function FeedNames(c: Setting): iset<string> { iset n | c.Listed(n) || CopyName(c.spec.mvs, n) }

  ghost predicate NoListedView(c: Setting, db: Db) {
    forall m :: c.Listed(m) ==> m !in db.views
  }

  ghost predicate LiveIn(c: Setting, db: Db, m: string) {
    m in c.defs && m in db.views && db.views[m] == c.Live(m)
  }

  ghost predicate AllLive(c: Setting, db: Db) {
    forall m :: c.Listed(m) ==> LiveIn(c, db, m)
  }

  /** The swap took place between w and w': the old target is the backup, v2 the target. */
  ghost predicate Swapped(c: Setting, w: World, w': World, backup: string) {
    && c.spec.targetTable in w.db.tables && HasV2(c, w) && backup !in w.db.tables
    && !HasV2(c, w') && c.spec.targetTable in w'.db.tables && backup in w'.db.tables
    && w.db.tables[c.spec.targetTable] <= w'.db.tables[backup]
    && w.db.tables[c.V2()] <= w'.db.tables[c.spec.targetTable]
    && (w.book.arrived == w'.book.arrived ==>
          && w'.db.sources == w.db.sources
          && w'.db.tables[backup] == w.db.tables[c.spec.targetTable]
          && w'.db.tables[c.spec.targetTable] == w.db.tables[c.V2()])
  }

  /** At every moment of a cutover both tables' contents exist: before the swap under their
      old names, after it under the new ones; views that feed neither are untouched. */
  ghost predicate MidCutover(c: Setting, w: World, w': World, backup: string) {
    && ViewsKept(w, w', FeedNames(c)) && SourcesGrow(w, w') && w'.log == w.log
    && w'.db.columns == w.db.columns && w'.db.tables.Keys <= w.db.tables.Keys + {backup}
    && (forall n :: n in w'.db.views ==> (n in w.db.views && w'.db.views[n] == w.db.views[n]) || c.Listed(n))
    && w.book.arrived <= w'.book.arrived && w'.book.build == w.book.build
    && TablesKept(w, w', iset{c.spec.targetTable, c.V2()})
    && (TablesKept(w, w', iset{}) || Swapped(c, w, w', backup))
  }

  ghost predicate PastSwap(c: Setting, w: World, w': World, backup: string) {
    MidCutover(c, w, w', backup) && Swapped(c, w, w', backup)
  }

  /** The atomic RENAME.  It is reached only with every listed view and its copy gone. */
  method Swap(o: Orchestrator, backup: string) returns (ok: bool, ghost mid: World)
    requires o.Ok() && NoListedView(o.C(), o.db) && NoV2View(o.C(), o.db)
    modifies o`db, o`now, o`script, o`book
    ensures o.Ok() && NoListedView(o.C(), o.db) && NoV2View(o.C(), o.db)
    ensures Calm(old(o.W()), mid) && o.book == mid.book && o.log == old(o.log)
    ensures o.W() == mid ||
      (CanRename(mid.db, o.spec.targetTable, o.spec.V2Table(), backup) &&
       o.db == Rename(mid.db, o.spec.targetTable, o.spec.V2Table(), backup))
    ensures ok ==>
      CanRename(mid.db, o.spec.targetTable, o.spec.V2Table(), backup) &&
      o.db == Rename(mid.db, o.spec.targetTable, o.spec.V2Table(), backup)
    ensures old(o.Smooth()) ==> o.Quietly()
    ensures old(o.Smooth()) ==> (ok <==> CanRename(old(o.db), o.spec.targetTable, o.spec.V2Table(), backup))
  {
    var outcome, _ := o.Interleave(Plain);
    mid := o.W();
    if !CanRename(o.db, o.spec.targetTable, o.spec.V2Table(), backup) {
      return false, mid;
    }
    if !outcome.Lost? {
      o.db := Rename(o.db, o.spec.targetTable, o.spec.V2Table(), backup);
      RenameKeepsInv(o.C(), mid, backup);
    }
    ok := outcome.Applied?;
  }

  lemma SwapSwaps(c: Setting, w: World, mid: World, w': World, backup: string)
    requires Dropped(w, mid, FeedNames(c), iset{}) && CanRename(mid.db, c.spec.targetTable, c.V2(), backup)
    requires w' == mid.(db := Rename(mid.db, c.spec.targetTable, c.V2(), backup))
    requires backup != c.spec.targetTable && backup != c.V2() && c.spec.targetTable != c.V2()
    ensures MidCutover(c, w, w', backup) && Swapped(c, w, w', backup)
  {
  }

  lemma DroppedIsMid(c: Setting, w: World, w': World, backup: string)
    requires Dropped(w, w', FeedNames(c), iset{})
    ensures MidCutover(c, w, w', backup)
  {
  }

  lemma CalmKeepsMid(c: Setting, w0: World, w: World, w': World, backup: string)
    requires MidCutover(c, w0, w, backup) && Calm(w, w')
    ensures MidCutover(c, w0, w', backup)
    ensures Swapped(c, w0, w, backup) ==> Swapped(c, w0, w', backup)
  {
    forall t | t in w.db.tables
      ensures t in w'.db.tables && w.db.tables[t] <= w'.db.tables[t]
    {
      assert TableGrows(w, w', t);
    }
    forall s | s in w0.db.sources
      ensures s in w'.db.sources && w0.db.sources[s] <= w'.db.sources[s]
    {
      assert w0.db.sources[s] <= w.db.sources[s] && SourceGrows(w, w', s);
    }
  }

  lemma RecreateKeepsMid(c: Setting, w0: World, w: World, m: string, backup: string)
    requires MidCutover(c, w0, w, backup) && c.Listed(m) && m in c.defs
    ensures MidCutover(c, w0, WithDb(w, CreateView(w.db, m, c.Live(m))), backup)
    ensures Swapped(c, w0, w, backup) ==> Swapped(c, w0, WithDb(w, CreateView(w.db, m, c.Live(m))), backup)
  {
  }

  method SwapSince(o: Orchestrator, backup: string, ghost w0: World) returns (ok: bool)
    requires o.Ok() && NoListedView(o.C(), o.db) && NoV2View(o.C(), o.db)
    requires Dropped(w0, o.W(), FeedNames(o.C()), iset{})
    requires backup != o.spec.targetTable && backup != o.spec.V2Table()
    modifies o`db, o`now, o`script, o`book
    ensures o.Ok() && NoListedView(o.C(), o.db) && NoV2View(o.C(), o.db)
    ensures MidCutover(o.C(), w0, o.W(), backup)
    ensures ok ==> PastSwap(o.C(), w0, o.W(), backup)
    ensures ok ==> CanRename(w0.db, o.spec.targetTable, o.spec.V2Table(), backup)
    ensures old(o.Smooth()) ==> o.Quietly()
    ensures old(o.Smooth() && o.book.arrived == w0.book.arrived) ==>
      (ok <==> CanRename(w0.db, o.spec.targetTable, o.spec.V2Table(), backup))
  {
    ghost var w, mid := o.W(), o.W();
    ok, mid := Swap(o, backup);
    CalmIsDropped(o.C(), w, mid, FeedNames(o.C()), iset{});
    DroppedTransitive(w0, w, mid, FeedNames(o.C()), iset{});
    DroppedIsMid(o.C(), w0, mid, backup);
    if o.W() != mid { SwapSwaps(o.C(), w0, mid, o.W(), backup); }
  }

  method RecreateOne(o: Orchestrator, m: MV, ghost w0: World, ghost backup: string) returns (ok: bool)
    requires o.Ok() && o.IsOwn(m)
    requires PastSwap(o.C(), w0, o.W(), backup)
    modifies o`db, o`now, o`script, o`book
    ensures o.Ok() && PastSwap(o.C(), w0, o.W(), backup)
    ensures ok ==> o.db.views == old(o.db.views)[m.name := o.C().Live(m.name)]
    ensures forall n :: n in o.db.views ==> n in old(o.db.views) || n == m.name
    ensures old(o.Smooth()) ==> o.Quietly()
    ensures old(o.Smooth()) ==> (ok <==> m.name !in old(o.db.views))
  {
    ghost var w := o.W();
    var outcome, _ := o.Interleave(Plain);
    ghost var mid := o.W();
    CalmKeepsMid(o.C(), w0, w, mid, backup);
    if m.name in o.db.views {
      return false;
    }
    if !outcome.Lost? {
      InvParts(o.C(), mid);
      o.db := CreateView(o.db, m.name, View(m, m.target, None));
      RecreateKeepsInv(o.C(), mid, m.name);
      RecreateKeepsMid(o.C(), w0, mid, m.name, backup);
    }
    ok := outcome.Applied?;
  }

  ghost predicate LiveUpTo(c: Setting, db: Db, i: nat)
    requires i <= |c.spec.mvs|
  {
    forall j :: 0 <= j < i ==> LiveIn(c, db, c.spec.mvs[j])
  }

  lemma LiveOneMore(c: Setting, db: Db, db': Db, i: nat)
    requires i < |c.spec.mvs| && c.spec.mvs[i] in c.defs && LiveUpTo(c, db, i)
    requires db'.views == db.views[c.spec.mvs[i] := c.Live(c.spec.mvs[i])]
    ensures LiveUpTo(c, db', i + 1)
  {
    forall j | 0 <= j < i + 1
      ensures LiveIn(c, db', c.spec.mvs[j])
    {
      if j < i { assert LiveIn(c, db, c.spec.mvs[j]); }
    }
  }

  /** CREATE MATERIALIZED VIEW from each definition, feeding the swapped-in target. */
  method Recreate(o: Orchestrator, mvs: seq<MV>, ghost w0: World, ghost backup: string) returns (ok: bool)
    requires o.Ok() && o.Loaded(mvs)
    requires PastSwap(o.C(), w0, o.W(), backup)
    modifies o`db, o`now, o`script, o`book
    ensures o.Ok() && PastSwap(o.C(), w0, o.W(), backup)
    ensures ok ==> AllLive(o.C(), o.db)
    ensures forall n :: n in o.db.views ==> n in old(o.db.views) || o.C().Listed(n)
    ensures old(o.Smooth()) ==> o.Quietly()
    ensures old(o.Smooth()) && o.Distinct(o.spec.mvs) && NoListedView(o.C(), old(o.db)) ==> ok
  {
    var i := 0;
    while i < |mvs|
      invariant 0 <= i <= |mvs|
      invariant o.Ok() && PastSwap(o.C(), w0, o.W(), backup)
      invariant LiveUpTo(o.C(), o.db, i)
      invariant old(o.Smooth()) ==> o.Quietly()
      invariant NoListedView(o.C(), old(o.db)) ==>
        forall n :: n in o.db.views && o.C().Listed(n) ==> n in o.spec.mvs[..i]
      invariant forall n :: n in o.db.views ==> n in old(o.db.views) || o.C().Listed(n)
    {
      o.ListedName(mvs, i);
      ghost var before := o.db;
      ok := RecreateOne(o, mvs[i], w0, backup);
      if !ok {
        return;
      }
      LiveOneMore(o.C(), before, o.db, i);
      i := i + 1;
    }
    ok := true;
  }

  /** A failure to record the cutover is ignored. */
  method RecordCutover(o: Orchestrator, backup: string)
    requires o.Ok() && o.log != [] && Last(o.log).phase == Validated && !HasV2(o.C(), o.W())
    modifies o`db, o`log, o`now, o`script, o`book
    ensures o.Ok() && Calm(old(o.W()), o.W().(log := old(o.log)))
    ensures o.log == old(o.log) || o.log == old(o.log) + [CutoverRecord(o.spec, backup)]
    ensures old(o.Idle(Step.CutoverRecord)) ==>
      o.Quietly() &&
      o.log == old(o.log) + [CutoverRecord(o.spec, backup)]
    ensures old(RecordLost(o)) ==>
      o.script == old(o.script)[1..] && o.log == old(o.log) && o.book.arrived == old(o.book.arrived)
  {
    var r := CutoverRecord(o.spec, backup);
    assert r.detail[0] == 'b';
    BoundaryAppend(o.log, r);
    CompletedAppend(o.log, r);
    ghost var mid := o.W();
    var _, mid' := o.Append(r);
  }

  function CutoverRecord(spec: Spec, backup: string): Record {
    Record(spec.hash, CutOver, Done, "", "backup=" + backup)
  }

  /** The script loses the next cutover record and nothing else. */
  ghost predicate RecordLost(o: Orchestrator)
    reads o`script
  {
    o.script != [] && o.script[0].at == Step.CutoverRecord && o.script[0].inserts == [] && o.script[0].outcome.Lost?
  }

  /** Guard, phase and definitions; nothing is changed. */
  method Gate(o: Orchestrator, guard: bool) returns (ok: bool, mvs: seq<MV>)
    requires o.Ok()
    modifies o`db, o`now, o`script, o`book
    ensures o.Ok() && Calm(old(o.W()), o.W())
    ensures ok ==> guard && o.log != [] && Last(o.log).phase == Validated && o.Loaded(mvs)
    ensures ok ==> o.Available()
    ensures old(o.Smooth()) ==> o.Quietly()
    ensures old(o.Smooth() && o.Available()) && guard && old(o.log) != [] && Last(old(o.log)).phase == Validated ==> ok
  {
    mvs := [];
    CalmReflexive(o.W());
    if !guard {
      return false, mvs;
    }
    var recs;
    ok, recs := o.Records();
    if !ok || recs == [] || Last(recs).phase != Validated {
      return false, mvs;
    }
    ghost var w := o.W();
    ok, mvs := o.LoadMVs();
    CalmTransitive(old(o.W()), w, o.W());
  }

  lemma ArmedNamesFeed(c: Setting)
    ensures forall n :: n in ArmedNames(c.spec.mvs) ==> n in FeedNames(c)
  {
    forall n | n in ArmedNames(c.spec.mvs)
      ensures n in FeedNames(c)
    {
      var i :| 0 <= i < |c.spec.mvs| && ArmedNames(c.spec.mvs)[i] == n;
      assert c.Listed(c.spec.mvs[i]);
    }
  }

  /** Drop the live views, then the armed copies. */
  method DropAll(o: Orchestrator) returns (ok: bool)
    requires o.Ok()
    modifies o`db, o`now, o`script, o`book
    ensures o.Ok() && Dropped(old(o.W()), o.W(), FeedNames(o.C()), iset{})
    ensures ok ==> NoListedView(o.C(), o.db) && NoV2View(o.C(), o.db)
    ensures old(o.Smooth()) ==> o.Quietly() && ok
  {
    ghost var names := FeedNames(o.C());
    ok := DropViews(o, o.spec.mvs, names);
    if !ok {
      return;
    }
    ghost var w := o.W();
    ArmedNamesFeed(o.C());
    ok := DropViews(o, ArmedNames(o.spec.mvs), names);
    DroppedTransitive(old(o.W()), w, o.W(), names, iset{});
    if ok { ArmedNamesCover(o.C(), o.db); }
  }

  // ---------- the target after a swap ----------

  /** The target counts every source event once per listed view and will go on doing so. */
  ghost predicate LiveExact(c: Setting, w: World) {
    && c.Sound() && AllGrounded(c.defs, w.db) && TargetIs(c, w, c.defs)
    && AllLive(c, w.db) && OnlyListedFeed(c, w.db)
  }

  /** The target counts every source event once per listed view as defined in defs. */
  ghost predicate TargetIs(c: Setting, w: World, defs: map<string, MV>) {
    c.spec.targetTable in w.db.tables && w.db.tables[c.spec.targetTable] == Truth(c, defs, w.db, defs.Keys, All)
  }

  ghost predicate OnlyListedFeed(c: Setting, db: Db) {
    forall n :: n in db.views && db.views[n].target == c.spec.targetTable ==> c.Listed(n)
  }

  lemma TruthFrame(c: Setting, defs: map<string, MV>, db: Db, db': Db)
    requires db.sources == db'.sources
    ensures Truth(c, defs, db, defs.Keys, All) == Truth(c, defs, db', defs.Keys, All)
  {
    forall r: Row
      ensures Truth(c, defs, db, defs.Keys, All)[r] == Truth(c, defs, db', defs.Keys, All)[r]
    {
      assert Occurs(defs, db, r.mv, r.event) == Occurs(defs, db', r.mv, r.event);
    }
  }

  lemma OthersKept(c: Setting, w: World, w': World)
    requires ViewsKept(w, w', FeedNames(c)) && NoV2View(c, w'.db)
    requires forall n :: n in w'.db.views ==> (n in w.db.views && w'.db.views[n] == w.db.views[n]) || c.Listed(n)
    ensures forall n :: n in w'.db.views && !c.Listed(n) ==> n in w.db.views && w'.db.views[n] == w.db.views[n]
  {
  }

  /** No insert arrived between w and w', and no view but the listed ones fed the target. */
  ghost predicate WritersStopped(c: Setting, w: World, w': World) {
    OnlyListedFeed(c, w.db) && w'.book.arrived == w.book.arrived
  }

  /** Is v2 built from the definitions that this process would recreate? */
  ghost predicate SameDefs(c: Setting, w: World) { w.Defs() == c.defs }

  /** Cutting over an exact v2 with the writers stopped: the target counts by the definitions v2
      was built from, and is exact for good if those are the recreated ones. */
  lemma CutoverIsExact(c: Setting, w: World, w': World, backup: string)
    requires Inv(c, w) && Exact(c, w) && MidCutover(c, w, w'.(log := w.log), backup)
    requires Swapped(c, w, w', backup) && WritersStopped(c, w, w')
    requires AllLive(c, w'.db) && NoV2View(c, w'.db)
    ensures TargetIs(c, w', w.Defs()) && w'.db.tables[backup] == w.db.tables[c.spec.targetTable]
    ensures SameDefs(c, w) ==> LiveExact(c, w')
  {
    InvParts(c, w);
    TruthFrame(c, w.Defs(), w.db, w'.db);
    OthersKept(c, w, w');
    if SameDefs(c, w) {
      forall m | m in c.defs ensures Grounded(c.defs, w'.db, m) { assert Grounded(w.Defs(), w.db, m); }
    }
  }

  /** A process whose hash is that of the validated record has the definitions v2 was built from,
      as far as it lists them. */
  lemma ValidatedIsMine(c: Setting, w: World)
    requires Inv(c, w) && HasV2(c, w) && w.log != [] && Last(w.log).phase == Validated
    requires Last(w.log).hash == c.spec.hash
    ensures Bounded(w) && SameDefsIfListed(c, w)
  {
    InvParts(c, w);
    ShapeAt(w.log, |w.log| - 1);
    var init := w.log[..|w.log| - 1];
    var k := EpochWitness(init, DualWrite, BoundarySet);
    assert init[k] == w.log[k];
    forall j | k < j < |w.log| ensures w.log[j].phase != Aborted {
      if j < |init| { assert init[j] == w.log[j]; }
    }
    BoundarySetGivesBoundary(w.log, k);
    if w.Defs().Keys == Names(c) {
      forall m | m in c.defs ensures w.Defs()[m] == c.defs[m] { assert AgreesAt(c, w.Defs(), m); }
    }
  }

  /** Can a cutover go through if nothing fails? */
  ghost predicate Swappable(o: Orchestrator, guard: bool, day: string)
    reads o
  {
    && guard && o.log != [] && Last(o.log).phase == Validated
    && o.Available() && o.Distinct(o.spec.mvs)
    && CanRename(o.db, o.spec.targetTable, o.spec.V2Table(), o.spec.BackupTable(day))
  }

  /** What a finished swap means for the target. */
  ghost predicate ExactAfter(c: Setting, w: World, w': World) {
    Exact(c, w) && WritersStopped(c, w, w') ==>
      TargetIs(c, w', w.Defs()) && (SameDefs(c, w) ==> LiveExact(c, w'))
  }

  method Complete(o: Orchestrator, mvs: seq<MV>, ghost w0: World, backup: string) returns (ok: bool)
    requires o.Ok() && o.Loaded(mvs) && o.log != [] && Last(o.log).phase == Validated
    requires Inv(o.C(), w0) && PastSwap(o.C(), w0, o.W(), backup) && NoV2View(o.C(), o.db)
    modifies o`db, o`log, o`now, o`script, o`book
    ensures o.Ok() && MidCutover(o.C(), w0, o.W().(log := old(o.log)), backup) && NoV2View(o.C(), o.db)
    ensures ok ==> Swapped(o.C(), w0, o.W(), backup) && AllLive(o.C(), o.db)
    ensures ok ==> ExactAfter(o.C(), w0, o.W())
    ensures o.log == old(o.log) || o.log == old(o.log) + [CutoverRecord(o.spec, backup)]
    ensures old(o.Smooth() && NoListedView(o.C(), o.db)) && o.Distinct(o.spec.mvs) ==>
      ok && (old(o.Idle(Step.CutoverRecord)) ==>
        o.Quietly() &&
        o.log == old(o.log) + [CutoverRecord(o.spec, backup)])
    ensures old(RecordLost(o) && NoListedView(o.C(), o.db)) && o.Distinct(o.spec.mvs) ==>
      ok && o.script == old(o.script)[1..] && o.log == old(o.log)
  {
    ok := Recreate(o, mvs, w0, backup);
    StillNoV2View(o.C(), o.W(), old(o.db));
    if !ok {
      return;
    }
    RecordSwap(o, w0, backup);
  }

  lemma StillNoV2View(c: Setting, w: World, db: Db)
    requires Inv(c, w) && NoV2View(c, db) && forall n :: n in w.db.views ==> n in db.views || c.Listed(n)
    ensures NoV2View(c, w.db)
  {
    InvParts(c, w);
    forall m | c.Listed(m) ensures V2Name(m) !in w.db.views {
      assert m in Names(c) && (c.Listed(V2Name(m)) <==> V2Name(m) in Names(c));
      assert c.ApartAt(V2Name(m), m);
    }
  }

  method RecordSwap(o: Orchestrator, ghost w0: World, backup: string)
    requires o.Ok() && o.log != [] && Last(o.log).phase == Validated && AllLive(o.C(), o.db)
    requires Inv(o.C(), w0) && PastSwap(o.C(), w0, o.W(), backup) && NoV2View(o.C(), o.db)
    modifies o`db, o`log, o`now, o`script, o`book
    ensures o.Ok() && MidCutover(o.C(), w0, o.W().(log := old(o.log)), backup)
    ensures Swapped(o.C(), w0, o.W(), backup) && AllLive(o.C(), o.db) && NoV2View(o.C(), o.db)
    ensures ExactAfter(o.C(), w0, o.W())
    ensures o.log == old(o.log) || o.log == old(o.log) + [CutoverRecord(o.spec, backup)]
    ensures old(o.Idle(Step.CutoverRecord)) ==>
      o.Quietly() &&
      o.log == old(o.log) + [CutoverRecord(o.spec, backup)]
    ensures old(RecordLost(o)) ==> o.script == old(o.script)[1..] && o.log == old(o.log)
  {
    ghost var w := o.W();
    RecordCutover(o, backup);
    CalmKeepsMid(o.C(), w0, w, o.W().(log := w.log), backup);
    AfterSwap(o.C(), w0, o.W(), w.log, backup);
  }

  lemma AfterSwap(c: Setting, w0: World, w: World, log: seq<Record>, backup: string)
    requires Inv(c, w0) && MidCutover(c, w0, w.(log := log), backup) && Swapped(c, w0, w.(log := log), backup)
    requires AllLive(c, w.db) && NoV2View(c, w.db)
    ensures Swapped(c, w0, w, backup) && ExactAfter(c, w0, w)
  {
    if Exact(c, w0) && WritersStopped(c, w0, w) {
      CutoverIsExact(c, w0, w, backup);
    }
  }

  /** The swap.  The gate, the order of statements and the refusal to proceed past an error
      are what the contract rests on; swapping says whether the RENAME was reached.  The gate
      looks neither at the hash nor at the list: the recreated views are this process's, those the
      validated table was built from if hash and list are the same; and a copy that the spec does
      not list is left behind without its table. */
  method Cutover(o: Orchestrator, guard: bool, day: string) returns (ok: bool, ghost swapping: bool)
    requires o.Ok()
    modifies o`db, o`log, o`now, o`script, o`book
    ensures o.Ok() && o.book.build == old(o.book.build)
    ensures MidCutover(o.C(), old(o.W()), o.W().(log := old(o.log)), o.spec.BackupTable(day))
    ensures !guard || old(o.log) == [] || Last(old(o.log)).phase != Validated ==>
      !ok && !swapping && Calm(old(o.W()), o.W())
    ensures !old(o.Available()) ==> !ok && !swapping && Calm(old(o.W()), o.W())
    ensures ok ==> Swapped(o.C(), old(o.W()), o.W(), o.spec.BackupTable(day))
    ensures ok ==> AllLive(o.C(), o.db) && NoV2View(o.C(), o.db) && ExactAfter(o.C(), old(o.W()), o.W())
    ensures ok && Last(old(o.log)).hash == o.spec.hash ==> old(SameDefsIfListed(o.C(), o.W()))
    ensures ok ==> (NoDangling(o.db) <==> Unlisted(o.C(), old(o.db)) == {})
    ensures LeftBehind(o.C(), old(o.W()), o.W())
    ensures swapping && !CanRename(old(o.db), o.spec.targetTable, o.spec.V2Table(), o.spec.BackupTable(day)) ==>
      !ok && NoListedView(o.C(), o.db)
    ensures o.log == old(o.log) || o.log == old(o.log) + [CutoverRecord(o.spec, o.spec.BackupTable(day))]
    ensures old(o.Smooth() && o.Available()) && guard && old(o.log) != [] && Last(old(o.log)).phase == Validated ==>
      swapping
    ensures old(o.Smooth() && o.Idle(Step.CutoverRecord) && Swappable(o, guard, day)) ==>
      ok && o.Quietly() &&
      o.log == old(o.log) + [CutoverRecord(o.spec, o.spec.BackupTable(day))]
    ensures old(RecordLost(o) && Swappable(o, guard, day)) ==>
      ok && o.script == old(o.script)[1..] && o.log == old(o.log)
  {
    ghost var w0 := o.W();
    var backup := o.spec.BackupTable(day);
    var mvs;
    ok, mvs := Gate(o, guard);
    swapping := false;
    CalmIsDropped(o.C(), w0, o.W(), FeedNames(o.C()), iset{});
    DroppedIsMid(o.C(), w0, o.W(), backup);
    if ok {
      ghost var w := o.W();
      ok := DropAll(o);
      swapping := ok;
      DroppedTransitive(w0, w, o.W(), FeedNames(o.C()), iset{});
      DroppedIsMid(o.C(), w0, o.W(), backup);
    }
    if ok {
      ok := SwapSince(o, backup, w0);
    }
    if ok {
      if Last(w0.log).hash == o.spec.hash { ValidatedIsMine(o.C(), w0); }
      ok := Complete(o, mvs, w0, backup);
    }
    MidDangling(o.C(), w0, o.W(), w0.log, backup);
  }

  /** When the v2 table goes, the copies that the spec does not list stay, and no others; so
      wherever the operation ends, no view is dangling if none was and all copies are listed. */
  ghost predicate LeftBehind(c: Setting, w: World, w': World) {
    && (HasV2(c, w) && !HasV2(c, w') ==> Feeders(c, w'.db) == Unlisted(c, w.db))
    && (NoDangling(w.db) && Unlisted(c, w.db) == {} ==> NoDangling(w'.db))
  }

  /** c has the definitions v2 was built from as far as it lists them, so all of them if the list
      is the same. */
  ghost predicate SameDefsIfListed(c: Setting, w: World) {
    Agreed(c, w) && (w.Defs().Keys == Names(c) ==> SameDefs(c, w))
  }

  /** As at an abort: the copies left without their table are those the spec does not list. */
  lemma MidDangling(c: Setting, w: World, w': World, log: seq<Record>, backup: string)
    requires Inv(c, w) && Inv(c, w') && MidCutover(c, w, w'.(log := log), backup)
    requires HasV2(c, w) && !HasV2(c, w') ==> NoV2View(c, w'.db)
    ensures HasV2(c, w) && !HasV2(c, w') ==> (NoDangling(w'.db) <==> Unlisted(c, w.db) == {})
    ensures LeftBehind(c, w, w')
  {
    OnlyCopiesDangle(c, w);
    OnlyCopiesDangle(c, w');
    ListedFeedTarget(c, w);
    ListedFeedTarget(c, w');
    if NoV2View(c, w'.db) { UnlistedSurvive(c, w, w'.(log := log)); }
  }

  lemma ListedFeedTarget(c: Setting, w: World)
    requires Inv(c, w)
    ensures forall n :: c.Listed(n) ==> n !in Feeders(c, w.db)
  {
    InvParts(c, w);
    forall n | c.Listed(n) ensures n !in Feeders(c, w.db) { assert n in Names(c) && LiveAt(c, w, n); }
  }

  lemma UnlistedSurvive(c: Setting, w: World, w': World)
    requires ViewsKept(w, w', FeedNames(c)) && NoV2View(c, w'.db)
    requires forall n :: n in w'.db.views ==> (n in w.db.views && w'.db.views[n] == w.db.views[n]) || c.Listed(n)
    requires forall n :: c.Listed(n) ==> n !in Feeders(c, w.db) && n !in Feeders(c, w'.db)
    ensures Feeders(c, w'.db) == Unlisted(c, w.db)
  {
    forall n | n in Feeders(c, w'.db)
      ensures n in Unlisted(c, w.db)
    {
      if m :| m in c.spec.mvs && n == V2Name(m) { assert c.Listed(m); }
    }
    forall n | n in Unlisted(c, w.db)
      ensures n in Feeders(c, w'.db)
    {
      assert n !in FeedNames(c);
    }
  }

  /** A cutover ignores a failure to record it.  Then it can be asked for again, and that second
      one, with nothing else failing, drops the live views and fails at the RENAME. */
  method CutoverTwice(o: Orchestrator, day: string, later: string) returns (first: bool, second: bool)
    requires o.Ok()
    modifies o`db, o`log, o`now, o`script, o`book
    ensures o.Ok()
    ensures old(RecordLost(o) && |o.script| == 1 && Swappable(o, true, day)) ==>
      first && !second && NoListedView(o.C(), o.db)
  {
    ghost var swapping;
    first, swapping := Cutover(o, true, day);
    second, swapping := Cutover(o, true, later);
  }

  // ---------- after a cutover ----------

  lemma LiveFires(c: Setting, w: World, source: string, batch: seq<Event>, r: Row)
    requires LiveExact(c, w)
    ensures Fired(c.hash, w.db.views, w.db.views.Keys, c.spec.targetTable, source, batch)[r]
         == if c.Listed(r.mv) && r.mv in c.defs && c.defs[r.mv].source == source then multiset(batch)[r.event] else 0
  {
    var target := c.spec.targetTable;
    forall k | k in w.db.views.Keys && k != r.mv
      ensures w.db.views[k].def.name != r.mv || w.db.views[k].target != target
    {
      if w.db.views[k].target == target { assert LiveIn(c, w.db, k) && c.Proper(k, c.defs[k]); }
    }
    if c.Listed(r.mv) {
      assert LiveIn(c, w.db, r.mv) && c.Proper(r.mv, c.defs[r.mv]);
      FiredOne(c.hash, w.db.views, w.db.views.Keys, r.mv, r, target, source, batch);
    } else {
      FiredNone(c.hash, w.db.views, w.db.views.Keys, r, target, source, batch);
    }
  }

  lemma OccursAfterArrival(c: Setting, w: World, source: string, batch: seq<Event>, m: string, e: Event)
    requires !Refuses(w.db, source)
    ensures Occurs(c.defs, AfterArrival(c, w, source, batch).db, m, e)
         == Occurs(c.defs, w.db, m, e) +
            (if m in c.defs && c.defs[m].source == source then multiset(batch)[e] else 0)
  {
  }

  /** Every later insert keeps the target exact. */
  lemma InsertKeepsLiveExact(c: Setting, w: World, source: string, batch: seq<Event>)
    requires LiveExact(c, w)
    ensures LiveExact(c, AfterArrival(c, w, source, batch))
  {
    var w' := AfterArrival(c, w, source, batch);
    if !Refuses(w.db, source) {
      forall m | m in c.defs ensures Grounded(c.defs, w'.db, m) { assert Grounded(c.defs, w.db, m); }
      forall m | c.Listed(m) ensures LiveIn(c, w'.db, m) { assert LiveIn(c, w.db, m); }
      forall r: Row
        ensures w'.db.tables[c.spec.targetTable][r] == Truth(c, c.defs, w'.db, c.defs.Keys, All)[r]
      {
        LiveFires(c, w, source, batch, r);
        OccursAfterArrival(c, w, source, batch, r.mv, r.event);
      }
    }
  }

  ghost function AfterArrivals(c: Setting, w: World, inserts: seq<(string, seq<Event>)>): World
    decreases |inserts|
  {
    if inserts == [] then w
    else AfterArrivals(c, AfterArrival(c, w, inserts[0].0, inserts[0].1), inserts[1..])
  }

  lemma {:induction false} ExactForever(c: Setting, w: World, inserts: seq<(string, seq<Event>)>)
    requires LiveExact(c, w)
    ensures LiveExact(c, AfterArrivals(c, w, inserts))
    decreases |inserts|
  {
    if inserts != [] {
      InsertKeepsLiveExact(c, w, inserts[0].0, inserts[0].1);
      ExactForever(c, AfterArrival(c, w, inserts[0].0, inserts[0].1), inserts[1..]);
    }
  }

  // ---------- a whole rebuild ----------

  /** No v2 table yet and no copy that would not fit it, no chunk on record, and a usable list. */
  ghost predicate FirstRun(o: Orchestrator)
    reads o
  {
    !HasV2(o.C(), o.W()) && Completed(o.log) == {} && o.C().Keyed() && CopiesFit(o.C(), o.W(), o.defs)
  }

  /** A well-behaved environment, in terms an operator can measure: no event is dated ahead of
      the clock, the copies were armed before T, no event came later than the poll interval, and
      the bucket limit is usable. */
  ghost predicate Prompt(w: World, cfg: Config, poll: nat) {
    && Bounded(w) && !w.book.pace.ahead && w.book.armed.Some? && w.book.armed.value < T(w)
    && w.book.pace.lag <= poll && cfg.maxBuckets >= 1
  }

  /** Besides, no chunk's record was lost. */
  ghost predicate Faultless(w: World, cfg: Config, poll: nat) {
    Prompt(w, cfg, poll) && w.book.torn == multiset{}
  }

  /** In such an environment a first run that finishes leaves an exact v2; in any other, v2 is
      exact if and only if nothing was missed, unless a row was late. */
  lemma FirstRunIsExact(c: Setting, w0: World, w: World, cfg: Config, poll: nat)
    requires Inv(c, w) && !HasV2(c, w0) && Completed(w0.log) == {} && c.Keyed() && CopiesFit(c, w0, c.defs)
    requires Ran(c, w0, w, cfg, true) && cfg.maxBuckets >= 1 && w.book.pace.grace >= poll
    ensures !w.book.late ==> Finished(c, w) && (Exact(c, w) <==> w.book.missed == multiset{})
    ensures Prompt(w, cfg, poll) ==> !w.book.late && Exact(c, w)
    ensures !w.book.late && w.book.arrived == w0.book.arrived ==> (Exact(c, w) <==> NothingAhead(w))
  {
    InvParts(c, w);
    if w.book.pace.lag <= w.book.pace.grace { PunctualIsNotLate(c, w); }
    if !w.book.late {
      FirstRunIsExactIff(c, w, cfg);
      ResumedIsFinished(c, w, [], {}, cfg);
    }
    if w.book.arrived == w0.book.arrived { MissedIffAhead(c, w); }
  }

  /** No source of v2 has an event from T on. */
  ghost predicate NothingAhead(w: World) {
    forall m, e: Event :: Bounded(w) && Seen(w, m, e) > 0 ==> e.time < T(w)
  }

  lemma MissedIffAhead(c: Setting, w: World)
    requires Inv(c, w) && Tracked(c, w) && Bounded(w) && AheadIsMissed(w)
    ensures w.book.missed == multiset{} <==> NothingAhead(w)
  {
    InvParts(c, w);
    if NothingAhead(w) {
      forall r: Row ensures w.book.missed[r] == 0 {
        assert RowAt(c, w, r);
        if r.mv in w.Defs() && r.event.time >= T(w) { assert w.book.missed[r] == Seen(w, r.mv, r.event); }
      }
    } else {
      var m, e: Event :| Seen(w, m, e) > 0 && e.time >= T(w);
      assert w.book.missed[Row(m, e)] == Seen(w, m, e);
    }
  }

  // ---------- any number of attempts ----------

  /** What attempts with one spec and one tuning leave, each of them begun on what the last one
      left: either there is no table yet, or one of this spec's with nothing carried over. */
  ghost predicate Underway(c: Setting, w: World, cfg: Config, poll: nat) {
    && c.Keyed()
    && if HasV2(c, w) then
         && Tracked(c, w) && w.book.keyed && w.Defs() == c.defs && w.book.base == {} && !w.book.retuned
         && (w.book.tuning == None || w.book.tuning == Some(cfg))
         && (w.book.drained ==> w.book.pace.grace >= poll)
       else Completed(w.log) == {} && CopiesFit(c, w, c.defs)
  }

  lemma StillUnderway(c: Setting, w0: World, w: World, cfg: Config, poll: nat, filled: bool)
    requires Inv(c, w0) && Inv(c, w) && Underway(c, w0, cfg, poll) && Ran(c, w0, w, cfg, filled)
    requires Bounded(w0) ==> Boundary(w.log) == Boundary(w0.log)
    requires HasV2(c, w) && w.book.drained && !(HasV2(c, w0) && w0.book.drained) ==> w.book.pace.grace >= poll
    ensures Underway(c, w, cfg, poll)
  {
    InvParts(c, w0);
    InvParts(c, w);
    if HasV2(c, w) {
      UnderwayBuild(c, w0, w, cfg, poll, filled);
    } else {
      forall m | m in c.names ensures FitsAt(c, w, c.defs, m) {
        assert ViewKept(c, w0, w, V2Name(m)) && FitsAt(c, w0, c.defs, m);
      }
    }
  }

  lemma UnderwayBuild(c: Setting, w0: World, w: World, cfg: Config, poll: nat, filled: bool)
    requires c.Sound() && Ledger(c, w0)
    requires Underway(c, w0, cfg, poll) && HasV2(c, w) && RanOn(c, w0, w, cfg, filled)
    ensures Tracked(c, w) && w.book.keyed && w.Defs() == c.defs && w.book.base == {} && !w.book.retuned
    ensures w.book.tuning == None || w.book.tuning == Some(cfg)
  {
    assert HasV2(c, w0) ==> c.defs + w0.Defs() == c.defs;
  }

  /** The last attempt filled the table: in a well-behaved environment v2 is exact if no attempt
      lost a record between a chunk's INSERT and the end. */
  lemma FilledIsExact(c: Setting, w0: World, w: World, cfg: Config, poll: nat)
    requires Inv(c, w0) && Inv(c, w) && Underway(c, w0, cfg, poll) && Underway(c, w, cfg, poll)
    requires Ran(c, w0, w, cfg, true)
    ensures Faultless(w, cfg, poll) ==> Exact(c, w) && SameDefs(c, w)
  {
    if Faultless(w, cfg, poll) {
      InvParts(c, w);
      PunctualIsNotLate(c, w);
      ResumedIsFinished(c, w, LedgerBefore(c, w0), Completed(w0.log), cfg);
      FaultFreeIsExact(c, w);
    }
  }

  method Attempt(o: Orchestrator, options: Options) returns (ok: bool, ghost filled: bool)
    requires o.Ok()
    modifies o`db, o`log, o`now, o`script, o`book
    ensures o.Ok() && old(o.log) <= o.log && (ok ==> filled)
    ensures old(UnderwayFor(o, options)) ==> UnderwayFor(o, options)
    ensures old(UnderwayFor(o, options)) && filled ==>
      Faultless(o.W(), o.Tuning(options), options.WithDefaults().lagPoll) ==>
        Exact(o.C(), o.W()) && SameDefs(o.C(), o.W())
    ensures !old(HasV2(o.C(), o.W())) && filled ==> o.book.torn == multiset{}
  {
    ghost var w0, cfg, poll := o.W(), o.Tuning(options), options.WithDefaults().lagPoll;
    ghost var checked;
    ok, checked, filled := o.Run(options);
    if Underway(o.C(), w0, cfg, poll) {
      StillUnderway(o.C(), w0, o.W(), cfg, poll, filled);
      if filled { FilledIsExact(o.C(), w0, o.W(), cfg, poll); }
    }
  }

  ghost predicate UnderwayFor(o: Orchestrator, options: Options)
    reads o
  {
    Underway(o.C(), o.W(), o.Tuning(options), options.WithDefaults().lagPoll)
  }

  /** Run again with the same options until a run succeeds; filled says that the last one
      completed its backfill.  However the others died and whatever arrived meanwhile: if no event
      was dated ahead, the copies were armed before T, no event lagged more than the poll interval
      and no chunk's record was lost, v2 ends exact. */
  method RunUntilDone(o: Orchestrator, options: Options, attempts: nat) returns (ok: bool, ghost filled: bool)
    requires o.Ok()
    modifies o`db, o`log, o`now, o`script, o`book
    ensures o.Ok() && old(o.log) <= o.log && (ok ==> filled)
    ensures old(FirstRun(o)) && filled && Faultless(o.W(), o.Tuning(options), options.WithDefaults().lagPoll) ==>
      Exact(o.C(), o.W()) && SameDefs(o.C(), o.W())
    ensures old(FirstRun(o)) && filled && attempts == 1 ==> o.book.torn == multiset{}
  {
    ok, filled := false, false;
    var i := 0;
    while i < attempts && !ok
      invariant 0 <= i <= attempts && (ok ==> filled)
      invariant o.Ok() && old(o.log) <= o.log
      invariant old(FirstRun(o)) ==> UnderwayFor(o, options)
      invariant i == 0 ==> o.W() == old(o.W()) && !filled
      invariant old(FirstRun(o)) && filled && Faultless(o.W(), o.Tuning(options), options.WithDefaults().lagPoll) ==>
        Exact(o.C(), o.W()) && SameDefs(o.C(), o.W())
      invariant old(FirstRun(o)) && filled && i <= 1 ==> o.book.torn == multiset{}
    {
      ok, filled := Attempt(o, options);
      i := i + 1;
    }
  }

  ghost predicate RightEnvironment(o: Orchestrator, options: Options, filled: World) {
    Faultless(filled, o.Tuning(options), options.WithDefaults().lagPoll)
  }

  /** Runs and a cutover with the writers stopped: in a well-behaved environment, with inserts
      arriving throughout and any number of runs dying, the target ends exact and stays exact. */
  method Rebuild(o: Orchestrator, options: Options, attempts: nat, guard: bool, day: string)
    returns (ok: bool, ghost filled: World)
    requires o.Ok()
    modifies o`db, o`log, o`now, o`script, o`book
    ensures o.Ok()
    ensures attempts == 1 && ok && old(FirstRun(o)) ==> filled.book.torn == multiset{}
    ensures ok && old(FirstRun(o)) && RightEnvironment(o, options, filled) && WritersStopped(o.C(), filled, o.W()) ==>
      LiveExact(o.C(), o.W()) && forall inserts :: LiveExact(o.C(), AfterArrivals(o.C(), o.W(), inserts))
  {
    ghost var complete;
    ok, complete := RunUntilDone(o, options, attempts);
    filled := o.W();
    if !ok {
      return;
    }
    ghost var swapping;
    ok, swapping := Cutover(o, guard, day);
    if ok { ExactFromNow(o, filled); }
  }

  lemma ExactFromNow(o: Orchestrator, w: World)
    requires ExactAfter(o.C(), w, o.W())
    ensures Exact(o.C(), w) && SameDefs(o.C(), w) && WritersStopped(o.C(), w, o.W()) ==>
      LiveExact(o.C(), o.W()) && forall inserts :: LiveExact(o.C(), AfterArrivals(o.C(), o.W(), inserts))
  {
    if Exact(o.C(), w) && SameDefs(o.C(), w) && WritersStopped(o.C(), w, o.W()) {
      forall inserts
        ensures LiveExact(o.C(), AfterArrivals(o.C(), o.W(), inserts))
      {
        ExactForever(o.C(), o.W(), inserts);
      }
    }
  }

  // ---------- when a run is refused ----------

  ghost predicate BadSpec(spec: Spec) {
    || spec.name == "" || spec.targetTable == "" || spec.newDDL == "" || spec.boundaryColumn == "" || spec.mvs == []
    || !spec.retargets || exists m :: m in spec.newMVs && m !in spec.mvs
  }

  /** The definition of listed view m is neither supplied under its name nor in the catalog. */
  ghost predicate NoDefinition(o: Orchestrator, m: string)
    reads o
  {
    o.C().Listed(m) &&
    if m in o.spec.newMVs && o.spec.newMVs[m] != NoDDL
    then o.spec.newMVs[m] == Unparsable || o.spec.newMVs[m].mv.name != m
    else m !in o.db.views
  }

  /** The definition of m mentions column col, or it is the boundary column, and the source of m
      does not have it. */
  ghost predicate NoColumn(o: Orchestrator, m: string, col: string)
    reads o
  {
    o.C().Listed(m) && m in o.defs && (col in o.defs[m].needs || col == o.spec.boundaryColumn) &&
    (o.defs[m].source !in o.db.sources || o.defs[m].source !in o.db.columns
     || col !in o.db.columns[o.defs[m].source])
  }

  ghost predicate Unready(o: Orchestrator)
    reads o
  {
    || BadSpec(o.spec)
    || (o.log != [] && Last(o.log).hash != o.spec.hash)
    || (exists m :: NoDefinition(o, m))
    || (exists m, col :: NoColumn(o, m, col))
  }

  lemma UnreadyIff(o: Orchestrator)
    requires o.Ok()
    ensures o.Startable() <==> !Unready(o)
  {
    InvParts(o.C(), o.W());
    if o.log != [] { ShapeAt(o.log, |o.log| - 1); }
    forall m ensures o.C().Listed(m) ==> (o.AvailableAt(m, o.db.views.Keys) <==> !NoDefinition(o, m)) {}
    forall m ensures o.C().Listed(m) && m in o.defs ==>
      (Resolves(o.db, o.defs[m], o.spec.boundaryColumn) <==> forall col :: !NoColumn(o, m, col))
    {
      if o.C().Listed(m) && m in o.defs { ResolvesIff(o, m); }
    }
  }

  lemma ResolvesIff(o: Orchestrator, m: string)
    requires o.C().Listed(m) && m in o.defs
    ensures Resolves(o.db, o.defs[m], o.spec.boundaryColumn) <==> forall col :: !NoColumn(o, m, col)
  {
    var d := o.defs[m];
    if Resolves(o.db, d, o.spec.boundaryColumn) {
      forall col ensures !NoColumn(o, m, col) {
        assert col in d.needs + {o.spec.boundaryColumn} ==> col in o.db.columns[d.source];
      }
    } else if d.source in o.db.sources && d.source in o.db.columns {
      var col :| col in d.needs + {o.spec.boundaryColumn} && col !in o.db.columns[d.source];
      assert NoColumn(o, m, col);
    } else {
      assert NoColumn(o, m, o.spec.boundaryColumn);
    }
  }

  /** A run either is refused, and then nothing has changed, or nothing stands against it: the spec
      is complete and names no definition it does not list, the log is its own, every definition
      can be had, and every column that one mentions is there. */
  method RunIfReady(o: Orchestrator, options: Options) returns (ok: bool, ghost filled: bool)
    requires o.Ok()
    modifies o`db, o`log, o`now, o`script, o`book
    ensures o.Ok()
    ensures old(Unready(o)) ==> !ok && !filled && Calm(old(o.W()), o.W())
    ensures old(o.Undisturbed() && !Unready(o)) ==> filled && HasV2(o.C(), o.W()) && Bounded(o.W())
  {
    UnreadyIff(o);
    ghost var checked;
    ok, checked, filled := o.Run(options);
  }

  // ---------- a run on the defaults ----------

  /** Neither the spec nor the caller sets anything. */
  ghost predicate Unset(o: Orchestrator, options: Options) {
    Untuned(o.spec.backfill) && Untuned(options.backfill) && options.boundaryOffset <= 0 && options.lagPoll <= 0
  }

  /** Chunk k is on the table if and only if its view is listed, its chunk value has rows before T, it
      is split by the hash of the view's GROUP BY keys into the least number of buckets of 50 million
      rows, 256 at most, and k is one of these. */
  ghost predicate DefaultChunk(c: Setting, w: World, k: Chunk, least: nat)
    requires Bounded(w)
  {
    var rows := |DayRows(c, w, k.mv, T(w), k.val)|;
    rows < TWO_64 && IsCeiling(rows, 50_000_000, least) ==>
      (k in w.book.ledger <==>
        && c.Listed(k.mv) && k.mv in w.Defs() && rows > 0 && k.expr == "cityHash64(" + w.Defs()[k.mv].groupBy + ")"
        && k.n == (if least < 256 then least else 256) && k.b < k.n)
  }

  lemma DefaultSplit(c: Setting, w: World, cfg: Config, k: Chunk, least: nat)
    requires Untuned(c.spec.backfill) && cfg == Effective(c.spec.backfill, Config(0, 0, ""))
    requires Resumed(c, w, [], {}, cfg) && !w.book.late
    ensures DefaultChunk(c, w, k, least)
  {
    InvParts(c, w);
    var rows := |DayRows(c, w, k.mv, T(w), k.val)|;
    SuffixIsThePlan(c, w, [], {}, cfg, k);
    if 0 < rows < TWO_64 && IsCeiling(rows, 50_000_000, least) {
      UntunedSplits(c.spec.backfill, Config(0, 0, ""), rows, least);
    }
  }

  lemma AfterDefaults(c: Setting, w0: World, w: World, cfg: Config, first: bool)
    requires Untuned(c.spec.backfill) && cfg == Effective(c.spec.backfill, Config(0, 0, ""))
    requires first ==>
      && Inv(c, w) && !HasV2(c, w0) && Completed(w0.log) == {} && c.Keyed() && CopiesFit(c, w0, c.defs)
      && Ran(c, w0, w, cfg, true) && Bounded(w) && !w.book.late
    ensures first ==> forall k, least :: DefaultChunk(c, w, k, least)
  {
    if first {
      InvParts(c, w);
      forall k, least: nat ensures DefaultChunk(c, w, k, least) { DefaultSplit(c, w, cfg, k, least); }
    }
  }

  /** T is the whole second at or before some time from now. */
  ghost predicate WholeSecondAfter(w: World, now: nat, wait: nat) {
    Bounded(w) && T(w) % SECOND == 0 && T(w) <= now + wait < T(w) + SECOND
  }

  lemma FreshIsWhole(w: World, now: nat, offset: nat)
    requires Boundary(w.log) == Some(Orchestrator.FreshBoundary(now, offset))
    ensures WholeSecondAfter(w, now, offset)
  {
    assert (now + offset) - (now + offset) % SECOND == SECOND * ((now + offset) / SECOND);
  }

  /** A first run for which nothing is set: T is the whole second ten minutes on, lag-drain is not
      recorded before a minute after T, and without a disturbance then, and the history is split as
      DefaultChunk says. */
  method RunOnDefaults(o: Orchestrator, options: Options) returns (ok: bool, ghost filled: bool)
    requires o.Ok() && Unset(o, options)
    modifies o`db, o`log, o`now, o`script, o`book
    ensures o.Ok() && (filled ==> Bounded(o.W()))
    ensures old(o.Smooth() && !Unready(o)) && Boundary(old(o.log)).None? ==>
      WholeSecondAfter(o.W(), old(o.now), 600 * SECOND)
    ensures HasV2(o.C(), o.W()) && o.book.drained && !(HasV2(o.C(), old(o.W())) && old(o.book.drained)) ==>
      o.book.pace.grace >= 60 * SECOND
    ensures old(o.Smooth() && !Unready(o) && !HasV2(o.C(), o.W())) && Boundary(old(o.log)).None? && o.book.drained ==>
      o.book.pace.grace == 60 * SECOND
    ensures old(FirstRun(o)) && filled && !o.book.late ==>
      forall k, least :: DefaultChunk(o.C(), o.W(), k, least)
  {
    ghost var w0, first, checked := o.W(), FirstRun(o), 0;
    UnreadyIff(o);
    ok, checked, filled := o.Run(options);
    AfterDefaults(o.C(), w0, o.W(), o.Tuning(options), first && filled && !o.book.late);
    if old(o.Smooth() && !Unready(o)) && Boundary(w0.log).None? {
      FreshIsWhole(o.W(), old(o.now), 600 * SECOND);
    }
  }

  // ---------- what a successful run says about the table ----------

  /** Under one tuning: no record was lost, or nothing was carried over and nothing missed. */
  ghost predicate OneSided(c: Setting, w: World) {
    Finished(c, w) && (w.book.torn == multiset{} || (w.book.base == {} && w.book.missed == multiset{}))
  }

  /** Old and new table give different answers to x, or one of them is gone. */
  ghost predicate Disagree(o: Orchestrator, x: string)
    reads o
  {
    o.spec.targetTable in o.db.tables && o.spec.V2Table() in o.db.tables ==>
      o.eval(x, o.db.tables[o.spec.targetTable]) != o.eval(x, o.db.tables[o.spec.V2Table()])
  }

  lemma CaughtIfOneSided(o: Orchestrator, expr: string, f: Row -> nat, show: nat -> string)
    requires OneSided(o.C(), o.W()) && Measures(o.eval, expr, f, show)
    requires o.spec.targetTable in o.db.tables && o.db.tables[o.spec.targetTable] == Due(o.C(), o.W())
    requires o.eval(expr, o.db.tables[o.spec.targetTable]) == o.eval(expr, o.db.tables[o.spec.V2Table()])
    ensures Exact(o.C(), o.W())
  {
    FaultsBySide(o.C(), o.W());
    OneSidedFaultsAreCaught(o.C(), o.W(), Due(o.C(), o.W()), o.eval, expr, f, show);
  }

  /** A run succeeds only if the old and the new table give the same answer to every validation
      expression, and undisturbed fails if they do not.  With a correct old table and a validation
      that shows a positive sum, success means that v2 is exact, unless there were faults of both
      kinds. */
  method RunChecked(o: Orchestrator, options: Options, expr: string, ghost f: Row -> nat, ghost show: nat -> string)
    returns (ok: bool, ghost checked: nat, ghost filled: bool)
    requires o.Ok() && expr in o.spec.validations
    modifies o`db, o`log, o`now, o`script, o`book
    ensures o.Ok()
    ensures ok && o.book.arrived == checked ==>
      o.spec.targetTable in o.db.tables && o.spec.V2Table() in o.db.tables &&
      o.eval(expr, o.db.tables[o.spec.targetTable]) == o.eval(expr, o.db.tables[o.spec.V2Table()])
    ensures old(o.Undisturbed() && !Unready(o)) && !ok ==> exists x :: x in o.spec.validations && Disagree(o, x)
    ensures ok && o.book.arrived == checked && OneSided(o.C(), o.W()) && Measures(o.eval, expr, f, show) ==>
      o.db.tables[o.spec.targetTable] == Due(o.C(), o.W()) ==> Exact(o.C(), o.W())
  {
    UnreadyIff(o);
    ok, checked, filled := o.Run(options);
    assert ok && o.book.arrived == checked ==> o.Agrees(expr, o.db);
    if ok && o.book.arrived == checked && OneSided(o.C(), o.W()) && Measures(o.eval, expr, f, show) {
      if o.db.tables[o.spec.targetTable] == Due(o.C(), o.W()) { CaughtIfOneSided(o, expr, f, show); }
    }
  }

  // ---------- every sequence of operations, under changing specs ----------

  datatype Call =
    | DoRun(spec: Spec, options: Options)
    | DoAbort(spec: Spec)
    | DoCutover(spec: Spec, guard: bool, day: string)

  /** The specs are for the same table, and equal hashes mean equal definitions, among them and
      with the spec that the present table is built by.  Which views they list is up to them. */
  ghost predicate Consistent(c: Setting, b: Build, calls: seq<Call>) {
    && (forall i :: 0 <= i < |calls| ==> SameTarget(c, calls[i].spec))
    && (forall i :: 0 <= i < |calls| && calls[i].spec.hash == b.hash ==> calls[i].spec.newMVs == b.supplied)
    && (forall i, j :: 0 <= i < |calls| && 0 <= j < |calls| && calls[i].spec.hash == calls[j].spec.hash ==>
          calls[i].spec.newMVs == calls[j].spec.newMVs)
  }

  /** The log ends with a cutover, and every call has another hash. */
  ghost predicate Stuck(log: seq<Record>, calls: seq<Call>) {
    log != [] && Last(log).phase == CutOver &&
    forall i :: 0 <= i < |calls| ==> calls[i].spec.hash != Last(log).hash
  }

  /** An abort or cutover lists every view that has a copy. */
  ghost predicate Covers(call: Call, copies: set<string>) {
    !call.DoRun? ==> forall n :: n in copies ==> CopyName(call.spec.mvs, n)
  }

  /** It also lists every view that this run would arm. */
  ghost predicate CoversRun(call: Call, run: Call) {
    !call.DoRun? && run.DoRun? ==> forall m :: m in run.spec.mvs ==> m in call.spec.mvs
  }

  /** Every abort and cutover lists what has a copy now or may have one by then. */
  ghost predicate Covering(copies: set<string>, calls: seq<Call>) {
    && (forall i :: 0 <= i < |calls| ==> Covers(calls[i], copies))
    && (forall i, j :: 0 <= i < |calls| && 0 <= j < |calls| ==> CoversRun(calls[i], calls[j]))
  }

  /** One operation by a process of its own. */
  method Perform(last: Orchestrator, call: Call) returns (next: Orchestrator)
    requires last.Ok() && SameTarget(last.C(), call.spec) && HashTells(last.C(), last.W(), call.spec)
    ensures fresh(next) && next.Ok() && last.log <= next.log
    ensures next.names == last.names && next.spec.targetTable == last.spec.targetTable
    ensures next.book.build.(defs := last.book.build.defs) == last.book.build
      || (next.book.build.hash == call.spec.hash && next.book.build.supplied == call.spec.newMVs)
    ensures last.log != [] && Last(last.log).phase == CutOver && call.spec.hash != Last(last.log).hash ==>
      next.log == last.log
    ensures forall n :: n in Feeders(next.C(), next.db) ==>
      n in Feeders(last.C(), last.db) || (call.DoRun? && CopyName(call.spec.mvs, n))
    ensures NoDangling(last.db) && Covers(call, Feeders(last.C(), last.db)) ==> NoDangling(next.db)
  {
    next := new Orchestrator.Attach(last, call.spec);
    ghost var w0 := next.W();
    match call {
      case DoRun(_, options) =>
        var ok, checked, filled := next.Run(options);
        RunDangling(next.C(), w0, next.W());
      case DoAbort(_) =>
        var ok := Abort(next);
      case DoCutover(_, guard, day) =>
        var ok, swapping := Cutover(next, guard, day);
        CutoverFeeders(next.C(), w0, next.W(), w0.log, next.spec.BackupTable(day));
    }
  }

  /** A run adds copies of the views it lists, and never leaves one without the table. */
  lemma RunDangling(c: Setting, w: World, w': World)
    requires Inv(c, w) && Inv(c, w') && SameServer(c, w, w')
    ensures forall n :: n in Feeders(c, w'.db) ==> n in Feeders(c, w.db) || CopyName(c.spec.mvs, n)
    ensures NoDangling(w.db) ==> NoDangling(w'.db)
  {
    OnlyCopiesDangle(c, w);
    OnlyCopiesDangle(c, w');
    forall n | n in Feeders(c, w'.db)
      ensures n in Feeders(c, w.db) || (HasV2(c, w') && CopyName(c.spec.mvs, n))
    {
      assert ViewKept(c, w, w', n);
    }
  }

  lemma CutoverFeeders(c: Setting, w: World, w': World, log: seq<Record>, backup: string)
    requires Inv(c, w') && MidCutover(c, w, w'.(log := log), backup)
    ensures Feeders(c, w'.db) <= Feeders(c, w.db)
  {
    ListedFeedTarget(c, w');
  }

  /** Any operations in any order, each under a spec of its own and dying wherever its script
      says.  After a recorded cutover no operation of a changed spec ever gets anywhere: the run
      is told to abort first, and the abort is refused.  And no view is ever left without its
      table, as long as no abort or cutover forgets a view. */
  method Operate(o: Orchestrator, calls: seq<Call>) returns (last: Orchestrator)
    requires o.Ok() && Consistent(o.C(), o.book.build, calls)
    ensures last.Ok() && o.log <= last.log
    ensures Stuck(o.log, calls) ==> last.log == o.log
    ensures NoDangling(o.db) && Covering(Feeders(o.C(), o.db), calls) ==> NoDangling(last.db)
  {
    last := o;
    var i := 0;
    while i < |calls|
      invariant 0 <= i <= |calls|
      invariant last.Ok() && o.log <= last.log && Consistent(last.C(), last.book.build, calls)
      invariant Stuck(o.log, calls) ==> last.log == o.log
      invariant NoDangling(o.db) && Covering(Feeders(o.C(), o.db), calls) ==>
        NoDangling(last.db) && Covering(Feeders(last.C(), last.db), calls)
    {
      ghost var before := last;
      last := Perform(last, calls[i]);
      if Covering(Feeders(before.C(), before.db), calls) { StillCovering(before, last, calls, i); }
      i := i + 1;
    }
  }

  lemma StillCovering(before: Orchestrator, after: Orchestrator, calls: seq<Call>, k: nat)
    requires k < |calls| && Covering(Feeders(before.C(), before.db), calls)
    requires forall n :: n in Feeders(after.C(), after.db) ==>
      n in Feeders(before.C(), before.db) || (calls[k].DoRun? && CopyName(calls[k].spec.mvs, n))
    ensures Covering(Feeders(after.C(), after.db), calls)
  {
    forall i | 0 <= i < |calls|
      ensures Covers(calls[i], Feeders(after.C(), after.db))
    {
      assert Covers(calls[i], Feeders(before.C(), before.db)) && CoversRun(calls[i], calls[k]);
    }
  }

  /** What the invariant says of every state Operate can reach. */
  lemma ReachableStates(c: Setting, w: World)
    requires Inv(c, w)
    ensures forall n :: n in w.db.views ==>
      w.db.views[n].target in w.db.tables || (n in Feeders(c, w.db) && !HasV2(c, w))
    ensures forall m :: Tracked(c, w) && m in w.Defs() && V2Name(m) in w.db.views ==>
      Bounded(w) && w.db.views[V2Name(m)] == View(w.Defs()[m], c.V2(), Some(T(w)))
    ensures forall n :: Tracked(c, w) && n in Feeders(c, w.db) ==> exists m :: m in w.Defs() && n == V2Name(m)
    ensures HasV2(c, w) && Bounded(w) && Last(w.log).hash == c.spec.hash ==> Agreed(c, w)
    ensures forall m, e: Event :: Tracked(c, w) && Bounded(w) && m in w.Defs() && e.time >= T(w) ==>
      w.db.tables[c.V2()][Row(m, e)] <= Seen(w, m, e)
    ensures EpochHas(w.log, DualWrite, BoundarySet) <==> Bounded(w)
  {
    InvParts(c, w);
    forall n | n in w.db.views
      ensures w.db.views[n].target in w.db.tables || (n in Feeders(c, w.db) && !HasV2(c, w))
    {
      assert ViewAt(c, w, n);
    }
    forall m | Tracked(c, w) && m in w.Defs() && V2Name(m) in w.db.views
      ensures Bounded(w) && w.db.views[V2Name(m)] == View(w.Defs()[m], c.V2(), Some(T(w)))
    {
      DefName(c, w, m);
      assert ArmedAt(c, w, m);
    }
    forall n | Tracked(c, w) && n in Feeders(c, w.db)
      ensures exists m :: m in w.Defs() && n == V2Name(m)
    {
      var m := FeederIsCopy(c, w, n);
    }
    forall m, e: Event | Tracked(c, w) && Bounded(w) && m in w.Defs() && e.time >= T(w)
      ensures w.db.tables[c.V2()][Row(m, e)] <= Seen(w, m, e)
    {
      assert CaptureAt(c, w, m, e);
    }
    if Bounded(w) {
      BoundaryIsRecorded(w.log);
    } else if EpochHas(w.log, DualWrite, BoundarySet) {
      var k := EpochWitness(w.log, DualWrite, BoundarySet);
      BoundarySetGivesBoundary(w.log, k);
    }
  }
}
