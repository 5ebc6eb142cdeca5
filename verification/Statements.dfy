/** What each statement, and each insert of the environment, does to the world, and that
    it keeps the invariant. */
module Statements {
  import opened Text
  import opened Warehouse
  import opened Journal
  import opened Limits
  import opened Chunks
  import opened Protocol

  /** The catalog clauses depend on the views, the boundary, the definitions v2 is built from
      and which tables exist. */
  lemma CatalogFrame(c: Setting, w: World, w': World)
    requires Catalog(c, w)
    requires w'.db.views == w.db.views && Boundary(w'.log) == Boundary(w.log) && w'.book.build == w.book.build
    requires w'.book.stray == w.book.stray
    requires w.db.tables.Keys <= w'.db.tables.Keys && w.db.sources.Keys <= w'.db.sources.Keys
    requires HasV2(c, w') == HasV2(c, w)
    ensures Catalog(c, w')
  {
    if HasV2(c, w') {
      forall m | m in w'.Defs() ensures Grounded(w'.Defs(), w'.db, m) { assert Grounded(w.Defs(), w.db, m); }
    }
    forall n ensures ViewAt(c, w', n) { assert ViewAt(c, w, n); }
    forall m ensures ArmedAt(c, w', m) { assert ArmedAt(c, w, m); }
    SameViewClauses(c, w, w');
  }

  /** Clauses on live views. */
  lemma SameViewClauses(c: Setting, w: World, w': World)
    requires Catalog(c, w)
    requires forall m :: (m in c.names || m in c.defs || m in w.Defs()) && m in w'.db.views ==>
      m in w.db.views && w'.db.views[m] == w.db.views[m]
    requires HasV2(c, w') ==> HasV2(c, w) && w'.book.build == w.book.build
    ensures forall m :: LiveAt(c, w', m)
    ensures forall m :: OwnAt(c, w', m)
    ensures forall m :: KeptAt(c, w', m)
  {
    forall m ensures LiveAt(c, w', m) { assert LiveAt(c, w, m); }
    forall m ensures OwnAt(c, w', m) { assert OwnAt(c, w, m); }
    forall m ensures KeptAt(c, w', m) { assert KeptAt(c, w, m); }
  }

  // ---------- an insert into a source table ----------

  /** The armed copies that should exist but do not, as views into v2. */
  ghost function Unarmed(c: Setting, w: World): map<string, View>
    requires Bounded(w)
  {
    map m | m in w.Defs() && V2Name(m) !in w.db.views :: Armed(c, w.Defs(), m, T(w))
  }

  ghost predicate Feeds(w: World, source: string) {
    exists m :: m in w.Defs() && w.Defs()[m].source == source
  }

  /** How far the oldest event of a batch lies behind the clock. */
  function WorstLag(batch: seq<Event>, clock: nat): (lag: nat)
    ensures forall e :: e in batch ==> e.time + lag >= clock
    ensures lag > 0 ==> exists e :: e in batch && e.time + lag == clock
  {
    if batch == [] then 0
    else
      var n := |batch| - 1;
      var e := batch[n];
      assert batch == batch[..n] + [e];
      var before := WorstLag(batch[..n], clock);
      if e.time + before < clock then clock - e.time else before
  }

  ghost function PaceAfter(w: World, source: string, batch: seq<Event>): Pace {
    var p := w.book.pace;
    var lag := if w.book.drained && Bounded(w) && Feeds(w, source) then WorstLag(batch, p.clock) else 0;
    p.(lag := Max(p.lag, lag), ahead := p.ahead || exists e :: e in batch && e.time > p.clock)
  }

  ghost function AfterArrival(c: Setting, w: World, source: string, batch: seq<Event>): World {
    if Refuses(w.db, source) then w
    else World(
      Inserted(c.hash, w.db, source, batch),
      w.log,
      w.book.(
        missed := w.book.missed +
          (if Bounded(w)
           then Fired(c.hash, Unarmed(c, w), Unarmed(c, w).Keys, c.V2(), source, batch)
           else multiset{}),
        late := w.book.late ||
          (w.book.drained && Bounded(w) && Feeds(w, source) && exists e :: e in batch && e.time < T(w)),
        arrived := w.book.arrived + 1,
        pace := PaceAfter(w, source, batch)))
  }

  lemma SeenAfterArrival(c: Setting, w: World, source: string, batch: seq<Event>, m: string, e: Event)
    requires !Refuses(w.db, source)
    ensures Seen(AfterArrival(c, w, source, batch), m, e)
         == Seen(w, m, e) + (if m in w.Defs() && w.Defs()[m].source == source then multiset(batch)[e] else 0)
  {
  }

  /** What the armed copy of m makes of a batch: the rows from t on. */
  lemma ArmedCount(c: Setting, defs: map<string, MV>, m: string, t: nat, source: string, batch: seq<Event>, e: Event)
    requires m in defs && defs[m].name == m
    ensures FiredBy(c.hash, Armed(c, defs, m, t), c.V2(), source, batch)[Row(m, e)]
         == if defs[m].source == source && e.time >= t then multiset(batch)[e] else 0
  {
  }

  /** v2's definitions have their own names. */
  lemma DefName(c: Setting, w: World, m: string)
    requires Ownership(c, w) && HasV2(c, w) && m in w.Defs()
    ensures m in c.names && w.Defs()[m].name == m && w.Defs()[m].target == c.spec.targetTable
  {
    assert BuiltAt(c, w.book.build, m);
  }

  /** Only the armed copy of m writes rows of m into v2. */
  lemma ArmedFires(c: Setting, w: World, m: string, source: string, batch: seq<Event>, e: Event)
    requires Ownership(c, w) && Catalog(c, w) && Tracked(c, w) && Bounded(w)
    requires m in w.Defs() && V2Name(m) in w.db.views
    ensures Fired(c.hash, w.db.views, w.db.views.Keys, c.V2(), source, batch)[Row(m, e)]
         == if w.Defs()[m].source == source && e.time >= T(w) then multiset(batch)[e] else 0
  {
    DefName(c, w, m);
    assert ArmedAt(c, w, m);
    forall k | k in w.db.views.Keys && k != V2Name(m)
      ensures w.db.views[k].def.name != m || w.db.views[k].target != c.V2()
    {
      OtherViews(c, w, m, k);
    }
    FiredOne(c.hash, w.db.views, w.db.views.Keys, V2Name(m), Row(m, e), c.V2(), source, batch);
    ArmedCount(c, w.Defs(), m, T(w), source, batch, e);
  }

  /** A view that feeds a tracked v2 is the copy of a view it is built from. */
  lemma FeederIsCopy(c: Setting, w: World, k: string) returns (m: string)
    requires Ownership(c, w) && Catalog(c, w) && Tracked(c, w) && k in w.db.views && w.db.views[k].target == c.V2()
    ensures m in w.Defs() && k == V2Name(m) && Bounded(w) && w.db.views[k] == Armed(c, w.Defs(), m, T(w))
    ensures w.db.views[k].def.name == m
  {
    assert ViewAt(c, w, k);
    m :| m in c.names && k == V2Name(m);
    assert ArmedAt(c, w, m);
    DefName(c, w, m);
  }

  lemma OtherViews(c: Setting, w: World, m: string, k: string)
    requires Ownership(c, w) && Catalog(c, w) && Tracked(c, w) && k in w.db.views && k != V2Name(m)
    ensures w.db.views[k].def.name != m || w.db.views[k].target != c.V2()
  {
    if w.db.views[k].target == c.V2() { var x := FeederIsCopy(c, w, k); }
  }

  lemma UnarmedFiresNothing(c: Setting, w: World, m: string, source: string, batch: seq<Event>, e: Event)
    requires Ownership(c, w) && Catalog(c, w) && Tracked(c, w) && V2Name(m) !in w.db.views
    ensures Fired(c.hash, w.db.views, w.db.views.Keys, c.V2(), source, batch)[Row(m, e)] == 0
  {
    forall k | k in w.db.views.Keys
      ensures w.db.views[k].def.name != m || w.db.views[k].target != c.V2()
    {
      OtherViews(c, w, m, k);
    }
    FiredNone(c.hash, w.db.views, w.db.views.Keys, Row(m, e), c.V2(), source, batch);
  }

  lemma MissedFires(c: Setting, w: World, m: string, source: string, batch: seq<Event>, e: Event)
    requires Ownership(c, w) && HasV2(c, w) && Bounded(w)
    ensures Fired(c.hash, Unarmed(c, w), Unarmed(c, w).Keys, c.V2(), source, batch)[Row(m, e)]
         == if m in Unarmed(c, w) && w.Defs()[m].source == source && e.time >= T(w) then multiset(batch)[e] else 0
  {
    var u := Unarmed(c, w);
    forall k | k in u ensures u[k].def.name == k { DefName(c, w, k); }
    if m in u {
      FiredOne(c.hash, u, u.Keys, m, Row(m, e), c.V2(), source, batch);
      ArmedCount(c, w.Defs(), m, T(w), source, batch, e);
    } else {
      FiredNone(c.hash, u, u.Keys, Row(m, e), c.V2(), source, batch);
    }
  }

  lemma ForeignFiresNothing(c: Setting, w: World, r: Row, source: string, batch: seq<Event>)
    requires Ownership(c, w) && Catalog(c, w) && Tracked(c, w) && !(r.mv in w.Defs() && Bounded(w))
    ensures Fired(c.hash, w.db.views, w.db.views.Keys, c.V2(), source, batch)[r] == 0
  {
    forall k | k in w.db.views.Keys
      ensures w.db.views[k].def.name != r.mv || w.db.views[k].target != c.V2()
    {
      if w.db.views[k].target == c.V2() { var x := FeederIsCopy(c, w, k); }
    }
    FiredNone(c.hash, w.db.views, w.db.views.Keys, r, c.V2(), source, batch);
  }

  lemma ArrivalKeepsCatalog(c: Setting, w: World, source: string, batch: seq<Event>)
    requires Catalog(c, w)
    ensures Catalog(c, AfterArrival(c, w, source, batch))
  {
    CatalogFrame(c, w, AfterArrival(c, w, source, batch));
  }

  lemma V2AfterArrival(c: Setting, w: World, source: string, batch: seq<Event>, r: Row)
    requires HasV2(c, w) && !Refuses(w.db, source)
    ensures AfterArrival(c, w, source, batch).db.tables[c.V2()][r]
         == w.db.tables[c.V2()][r] + Fired(c.hash, w.db.views, w.db.views.Keys, c.V2(), source, batch)[r]
  {
  }

  lemma HeldAfterArrival(c: Setting, w: World, source: string, batch: seq<Event>, m: string, e: Event)
    requires Ownership(c, w) && Catalog(c, w) && Tracked(c, w) && Bounded(w) && m in w.Defs()
    requires !Refuses(w.db, source)
    ensures Held(c, AfterArrival(c, w, source, batch), m, e)
         == Held(c, w, m, e) +
            (if V2Name(m) in w.db.views && w.Defs()[m].source == source && e.time >= T(w)
             then multiset(batch)[e] else 0)
  {
    V2AfterArrival(c, w, source, batch, Row(m, e));
    if V2Name(m) in w.db.views {
      ArmedFires(c, w, m, source, batch, e);
    } else {
      UnarmedFiresNothing(c, w, m, source, batch, e);
    }
  }

  lemma ArrivalKeepsCaptureAt(c: Setting, w: World, source: string, batch: seq<Event>, m: string, e: Event)
    requires Ownership(c, w) && Catalog(c, w) && Capture(c, w) && !Refuses(w.db, source)
    ensures CaptureAt(c, AfterArrival(c, w, source, batch), m, e)
  {
    assert CaptureAt(c, w, m, e);
    if Tracked(c, w) && Bounded(w) && m in w.Defs() && e.time >= T(w) {
      HeldAfterArrival(c, w, source, batch, m, e);
      MissedFires(c, w, m, source, batch, e);
      SeenAfterArrival(c, w, source, batch, m, e);
    }
  }

  lemma ArrivalKeepsRowAt(c: Setting, w: World, source: string, batch: seq<Event>, r: Row)
    requires Ownership(c, w) && Catalog(c, w) && Capture(c, w) && !Refuses(w.db, source)
    ensures RowAt(c, AfterArrival(c, w, source, batch), r)
  {
    assert RowAt(c, w, r);
    if Tracked(c, w) {
      V2AfterArrival(c, w, source, batch, r);
      if !(r.mv in w.Defs() && Bounded(w)) {
        ForeignFiresNothing(c, w, r, source, batch);
      }
      if Bounded(w) {
        MissedFires(c, w, r.mv, source, batch, r.event);
      }
    }
  }

  lemma ArrivalKeepsCapture(c: Setting, w: World, source: string, batch: seq<Event>)
    requires Ownership(c, w) && Catalog(c, w) && Capture(c, w)
    ensures Capture(c, AfterArrival(c, w, source, batch))
  {
    if !Refuses(w.db, source) {
      var w' := AfterArrival(c, w, source, batch);
      forall m, e ensures CaptureAt(c, w', m, e) { ArrivalKeepsCaptureAt(c, w, source, batch, m, e); }
      forall r ensures RowAt(c, w', r) { ArrivalKeepsRowAt(c, w, source, batch, r); }
    }
  }

  /** A batch that is not late has no row before T for a source of v2. */
  lemma NotLate(c: Setting, w: World, source: string, batch: seq<Event>, m: string, e: Event)
    requires w.book.drained && Bounded(w) && !Refuses(w.db, source)
    requires !AfterArrival(c, w, source, batch).book.late && m in w.Defs() && e.time < T(w)
    ensures Seen(AfterArrival(c, w, source, batch), m, e) == Seen(w, m, e)
  {
    SeenAfterArrival(c, w, source, batch, m, e);
    assert w.Defs()[m].source == source ==> e !in batch;
  }

  lemma ArrivalKeepsBackfillAt(c: Setting, w: World, source: string, batch: seq<Event>, m: string, e: Event)
    requires Ownership(c, w) && Catalog(c, w) && BackfillAt(c, w, m, e) && !Refuses(w.db, source)
    ensures BackfillAt(c, AfterArrival(c, w, source, batch), m, e)
  {
    if Tracked(c, w) && Bounded(w) && m in w.Defs() && e.time < T(w) {
      HeldAfterArrival(c, w, source, batch, m, e);
    }
  }

  lemma ArrivalKeepsFoundAt(c: Setting, w: World, source: string, batch: seq<Event>, i: nat)
    requires History(c, w) && FoundAt(c, w, i) && !Refuses(w.db, source)
    ensures FoundAt(c, AfterArrival(c, w, source, batch), i)
  {
    var w' := AfterArrival(c, w, source, batch);
    if HasV2(c, w) && Bounded(w) && i < |w.book.ledger| && !w'.book.late {
      var m := w.book.ledger[i].mv;
      forall e: Event | e.time < T(w)
        ensures multiset(w.book.found[i])[e] == Seen(w', m, e)
      {
        NotLate(c, w, source, batch, m, e);
      }
    }
  }

  lemma ArrivalKeepsHistory(c: Setting, w: World, source: string, batch: seq<Event>)
    requires Ownership(c, w) && Catalog(c, w) && History(c, w)
    ensures History(c, AfterArrival(c, w, source, batch))
  {
    if !Refuses(w.db, source) {
      var w' := AfterArrival(c, w, source, batch);
      forall m, e ensures BackfillAt(c, w', m, e) {
        assert BackfillAt(c, w, m, e);
        ArrivalKeepsBackfillAt(c, w, source, batch, m, e);
      }
      forall i ensures FoundAt(c, w', i) {
        assert FoundAt(c, w, i);
        if i >= 0 { ArrivalKeepsFoundAt(c, w, source, batch, i); }
      }
    }
  }

  lemma ArrivalKeepsPlanned(c: Setting, w: World, source: string, batch: seq<Event>, k: Chunk, tuning: Config)
    requires w.book.drained && Bounded(w) && !Refuses(w.db, source)
    requires !AfterArrival(c, w, source, batch).book.late && Planned(c, w, k, tuning)
    ensures Planned(c, AfterArrival(c, w, source, batch), k, tuning)
  {
    var w' := AfterArrival(c, w, source, batch);
    forall e: Event | e.time < T(w)
      ensures Seen(w', k.mv, e) == Seen(w, k.mv, e)
    {
      NotLate(c, w, source, batch, k.mv, e);
    }
    SettledDayRows(c, w, w', k.mv, k.val);
  }

  lemma ArrivalKeepsTuned(c: Setting, w: World, source: string, batch: seq<Event>)
    requires History(c, w) && Tuned(c, w)
    ensures Tuned(c, AfterArrival(c, w, source, batch))
  {
    var w' := AfterArrival(c, w, source, batch);
    if !Refuses(w.db, source) && HasV2(c, w') && !w'.book.late && !w'.book.retuned {
      forall k | k in w'.book.ledger
        ensures w'.book.tuning.Some? && Planned(c, w', k, w'.book.tuning.value)
      {
        ArrivalKeepsPlanned(c, w, source, batch, k, w.book.tuning.value);
      }
    }
  }

  /** With no change before T the chunk plan does not change either. */
  lemma SettledDayRows(c: Setting, w: World, w': World, m: string, val: string)
    requires Bounded(w) && w'.log == w.log && w'.book.build == w.book.build
    requires Grounded(w.Defs(), w.db, m) && Grounded(w'.Defs(), w'.db, m)
    requires forall e: Event :: e.time < T(w) ==> Seen(w', m, e) == Seen(w, m, e)
    ensures DayRows(c, w', m, T(w), val) == DayRows(c, w, m, T(w), val)
  {
    var a, b := DayRows(c, w', m, T(w), val), DayRows(c, w, m, T(w), val);
    forall r: Row ensures a[r] == b[r] {
      if r.mv == m && r.event.time < T(w) {
        assert Seen(w', m, r.event) == Seen(w, m, r.event);
      }
    }
  }

  lemma ArrivalKeepsTimely(c: Setting, w: World, source: string, batch: seq<Event>)
    requires Timely(c, w)
    ensures Timely(c, AfterArrival(c, w, source, batch))
  {
    var w' := AfterArrival(c, w, source, batch);
    if !Refuses(w.db, source) && !w'.book.pace.ahead {
      forall s ensures PresentAt(w', s) { assert PresentAt(w, s); }
    }
  }

  lemma ArrivalKeepsLedger(c: Setting, w: World, source: string, batch: seq<Event>)
    requires Ledger(c, w)
    ensures Ledger(c, AfterArrival(c, w, source, batch))
  {
    forall cursor ensures CursorAt(c, AfterArrival(c, w, source, batch), cursor) { assert CursorAt(c, w, cursor); }
  }

  lemma ArrivalKeepsInPlace(c: Setting, w: World, source: string, batch: seq<Event>)
    requires InPlace(c, w)
    ensures InPlace(c, AfterArrival(c, w, source, batch))
  {
    if !Refuses(w.db, source) && HasV2(c, w) && w.book.armed.Some? {
      assert Unarmed(c, w) == map[];
    }
  }

  lemma ArrivalKeepsInv(c: Setting, w: World, source: string, batch: seq<Event>)
    requires Inv(c, w)
    ensures Inv(c, AfterArrival(c, w, source, batch))
  {
    InvParts(c, w);
    ArrivalKeepsCatalog(c, w, source, batch);
    ArrivalKeepsCapture(c, w, source, batch);
    ArrivalKeepsHistory(c, w, source, batch);
    ArrivalKeepsTuned(c, w, source, batch);
    ArrivalKeepsTimely(c, w, source, batch);
    ArrivalKeepsInPlace(c, w, source, batch);
    ArrivalKeepsLedger(c, w, source, batch);
    InvWhole(c, AfterArrival(c, w, source, batch));
  }

  /** Is n the name of the copy of one of these views? */
  ghost predicate CopyName(mvs: seq<string>, n: string) {
    exists m :: m in mvs && n == V2Name(m)
  }

  /** The views that write to v2. */
  ghost function Feeders(c: Setting, db: Db): set<string> {
    set n | n in db.views && db.views[n].target == c.V2()
  }

  /** Those of them that are no copy of a view c lists. */
  ghost function Unlisted(c: Setting, db: Db): set<string> {
    set n | n in Feeders(c, db) && !CopyName(c.spec.mvs, n)
  }

  /** Does every view have its table? */
  ghost predicate NoDangling(db: Db) {
    forall n :: n in db.views ==> db.views[n].target in db.tables
  }

  lemma OnlyCopiesDangle(c: Setting, w: World)
    requires Inv(c, w)
    ensures NoDangling(w.db) <==> HasV2(c, w) || Feeders(c, w.db) == {}
  {
    InvParts(c, w);
    forall n | n in w.db.views
      ensures w.db.views[n].target in w.db.tables <==> HasV2(c, w) || n !in Feeders(c, w.db)
    {
      assert ViewAt(c, w, n);
    }
  }

  /** In every reachable state an insert into a known source is accepted, unless an armed copy on
      that source is left and the v2 table is gone. */
  lemma InsertsAreAccepted(c: Setting, w: World, source: string)
    requires Inv(c, w) && source in w.db.sources
    ensures Refuses(w.db, source) <==>
      !HasV2(c, w) && exists n :: n in Feeders(c, w.db) && w.db.views[n].def.source == source
  {
    InvParts(c, w);
    forall n | n in w.db.views
      ensures w.db.views[n].target in w.db.tables <==> HasV2(c, w) || n !in Feeders(c, w.db)
    {
      assert ViewAt(c, w, n);
    }
  }

  // ---------- time ----------

  ghost function AfterTick(w: World, clock: nat): World {
    w.(book := w.book.(pace := w.book.pace.(clock := clock)))
  }

  /** Invariant clauses other than those on the catalog do not look at the views. */
  lemma ViewsDoNotCount(c: Setting, w: World, w': World)
    requires Capture(c, w) && History(c, w) && Ledger(c, w) && Tuned(c, w)
    requires w'.log == w.log && w'.book.(pace := w.book.pace, armed := w.book.armed) == w.book
    requires w'.db.tables == w.db.tables && w'.db.sources == w.db.sources
    ensures Capture(c, w') && History(c, w') && Ledger(c, w') && Tuned(c, w')
  {
    forall m, e ensures CaptureAt(c, w', m, e) { assert CaptureAt(c, w, m, e); }
    forall r ensures RowAt(c, w', r) { assert RowAt(c, w, r); }
    forall m, e ensures BackfillAt(c, w', m, e) { assert BackfillAt(c, w, m, e); }
    forall i ensures FoundAt(c, w', i) { assert FoundAt(c, w, i); }
    forall cursor ensures CursorAt(c, w', cursor) { assert CursorAt(c, w, cursor); }
    if HasV2(c, w') && !w'.book.late && !w'.book.retuned {
      forall k | k in w'.book.ledger
        ensures w'.book.tuning.Some? && Planned(c, w', k, w'.book.tuning.value)
      {
        assert Planned(c, w, k, w.book.tuning.value);
      }
    }
  }

  lemma SameTime(c: Setting, w: World, w': World)
    requires Timely(c, w) && Boundary(w'.log) == Boundary(w.log) && w'.db.sources == w.db.sources
    requires w'.book.late == w.book.late && w'.book.drained == w.book.drained
    requires w'.book.pace.(clock := w.book.pace.clock) == w.book.pace && w.book.pace.clock <= w'.book.pace.clock
    ensures Timely(c, w')
  {
    if !w'.book.pace.ahead {
      forall s ensures PresentAt(w', s) { assert PresentAt(w, s); }
    }
  }

  lemma TickKeepsInv(c: Setting, w: World, clock: nat)
    requires Inv(c, w) && clock >= w.book.pace.clock
    ensures Inv(c, AfterTick(w, clock))
  {
    InvParts(c, w);
    var w' := AfterTick(w, clock);
    CatalogFrame(c, w, w');
    ViewsDoNotCount(c, w, w');
    SameTime(c, w, w');
    InvWhole(c, AfterTick(w, clock));
  }

  // ---------- what inserts leave alone ----------

  ghost predicate AllArmed(c: Setting, db: Db) {
    forall m :: c.Listed(m) ==> V2Name(m) in db.views
  }

  ghost predicate LaterPace(p: Pace, p': Pace) {
    p'.grace == p.grace && p.clock <= p'.clock && p.lag <= p'.lag && (p.ahead ==> p'.ahead)
  }

  /** Between two statements only source inserts happen, and time passes. */
  ghost predicate Calm(w: World, w': World) {
    && w'.log == w.log
    && w'.db.views == w.db.views && w'.db.columns == w.db.columns
    && w'.db.tables.Keys == w.db.tables.Keys
    && w'.db.sources.Keys == w.db.sources.Keys
    && w'.book.(missed := w.book.missed, late := w.book.late, arrived := w.book.arrived, pace := w.book.pace) == w.book
    && (w.book.late ==> w'.book.late)
    && LaterPace(w.book.pace, w'.book.pace)
    && w.book.arrived <= w'.book.arrived
    && (w.book.arrived == w'.book.arrived ==> w' == AfterTick(w, w'.book.pace.clock))
    && (AllCopied(w.Defs(), w.db.views) ==> w'.book.missed == w.book.missed)
    && (forall t :: TableGrows(w, w', t))
    && (forall s :: SourceGrows(w, w', s))
    && (forall m, e :: SettledAt(w, w', m, e))
  }

  ghost predicate TableGrows(w: World, w': World, t: string) {
    t in w.db.tables ==> t in w'.db.tables && w.db.tables[t] <= w'.db.tables[t]
  }

  ghost predicate SourceGrows(w: World, w': World, s: string) {
    s in w.db.sources ==> s in w'.db.sources && w.db.sources[s] <= w'.db.sources[s]
  }

  /** With no late row, the history before T is the same in both worlds. */
  ghost predicate SettledAt(w: World, w': World, m: string, e: Event) {
    w.book.drained && Bounded(w) && !w'.book.late && m in w.Defs() && e.time < T(w) ==>
      Seen(w', m, e) == Seen(w, m, e)
  }

  lemma ArrivalGrows(c: Setting, w: World, source: string, batch: seq<Event>)
    ensures forall t :: TableGrows(w, AfterArrival(c, w, source, batch), t)
    ensures forall s :: SourceGrows(w, AfterArrival(c, w, source, batch), s)
  {
  }

  lemma ArrivalSettles(c: Setting, w: World, source: string, batch: seq<Event>, m: string, e: Event)
    ensures SettledAt(w, AfterArrival(c, w, source, batch), m, e)
  {
    var w' := AfterArrival(c, w, source, batch);
    if !Refuses(w.db, source) && w.book.drained && Bounded(w) && !w'.book.late && m in w.Defs() && e.time < T(w) {
      NotLate(c, w, source, batch, m, e);
    }
  }

  lemma ArrivalIsCalm(c: Setting, w: World, source: string, batch: seq<Event>)
    ensures Calm(w, AfterArrival(c, w, source, batch))
  {
    var w' := AfterArrival(c, w, source, batch);
    ArrivalGrows(c, w, source, batch);
    forall m, e ensures SettledAt(w, w', m, e) { ArrivalSettles(c, w, source, batch, m, e); }
    if AllCopied(w.Defs(), w.db.views) && Bounded(w) { assert Unarmed(c, w) == map[]; }
  }

  lemma TickIsCalm(w: World, clock: nat)
    requires clock >= w.book.pace.clock
    ensures Calm(w, AfterTick(w, clock))
  {
  }

  lemma CalmReflexive(w: World)
    ensures Calm(w, w)
  {
  }

  lemma CalmTransitive(w0: World, w1: World, w2: World)
    requires Calm(w0, w1) && Calm(w1, w2)
    ensures Calm(w0, w2)
  {
    forall m, e ensures SettledAt(w0, w2, m, e) {
      assert SettledAt(w0, w1, m, e) && SettledAt(w1, w2, m, e);
    }
    forall t ensures TableGrows(w0, w2, t) {
      assert TableGrows(w0, w1, t) && TableGrows(w1, w2, t);
    }
    forall s ensures SourceGrows(w0, w2, s) {
      assert SourceGrows(w0, w1, s) && SourceGrows(w1, w2, s);
    }
  }

  lemma TickAfterCalm(c: Setting, w0: World, w: World, clock: nat)
    requires Calm(w0, w) && Inv(c, w) && clock >= w.book.pace.clock
    ensures Calm(w0, AfterTick(w, clock)) && Inv(c, AfterTick(w, clock))
  {
    TickKeepsInv(c, w, clock);
    TickIsCalm(w, clock);
    CalmTransitive(w0, w, AfterTick(w, clock));
  }

  // ---------- CREATE TABLE IF NOT EXISTS v2 ----------

  function CreateTable(db: Db, table: string): Db {
    if table in db.tables then db else db.(tables := db.tables[table := multiset{}])
  }

  /** Does every copy that is there fit a new table built from defs? */
  ghost predicate CopiesFit(c: Setting, w: World, defs: map<string, MV>) {
    forall m :: m in c.names ==> FitsAt(c, w, defs, m)
  }

  /** What the table is built from once c has come to it: to a table that is being filled, c adds
      the views it lists and the table lacks. */
  ghost function Joined(c: Setting, w: World): Build {
    if HasV2(c, w) && Bounded(w) then w.book.build.(defs := c.defs + w.Defs()) else c.Own()
  }

  ghost predicate KeyedAfter(c: Setting, w: World) {
    (HasV2(c, w) ==> w.book.keyed) && c.Keyed() && Distinguished(Joined(c, w).defs.Keys)
  }

  /** What the copies of views new to the table can no longer capture. */
  ghost function PassedBy(c: Setting, w: World, names: set<string>): multiset<Row> {
    if Bounded(w) then Truth(c, c.defs, w.db, names, From(T(w))) else multiset{}
  }

  /** CREATE TABLE IF NOT EXISTS.  A table in an epoch without boundary is empty, and built by
      whoever comes to it. */
  ghost function AfterCreate(c: Setting, w: World): World {
    if HasV2(c, w) && Bounded(w) then
      w.(book := w.book.(
        build := Joined(c, w),
        missed := w.book.missed + PassedBy(c, w, c.defs.Keys - w.Defs().Keys),
        keyed := KeyedAfter(c, w),
        armed := if c.defs.Keys <= w.Defs().Keys then w.book.armed else None))
    else if HasV2(c, w) then w.(book := w.book.(build := c.Own(), keyed := KeyedAfter(c, w), armed := None))
    else World(
      CreateTable(w.db, c.V2()),
      w.log,
      Book(c.Own(), [], [], Completed(w.log), multiset{}, PassedBy(c, w, c.defs.Keys),
           false, false, None, false, w.book.arrived, w.book.pace.(lag := 0, grace := 0),
           !CopiesFit(c, w, c.defs), KeyedAfter(c, w), None))
  }

  lemma JoinedNames(c: Setting, w: World)
    requires HasV2(c, w) && Bounded(w)
    ensures AfterCreate(c, w).Defs().Keys == w.Defs().Keys + c.defs.Keys
  {
  }

  /** May c run on this log? */
  ghost predicate Guarded(c: Setting, log: seq<Record>) {
    log == [] || Last(log).hash == c.spec.hash
  }

  lemma CreateKeepsCapture(c: Setting, w: World)
    requires Capture(c, w) && !(HasV2(c, w) && Bounded(w)) && AllGrounded(c.defs, w.db)
    ensures Capture(c, AfterCreate(c, w))
  {
    var w' := AfterCreate(c, w);
    forall m, e ensures CaptureAt(c, w', m, e) {
      if Bounded(w) && m in c.defs && e.time >= T(w) {
        assert w'.db.tables[c.V2()] == multiset{};
        assert PassedBy(c, w, c.defs.Keys)[Row(m, e)] == Seen(w', m, e);
      }
    }
    forall r ensures RowAt(c, w', r) {
      assert RowAt(c, w, r);
      if Bounded(w) {
        assert PassedBy(c, w, c.defs.Keys)[r] > 0 ==> r.mv in c.defs && r.event.time >= T(w);
      }
    }
  }

  lemma CreateKeepsCatalog(c: Setting, w: World)
    requires Catalog(c, w) && !(HasV2(c, w) && Bounded(w)) && AllGrounded(c.defs, w.db)
    ensures Catalog(c, AfterCreate(c, w))
  {
    var w' := AfterCreate(c, w);
    forall n ensures ViewAt(c, w', n) { assert ViewAt(c, w, n); }
    forall m ensures ArmedAt(c, w', m) { assert ArmedAt(c, w, m); }
    forall m ensures LiveAt(c, w', m) { assert LiveAt(c, w, m); }
    forall m ensures OwnAt(c, w', m) { assert OwnAt(c, w, m); }
    forall m ensures KeptAt(c, w', m) { assert OwnAt(c, w, m); }
    forall m | m in c.defs ensures Grounded(w'.Defs(), w'.db, m) { assert Grounded(c.defs, w.db, m); }
  }

  // ---------- and when the table is there already ----------

  /** Coming to a table that is being filled. */
  ghost predicate Joins(c: Setting, w: World) {
    && c.Sound() && Ownership(c, w) && Catalog(c, w) && HasV2(c, w) && Bounded(w)
    && AllGrounded(c.defs, w.db) && c.spec.hash == w.book.build.hash
  }

  lemma JoinKeepsCatalog(c: Setting, w: World)
    requires Joins(c, w)
    ensures Catalog(c, AfterCreate(c, w))
  {
    var w' := AfterCreate(c, w);
    forall n ensures ViewAt(c, w', n) { assert ViewAt(c, w, n); }
    forall m ensures ArmedAt(c, w', m) { assert ArmedAt(c, w, m); }
    forall m ensures LiveAt(c, w', m) { assert LiveAt(c, w, m); }
    forall m ensures OwnAt(c, w', m) { assert OwnAt(c, w, m); }
    forall m ensures KeptAt(c, w', m) { assert OwnAt(c, w, m) && KeptAt(c, w, m); }
    forall m | m in w'.Defs() ensures Grounded(w'.Defs(), w'.db, m) {
      assert if m in w.Defs() then Grounded(w.Defs(), w.db, m) else Grounded(c.defs, w.db, m);
    }
  }

  lemma JoinKeepsOwnership(c: Setting, w: World)
    requires Joins(c, w)
    ensures Ownership(c, AfterCreate(c, w)) && Mine(c, AfterCreate(c, w))
  {
    var w' := AfterCreate(c, w);
    forall m ensures BuiltAt(c, w'.book.build, m) {
      assert BuiltAt(c, w.book.build, m);
      if m in c.defs { assert c.Proper(m, c.defs[m]) && c.SuppliedAt(m); }
    }
    forall m ensures AgreesAt(c, w'.Defs(), m) { assert AgreesAt(c, w.Defs(), m); }
  }

  lemma JoinKeepsCapture(c: Setting, w: World)
    requires Capture(c, w) && Joins(c, w)
    ensures Capture(c, AfterCreate(c, w))
  {
    var w' := AfterCreate(c, w);
    forall m, e ensures CaptureAt(c, w', m, e) { assert CaptureAt(c, w, m, e) && RowAt(c, w, Row(m, e)); }
    forall r ensures RowAt(c, w', r) { assert RowAt(c, w, r); }
  }

  lemma JoinKeepsHistory(c: Setting, w: World)
    requires Capture(c, w) && History(c, w) && Joins(c, w)
    ensures History(c, AfterCreate(c, w))
  {
    var w' := AfterCreate(c, w);
    forall m, e ensures BackfillAt(c, w', m, e) {
      assert BackfillAt(c, w, m, e);
      if m !in w.Defs() && Tracked(c, w) && e.time < T(w) {
        assert RowAt(c, w, Row(m, e));
        NotTaken(c, w, m, e);
      }
    }
    forall i ensures FoundAt(c, w', i) { assert FoundAt(c, w, i); }
  }

  lemma NotTaken(c: Setting, w: World, m: string, e: Event)
    requires History(c, w) && HasV2(c, w) && Bounded(w) && m !in w.Defs()
    ensures Taken(c.hash, w.book.ledger, w.book.found, m, T(w), e) == 0
  {
    forall i | 0 <= i < |w.book.ledger| ensures w.book.ledger[i].mv != m { assert FoundAt(c, w, i); }
    TakenAlike(c.hash, w.book.ledger, w.book.found, m, T(w), e, 0);
  }

  lemma JoinKeepsRest(c: Setting, w: World)
    requires Joins(c, w) && Ledger(c, w) && Timely(c, w) && InPlace(c, w) && Tuned(c, w)
    ensures var w' := AfterCreate(c, w); Ledger(c, w') && Timely(c, w') && InPlace(c, w') && Tuned(c, w')
  {
    var w' := AfterCreate(c, w);
    forall cursor ensures CursorAt(c, w', cursor) { assert CursorAt(c, w, cursor); }
    SameTime(c, w, w');
    if !w'.book.late && !w'.book.retuned {
      forall k | k in w'.book.ledger
        ensures w'.book.tuning.Some? && Planned(c, w', k, w'.book.tuning.value)
      {
        assert Planned(c, w, k, w.book.tuning.value);
      }
    }
    if c.defs.Keys <= w.Defs().Keys { NothingNew(c, w); }
  }

  /** A caller that lists nothing new changes nothing but the note on its names. */
  lemma NothingNew(c: Setting, w: World)
    requires HasV2(c, w) && Bounded(w) && c.defs.Keys <= w.Defs().Keys
    ensures AfterCreate(c, w) == w.(book := w.book.(keyed := KeyedAfter(c, w)))
  {
    assert c.defs + w.Defs() == w.Defs();
    assert c.defs.Keys - w.Defs().Keys == {};
  }

  lemma JoinKeepsInv(c: Setting, w: World)
    requires Inv(c, w) && HasV2(c, w) && Bounded(w) && AllGrounded(c.defs, w.db) && Guarded(c, w.log)
    ensures Inv(c, AfterCreate(c, w)) && Mine(c, AfterCreate(c, w))
  {
    InvParts(c, w);
    JoinKeepsCatalog(c, w);
    JoinKeepsOwnership(c, w);
    JoinKeepsCapture(c, w);
    JoinKeepsHistory(c, w);
    JoinKeepsRest(c, w);
    InvWhole(c, AfterCreate(c, w));
  }

  /** An empty v2 table with an empty ledger satisfies the backfill clauses. */
  lemma FreshTable(c: Setting, w: World)
    requires HasV2(c, w) && w.db.tables[c.V2()] == multiset{} && w.book.ledger == [] && w.book.found == []
    requires !w.book.drained && w.book.base == Completed(w.log) && w.book.torn == multiset{}
    requires w.book.keyed ==> Distinguished(w.Defs().Keys)
    ensures History(c, w) && Ledger(c, w) && Tuned(c, w)
  {
  }

  /** Nor does an unbounded one say anything. */
  lemma UnboundedTable(c: Setting, w: World, w': World)
    requires Capture(c, w) && History(c, w) && Ledger(c, w) && !Bounded(w)
    requires w' == w.(book := w.book.(build := c.Own(), keyed := KeyedAfter(c, w), armed := None))
    ensures History(c, w') && Ledger(c, w') && Tuned(c, w')
  {
    forall i ensures FoundAt(c, w', i) {}
    forall cursor ensures CursorAt(c, w', cursor) { assert CursorAt(c, w, cursor); }
  }

  lemma CreateKeepsInv(c: Setting, w: World)
    requires Inv(c, w) && AllGrounded(c.defs, w.db) && Guarded(c, w.log)
    ensures Inv(c, AfterCreate(c, w)) && Mine(c, AfterCreate(c, w))
  {
    InvParts(c, w);
    var w' := AfterCreate(c, w);
    if HasV2(c, w) && Bounded(w) {
      JoinKeepsInv(c, w);
    } else {
      CreateKeepsCatalog(c, w);
      CreateKeepsCapture(c, w);
      BoundedNotEmpty(w.log);
      if HasV2(c, w) {
        UnboundedTable(c, w, w');
        SameTime(c, w, w');
      } else {
        FreshTable(c, w');
        FreshTime(c, w, w');
      }
      OwnIsWellBuilt(c);
      InvWhole(c, w');
    }
  }

  lemma OwnIsWellBuilt(c: Setting)
    requires c.Sound()
    ensures WellBuilt(c, c.Own())
  {
    forall m ensures BuiltAt(c, c.Own(), m) {
      if m in c.defs { assert c.Proper(m, c.defs[m]) && c.SuppliedAt(m); }
    }
  }

  lemma BoundedNotEmpty(log: seq<Record>)
    ensures Boundary(log).Some? ==> log != [] && Last(log).phase != Aborted
  {
  }

  lemma FreshTime(c: Setting, w: World, w': World)
    requires Timely(c, w) && w'.db.sources == w.db.sources && !w'.book.drained && !w'.book.late
    requires w'.book.pace.clock == w.book.pace.clock && w'.book.pace.ahead == w.book.pace.ahead
    ensures Timely(c, w')
  {
    if !w'.book.pace.ahead {
      forall s ensures PresentAt(w', s) { assert PresentAt(w, s); }
    }
  }

  // ---------- appending a record ----------

  ghost predicate SetsBoundary(w: World, r: Record) {
    !Bounded(w) && r.phase != Aborted && ParseBoundary(r.detail).Some?
  }

  ghost predicate Drains(w: World, r: Record) {
    r.phase == LagDrained && !w.book.drained
  }

  ghost function AfterAppend(c: Setting, w: World, r: Record): World {
    World(
      w.db,
      w.log + [r],
      w.book.(
        torn := if CompletesChunk(r) then w.book.torn - multiset{r.cursor} else w.book.torn,
        missed :=
          if SetsBoundary(w, r) && HasV2(c, w)
          then Truth(c, w.Defs(), w.db, w.Defs().Keys, From(ParseBoundary(r.detail).value))
          else w.book.missed,
        drained := w.book.drained || r.phase == LagDrained,
        pace :=
          if Drains(w, r) && Bounded(w) && w.book.pace.clock >= T(w)
          then w.book.pace.(grace := w.book.pace.clock - T(w))
          else w.book.pace))
  }

  /** Records of a run are appended to a log of the same hash, while its own table is there;
      lag-drain after T; a chunk only once. */
  ghost predicate Appendable(c: Setting, w: World, r: Record) {
    && Fits(w.log, r)
    && r.phase != Aborted && r.hash == c.spec.hash
    && (HasV2(c, w) ==> Mine(c, w))
    && (SetsBoundary(w, r) ==> HasV2(c, w))
    && (r.phase == LagDrained ==> Bounded(w) && T(w) <= w.book.pace.clock)
    && (CompletesChunk(r) && HasV2(c, w) && w.book.keyed ==>
          r.cursor !in Completed(w.log) && r.cursor in w.book.torn)
  }

  /** The first record of a run, which sets nothing. */
  lemma CreatedFits(c: Setting, w: World)
    requires Guarded(c, w.log) && Mine(c, w) && c.spec.hash != ""
    ensures Appendable(c, w, Record(c.spec.hash, Created, Done, "", ""))
    ensures Boundary(w.log + [Record(c.spec.hash, Created, Done, "", "")]) == Boundary(w.log)
  {
    BoundaryAppend(w.log, Record(c.spec.hash, Created, Done, "", ""));
    assert !HasPrefix("", "T=");
  }

  lemma AppendKeepsCatalog(c: Setting, w: World, r: Record)
    requires Catalog(c, w) && r.phase != Aborted
    ensures Catalog(c, AfterAppend(c, w, r))
  {
    var w' := AfterAppend(c, w, r);
    BoundaryAppend(w.log, r);
    forall n ensures ViewAt(c, w', n) { assert ViewAt(c, w, n); }
    forall m ensures ArmedAt(c, w', m) { assert ArmedAt(c, w, m); }
    SameViewClauses(c, w, w');
  }

  lemma AppendKeepsCapture(c: Setting, w: World, r: Record)
    requires Catalog(c, w) && Capture(c, w) && r.phase != Aborted
    ensures Capture(c, AfterAppend(c, w, r))
  {
    var w' := AfterAppend(c, w, r);
    BoundaryAppend(w.log, r);
    forall m, e ensures CaptureAt(c, w', m, e) {
      assert CaptureAt(c, w, m, e);
      assert RowAt(c, w, Row(m, e));
    }
    forall row ensures RowAt(c, w', row) { assert RowAt(c, w, row); }
  }

  /** Before the boundary is set nothing was copied and nothing is held. */
  lemma NothingHeldYet(c: Setting, w: World, m: string, e: Event)
    requires Capture(c, w) && History(c, w) && Tracked(c, w) && !Bounded(w)
    ensures Held(c, w, m, e) == 0 && w.book.ledger == []
  {
    assert RowAt(c, w, Row(m, e));
  }

  lemma AppendKeepsHistory(c: Setting, w: World, r: Record)
    requires Catalog(c, w) && Capture(c, w) && History(c, w)
    requires r.phase != Aborted && (r.phase == LagDrained ==> Bounded(w))
    ensures History(c, AfterAppend(c, w, r))
  {
    var w' := AfterAppend(c, w, r);
    BoundaryAppend(w.log, r);
    forall m, e ensures BackfillAt(c, w', m, e) {
      assert BackfillAt(c, w, m, e);
      if Tracked(c, w) && !Bounded(w) { NothingHeldYet(c, w, m, e); }
    }
    forall i ensures FoundAt(c, w', i) {
      assert FoundAt(c, w, i);
      if HasV2(c, w) && !Bounded(w) { assert w.book.ledger == []; }
    }
  }

  lemma AppendKeepsLedger(c: Setting, w: World, r: Record)
    requires Catalog(c, w) && Ledger(c, w)
    requires CompletesChunk(r) && HasV2(c, w) && w.book.keyed ==>
          r.cursor !in Completed(w.log) && r.cursor in w.book.torn
    ensures Ledger(c, AfterAppend(c, w, r))
  {
    var w' := AfterAppend(c, w, r);
    CompletedAppend(w.log, r);
    forall cursor ensures CursorAt(c, w', cursor) {
      assert CursorAt(c, w, cursor);
    }
  }

  lemma AppendKeepsTuned(c: Setting, w: World, r: Record)
    requires Catalog(c, w) && History(c, w) && Tuned(c, w) && r.phase != Aborted
    ensures Tuned(c, AfterAppend(c, w, r))
  {
    var w' := AfterAppend(c, w, r);
    BoundaryAppend(w.log, r);
    if HasV2(c, w') && !w'.book.late && !w'.book.retuned {
      forall k | k in w'.book.ledger
        ensures w'.book.tuning.Some? && Planned(c, w', k, w'.book.tuning.value)
      {
        assert Planned(c, w, k, w.book.tuning.value);
      }
    }
  }

  lemma AppendKeepsTimely(c: Setting, w: World, r: Record)
    requires Catalog(c, w) && Timely(c, w) && History(c, w) && Appendable(c, w, r)
    ensures Timely(c, AfterAppend(c, w, r))
  {
    var w' := AfterAppend(c, w, r);
    BoundaryAppend(w.log, r);
    if !w'.book.pace.ahead {
      forall s ensures PresentAt(w', s) { assert PresentAt(w, s); }
    }
  }

  lemma AppendKeepsInv(c: Setting, w: World, r: Record)
    requires Inv(c, w) && Appendable(c, w, r)
    ensures Inv(c, AfterAppend(c, w, r))
  {
    InvParts(c, w);
    ShapeAppend(w.log, r);
    AppendKeepsCatalog(c, w, r);
    AppendKeepsCapture(c, w, r);
    AppendKeepsHistory(c, w, r);
    AppendKeepsLedger(c, w, r);
    AppendKeepsTuned(c, w, r);
    AppendKeepsTimely(c, w, r);
    BoundaryAppend(w.log, r);
    InvWhole(c, AfterAppend(c, w, r));
  }

  /** An abort is recorded once the v2 table is gone, whoever built it. */
  lemma AppendAbortKeepsInv(c: Setting, w: World, r: Record)
    requires Inv(c, w) && r.phase == Aborted && Fits(w.log, r)
    requires !HasV2(c, w)
    ensures Inv(c, AfterAppend(c, w, r))
  {
    InvParts(c, w);
    var w' := AfterAppend(c, w, r);
    ShapeAppend(w.log, r);
    BoundaryAppend(w.log, r);
    forall n ensures ViewAt(c, w', n) { assert ViewAt(c, w, n); }
    forall m ensures ArmedAt(c, w', m) { assert ArmedAt(c, w, m); }
    SameViewClauses(c, w, w');
    forall i ensures FoundAt(c, w', i) {}
    if !w'.book.pace.ahead {
      forall s ensures PresentAt(w', s) { assert PresentAt(w, s); }
    }
    InvWhole(c, AfterAppend(c, w, r));
  }

  // ---------- CREATE MATERIALIZED VIEW IF NOT EXISTS m_v2 ----------

  function CreateView(db: Db, name: string, v: View): Db {
    if name in db.views then db else db.(views := db.views[name := v])
  }

  ghost function WithDb(w: World, db: Db): World { w.(db := db) }

  /** The time is noted when the last copy is put in place. */
  ghost function AfterArm(c: Setting, w: World, m: string): World
    requires Bounded(w) && m in c.defs
  {
    Noting(WithDb(w, CreateView(w.db, V2Name(m), Armed(c, c.defs, m, T(w)))))
  }

  /** armed says since when every copy has been in place. */
  ghost function Noting(w: World): World { w.(book := w.book.(armed := InPlaceAt(w))) }

  ghost function InPlaceAt(w: World): Option<nat> {
    if !Bounded(w) || !AllCopied(w.Defs(), w.db.views) then None
    else if w.book.armed.Some? then w.book.armed
    else Some(w.book.pace.clock)
  }

  /** While the clock has not reached T and no event was ever ahead of it, nothing is missed. */
  lemma NothingMissedYet(c: Setting, w: World)
    requires Capture(c, w) && Timely(c, w) && Tracked(c, w) && Bounded(w)
    requires !w.book.pace.ahead && w.book.pace.clock < T(w)
    ensures w.book.missed == multiset{}
  {
    forall r: Row ensures w.book.missed[r] == 0 {
      assert RowAt(c, w, r) && CaptureAt(c, w, r.mv, r.event);
      if Seen(w, r.mv, r.event) > 0 { SeenIsPresent(c, w, r.mv, r.event); }
    }
  }

  lemma SeenIsPresent(c: Setting, w: World, m: string, e: Event)
    requires Timely(c, w) && !w.book.pace.ahead && Seen(w, m, e) > 0
    ensures e.time <= w.book.pace.clock
  {
    assert PresentAt(w, w.Defs()[m].source);
  }

  lemma ArmKeepsCatalog(c: Setting, w: World, m: string)
    requires c.Sound() && Ownership(c, w) && Catalog(c, w) && HasV2(c, w) && Bounded(w) && c.Listed(m) && m in c.defs
    requires Mine(c, w)
    ensures Catalog(c, AfterArm(c, w, m))
  {
    var w' := AfterArm(c, w, m);
    assert m in Names(c) && AgreesAt(c, w.Defs(), m);
    forall n ensures ViewAt(c, w', n) { assert ViewAt(c, w, n); }
    forall x ensures ArmedAt(c, w', x) {
      assert ArmedAt(c, w, x);
      if V2Name(x) == V2Name(m) { assert V2Name(x)[..|x|] == V2Name(m)[..|m|]; }
    }
    forall x | x in w.Defs() ensures x in c.names { DefName(c, w, x); }
    forall x | x in c.names ensures x != V2Name(m) { assert c.ApartAt(x, m); }
    SameViewClauses(c, w, w');
  }

  lemma ArmKeepsInPlace(c: Setting, w: World, m: string)
    requires Capture(c, w) && Timely(c, w) && InPlace(c, w) && Bounded(w) && m in c.defs
    ensures InPlace(c, AfterArm(c, w, m))
  {
    if Tracked(c, w) && !w.book.pace.ahead && w.book.pace.clock < T(w) { NothingMissedYet(c, w); }
  }

  lemma ArmKeepsInv(c: Setting, w: World, m: string)
    requires Inv(c, w) && HasV2(c, w) && Bounded(w) && c.Listed(m) && m in c.defs && Mine(c, w)
    ensures Inv(c, AfterArm(c, w, m))
  {
    InvParts(c, w);
    var w' := AfterArm(c, w, m);
    ArmKeepsCatalog(c, w, m);
    ArmKeepsInPlace(c, w, m);
    ViewsDoNotCount(c, w, w');
    SameTime(c, w, w');
    InvWhole(c, AfterArm(c, w, m));
  }

  // ---------- DROP VIEW IF EXISTS, DROP TABLE IF EXISTS ----------

  function DropView(db: Db, name: string): Db {
    db.(views := db.views - {name})
  }

  ghost function AfterDropView(w: World, name: string): World {
    Noting(WithDb(w, DropView(w.db, name)))
  }

  lemma DropViewKeepsCatalog(c: Setting, w: World, name: string)
    requires Catalog(c, w)
    ensures Catalog(c, AfterDropView(w, name))
  {
    var w' := AfterDropView(w, name);
    forall n ensures ViewAt(c, w', n) { assert ViewAt(c, w, n); }
    forall m ensures ArmedAt(c, w', m) { assert ArmedAt(c, w, m); }
    SameViewClauses(c, w, w');
  }

  lemma DropViewKeepsInPlace(c: Setting, w: World, name: string)
    requires Capture(c, w) && Timely(c, w) && InPlace(c, w)
    ensures InPlace(c, AfterDropView(w, name))
  {
    if Tracked(c, w) && Bounded(w) && !w.book.pace.ahead && w.book.pace.clock < T(w) { NothingMissedYet(c, w); }
  }

  lemma DropViewKeepsInv(c: Setting, w: World, name: string)
    requires Inv(c, w)
    ensures Inv(c, AfterDropView(w, name))
  {
    InvParts(c, w);
    var w' := AfterDropView(w, name);
    DropViewKeepsCatalog(c, w, name);
    DropViewKeepsInPlace(c, w, name);
    ViewsDoNotCount(c, w, w');
    SameTime(c, w, w');
    InvWhole(c, AfterDropView(w, name));
  }

  /** No listed view has a copy. */
  ghost predicate NoV2View(c: Setting, db: Db) {
    forall m :: c.Listed(m) ==> V2Name(m) !in db.views
  }

  function DropTable(db: Db, table: string): Db {
    db.(tables := db.tables - {table})
  }

  /** Without the v2 table copies may be left that feed it, and nothing else changes. */
  lemma DropTableKeepsInv(c: Setting, w: World)
    requires Inv(c, w)
    ensures Inv(c, WithDb(w, DropTable(w.db, c.V2())))
  {
    InvParts(c, w);
    var w' := WithDb(w, DropTable(w.db, c.V2()));
    NoTableNoClaim(c, w, w');
    SameTime(c, w, w');
    InvWhole(c, WithDb(w, DropTable(w.db, c.V2())));
  }

  /** Without a v2 table the accounting clauses say nothing. */
  lemma NoTableNoClaim(c: Setting, w: World, w': World)
    requires Catalog(c, w) && History(c, w) && !HasV2(c, w') && w'.book == w.book && w'.log == w.log
    requires w'.db.views == w.db.views && w.db.tables.Keys - {c.V2()} <= w'.db.tables.Keys
    ensures Catalog(c, w') && Capture(c, w') && History(c, w') && Ledger(c, w') && InPlace(c, w') && Tuned(c, w')
  {
    forall n ensures ViewAt(c, w', n) { assert ViewAt(c, w, n); }
    forall m ensures ArmedAt(c, w', m) { assert ArmedAt(c, w, m); }
    SameViewClauses(c, w, w');
    forall i ensures FoundAt(c, w', i) {}
  }

  // ---------- RENAME target TO backup, v2 TO target ----------

  predicate CanRename(db: Db, target: string, v2: string, backup: string) {
    target in db.tables && v2 in db.tables && backup !in db.tables && backup !in db.sources
  }

  function Rename(db: Db, target: string, v2: string, backup: string): Db
    requires CanRename(db, target, v2, backup)
  {
    db.(tables := (db.tables - {v2})[backup := db.tables[target]][target := db.tables[v2]])
  }

  lemma RenameKeepsInv(c: Setting, w: World, backup: string)
    requires Inv(c, w)
    requires CanRename(w.db, c.spec.targetTable, c.V2(), backup) && backup != c.V2()
    ensures Inv(c, WithDb(w, Rename(w.db, c.spec.targetTable, c.V2(), backup)))
  {
    InvParts(c, w);
    var w' := WithDb(w, Rename(w.db, c.spec.targetTable, c.V2(), backup));
    NoTableNoClaim(c, w, w');
    SameTime(c, w, w');
    InvWhole(c, WithDb(w, Rename(w.db, c.spec.targetTable, c.V2(), backup)));
  }

  lemma RecreateKeepsInv(c: Setting, w: World, m: string)
    requires Inv(c, w) && c.Listed(m) && m in c.defs && c.spec.targetTable in w.db.tables && !HasV2(c, w)
    ensures Inv(c, WithDb(w, CreateView(w.db, m, c.Live(m))))
  {
    InvParts(c, w);
    var w' := WithDb(w, CreateView(w.db, m, c.Live(m)));
    assert m in Names(c) && c.Proper(m, c.defs[m]);
    NoTableNoClaim(c, w, w);
    forall n ensures ViewAt(c, w', n) { assert ViewAt(c, w, n); }
    forall x ensures ArmedAt(c, w', x) { assert ArmedAt(c, w, x) && c.ApartAt(m, x); }
    forall x ensures LiveAt(c, w', x) { assert LiveAt(c, w, x); }
    forall x ensures OwnAt(c, w', x) { assert OwnAt(c, w, x); }
    forall i ensures FoundAt(c, w', i) {}
    SameTime(c, w, w');
    InvWhole(c, WithDb(w, CreateView(w.db, m, c.Live(m))));
  }

  // ---------- one backfill INSERT ----------

  function InsertChunk(h: Hash, db: Db, v2: string, source: string, t: nat, k: Chunk): Db
    requires v2 in db.tables && source in db.sources
  {
    db.(tables := db.tables[v2 := db.tables[v2] + Select(h, k.mv, db.sources[source], k.Rows(t))])
  }

  ghost function AfterChunk(c: Setting, w: World, k: Chunk): World
    requires HasV2(c, w) && Bounded(w) && Grounded(w.Defs(), w.db, k.mv)
  {
    var source := w.Defs()[k.mv].source;
    World(
      InsertChunk(c.hash, w.db, c.V2(), source, T(w), k),
      w.log,
      w.book.(ledger := w.book.ledger + [k], found := w.book.found + [w.db.sources[source]],
              torn := w.book.torn + multiset{k.Cursor()}))
  }

  lemma HeldAfterChunk(c: Setting, w: World, k: Chunk, m: string, e: Event)
    requires HasV2(c, w) && Bounded(w) && Grounded(w.Defs(), w.db, k.mv)
    ensures Held(c, AfterChunk(c, w, k), m, e)
         == Held(c, w, m, e) + (if Copies(c.hash, k, m, T(w), e) then Seen(w, m, e) else 0)
  {
  }

  lemma ChunkKeepsCapture(c: Setting, w: World, k: Chunk)
    requires Capture(c, w) && HasV2(c, w) && Bounded(w) && Grounded(w.Defs(), w.db, k.mv)
    ensures Capture(c, AfterChunk(c, w, k))
  {
    var w' := AfterChunk(c, w, k);
    forall m, e ensures CaptureAt(c, w', m, e) {
      assert CaptureAt(c, w, m, e);
      HeldAfterChunk(c, w, k, m, e);
    }
    forall r ensures RowAt(c, w', r) { assert RowAt(c, w, r); }
  }

  lemma ChunkKeepsHistory(c: Setting, w: World, k: Chunk)
    requires History(c, w) && HasV2(c, w) && Bounded(w) && Grounded(w.Defs(), w.db, k.mv)
    requires w.book.drained
    ensures History(c, AfterChunk(c, w, k))
  {
    var w' := AfterChunk(c, w, k);
    assert Grounded(w.Defs(), w.db, k.mv);
    forall m, e ensures BackfillAt(c, w', m, e) {
      if m in w.Defs() && e.time < T(w) {
        assert BackfillAt(c, w, m, e);
        HeldAfterChunk(c, w, k, m, e);
        TakenAppend(c.hash, w.book.ledger, w.book.found, k, w.db.sources[w.Defs()[k.mv].source], m, T(w), e);
      }
    }
    forall i ensures FoundAt(c, w', i) { assert FoundAt(c, w, i); }
  }

  lemma ChunkKeepsLedger(c: Setting, w: World, k: Chunk)
    requires Ledger(c, w) && HasV2(c, w) && Bounded(w) && Grounded(w.Defs(), w.db, k.mv)
    ensures Ledger(c, AfterChunk(c, w, k))
  {
    forall cursor ensures CursorAt(c, AfterChunk(c, w, k), cursor) {
      assert CursorAt(c, w, cursor);
      RunsAppend(w.book.ledger, k, cursor);
    }
  }

  lemma ChunkKeepsInv(c: Setting, w: World, k: Chunk)
    requires Inv(c, w) && HasV2(c, w) && Bounded(w) && w.book.drained
    requires Grounded(w.Defs(), w.db, k.mv)
    requires !w.book.late && !w.book.retuned ==> w.book.tuning.Some? && Planned(c, w, k, w.book.tuning.value)
    ensures Inv(c, AfterChunk(c, w, k))
  {
    InvParts(c, w);
    CatalogFrame(c, w, AfterChunk(c, w, k));
    ChunkKeepsCapture(c, w, k);
    ChunkKeepsHistory(c, w, k);
    ChunkKeepsLedger(c, w, k);
    ChunkKeepsTuned(c, w, k);
    SameTime(c, w, AfterChunk(c, w, k));
    InvWhole(c, AfterChunk(c, w, k));
  }

  lemma ChunkKeepsTuned(c: Setting, w: World, k: Chunk)
    requires Tuned(c, w) && HasV2(c, w) && Bounded(w) && Grounded(w.Defs(), w.db, k.mv)
    requires !w.book.late && !w.book.retuned ==> w.book.tuning.Some? && Planned(c, w, k, w.book.tuning.value)
    ensures Tuned(c, AfterChunk(c, w, k))
  {
    var w' := AfterChunk(c, w, k);
    if !w'.book.late && !w'.book.retuned {
      forall x | x in w'.book.ledger
        ensures w'.book.tuning.Some? && Planned(c, w', x, w'.book.tuning.value)
      {
        assert Planned(c, w, x, w.book.tuning.value);
      }
    }
  }

  // ---------- the tuning a backfill runs with ----------

  ghost function AfterTuning(w: World, tuning: Config): World {
    w.(book := w.book.(
      tuning := if w.book.tuning.None? then Some(tuning) else w.book.tuning,
      retuned := w.book.retuned || (w.book.tuning.Some? && w.book.tuning.value != tuning)))
  }

  lemma TuningKeepsInv(c: Setting, w: World, tuning: Config)
    requires Inv(c, w)
    ensures Inv(c, AfterTuning(w, tuning))
  {
    InvParts(c, w);
    var w' := AfterTuning(w, tuning);
    CatalogFrame(c, w, w');
    forall m, e ensures CaptureAt(c, w', m, e) { assert CaptureAt(c, w, m, e); }
    forall r ensures RowAt(c, w', r) { assert RowAt(c, w, r); }
    forall m, e ensures BackfillAt(c, w', m, e) { assert BackfillAt(c, w, m, e); }
    forall i ensures FoundAt(c, w', i) { assert FoundAt(c, w, i); }
    forall cursor ensures CursorAt(c, w', cursor) { assert CursorAt(c, w, cursor); }
    SameTime(c, w, w');
    if HasV2(c, w') && !w'.book.late && !w'.book.retuned {
      forall k | k in w'.book.ledger
        ensures w'.book.tuning.Some? && Planned(c, w', k, w'.book.tuning.value)
      {
        assert Planned(c, w, k, w.book.tuning.value);
      }
    }
    InvWhole(c, AfterTuning(w, tuning));
  }

  // ---------- another process takes over ----------

  ghost predicate FutureDated(db: Db, now: nat) {
    exists s, e: Event :: s in db.sources && e in db.sources[s] && e.time > now
  }

  /** The new spec is for the same table, its views are among the names, and what it supplies
      fits them; which views it lists is up to it. */
  ghost predicate SameTarget(c: Setting, spec: Spec) {
    && spec.targetTable == c.spec.targetTable && spec.hash != ""
    && (forall m :: m in spec.mvs ==> m in c.names)
    && forall m :: m in spec.mvs && Supplies(spec.newMVs, m) ==> c.Proper(m, spec.newMVs[m].mv)
  }

  /** While a table is being filled, the hash tells which definitions were supplied for it. */
  ghost predicate HashTells(c: Setting, w: World, spec: Spec) {
    HasV2(c, w) && Bounded(w) && spec.hash == w.book.build.hash ==> spec.newMVs == w.book.build.supplied
  }

  /** The definition of m for a process with this spec: supplied, or the catalog's. */
  ghost function DefOf(c: Setting, spec: Spec, w: World, m: string): MV {
    if Supplies(spec.newMVs, m) then spec.newMVs[m].mv
    else if FromCatalog(spec.newMVs, m) && m in w.db.views then w.db.views[m].def
    else if HasV2(c, w) && m in w.Defs() then w.Defs()[m]
    else MV(m, spec.targetTable, "", "", {})
  }

  ghost function DefsOf(c: Setting, spec: Spec, w: World): map<string, MV> {
    map m | m in spec.mvs :: DefOf(c, spec, w, m)
  }

  /** A process with another spec, at this point. */
  ghost predicate Follows(c: Setting, c': Setting, w: World) {
    && SameTarget(c, c'.spec) && c'.defs == DefsOf(c, c'.spec, w)
    && c'.hash == c.hash && c'.names == c.names
  }

  lemma DefOfIsProper(c: Setting, spec: Spec, w: World, m: string)
    requires Ownership(c, w) && Catalog(c, w) && SameTarget(c, spec) && m in spec.mvs
    ensures c.Proper(m, DefOf(c, spec, w, m))
  {
    assert LiveAt(c, w, m);
    if HasV2(c, w) && m in w.Defs() { DefName(c, w, m); }
  }

  /** With the hash the table is being filled under come its definitions. */
  lemma SameHashSameDefs(c: Setting, c': Setting, w: World)
    requires Ownership(c, w) && Catalog(c, w) && HasV2(c, w) && Bounded(w)
    requires Follows(c, c', w) && HashTells(c, w, c'.spec) && c'.spec.hash == w.book.build.hash
    ensures Agreed(c', w)
  {
    forall m ensures AgreesAt(c', w.Defs(), m) { assert KeptAt(c, w, m) && BuiltAt(c, w.book.build, m); }
  }

  /** The invariant does not depend on who looks: it holds for the next process whatever its
      spec lists and supplies. */
  lemma AttachKeepsInv(c: Setting, c': Setting, w: World)
    requires Inv(c, w) && Follows(c, c', w) && HashTells(c, w, c'.spec)
    ensures Inv(c', w)
  {
    InvParts(c, w);
    AttachIsSound(c, c', w);
    AttachKeepsCatalog(c, c', w);
    AttachKeepsOwnership(c, c', w);
    AttachKeepsRows(c, c', w);
    InvWhole(c', w);
  }

  lemma AttachIsSound(c: Setting, c': Setting, w: World)
    requires c.Sound() && Ownership(c, w) && Catalog(c, w) && Follows(c, c', w)
    ensures c'.Sound()
  {
    forall m | m in c'.defs ensures c'.Proper(m, c'.defs[m]) { DefOfIsProper(c, c'.spec, w, m); }
    forall a, b ensures c'.ApartAt(a, b) { assert c.ApartAt(a, b); }
  }

  lemma AttachKeepsOwnership(c: Setting, c': Setting, w: World)
    requires Ownership(c, w) && Catalog(c, w) && Follows(c, c', w) && HashTells(c, w, c'.spec)
    ensures Ownership(c', w)
  {
    if HasV2(c, w) {
      forall m ensures BuiltAt(c', w.book.build, m) { assert BuiltAt(c, w.book.build, m); }
      if Bounded(w) && c'.spec.hash == w.book.build.hash { SameHashSameDefs(c, c', w); }
    }
  }

  lemma AttachKeepsCatalog(c: Setting, c': Setting, w: World)
    requires Catalog(c, w) && Follows(c, c', w)
    ensures Catalog(c', w)
  {
    forall n ensures ViewAt(c', w, n) { assert ViewAt(c, w, n); }
    forall m ensures ArmedAt(c', w, m) { assert ArmedAt(c, w, m); }
    forall m ensures LiveAt(c', w, m) { assert LiveAt(c, w, m); }
    forall m ensures OwnAt(c', w, m) {}
    forall m ensures KeptAt(c', w, m) { assert KeptAt(c, w, m); }
  }

  lemma AttachKeepsRows(c: Setting, c': Setting, w: World)
    requires Follows(c, c', w) && InPlace(c, w)
    requires Capture(c, w) && History(c, w) && Ledger(c, w) && Timely(c, w) && Tuned(c, w)
    ensures Capture(c', w) && History(c', w) && Ledger(c', w) && Timely(c', w) && InPlace(c', w) && Tuned(c', w)
  {
    forall m, e ensures CaptureAt(c', w, m, e) { assert CaptureAt(c, w, m, e); }
    forall r ensures RowAt(c', w, r) { assert RowAt(c, w, r); }
    forall m, e ensures BackfillAt(c', w, m, e) { assert BackfillAt(c, w, m, e); }
    forall i ensures FoundAt(c', w, i) { assert FoundAt(c, w, i); }
    forall cursor ensures CursorAt(c', w, cursor) { assert CursorAt(c, w, cursor); }
    if HasV2(c', w) && !w.book.late && !w.book.retuned {
      forall k | k in w.book.ledger
        ensures w.book.tuning.Some? && Planned(c', w, k, w.book.tuning.value)
      {
        assert Planned(c, w, k, w.book.tuning.value);
      }
    }
  }
}
