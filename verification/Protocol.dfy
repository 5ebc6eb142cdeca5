/** State of an online rebuild and the invariant that every statement keeps. */
module Protocol {
  import opened Text
  import opened Warehouse
  import opened Journal
  import opened Limits
  import opened Chunks

  // ---------- the spec ----------

  /** A new view definition supplied with the spec, after parsing. */
  datatype NewDef = NoDDL | Unparsable | Defines(mv: MV)

  datatype Spec = Spec(
    name: string,
    targetTable: string,
    newDDL: string,
    retargets: bool,  // does newDDL contain the CREATE TABLE clause to retarget?
    boundaryColumn: string,
    mvs: seq<string>,
    newMVs: map<string, NewDef>,
    validations: seq<string>,
    backfill: Config,
    hash: string)
  {
    predicate Valid() {
      && name != "" && targetTable != "" && newDDL != "" && boundaryColumn != "" && mvs != []
      && forall m :: m in newMVs ==> m in mvs
    }

    function V2Table(): (t: string)
      ensures t != targetTable
    {
      targetTable + "_v2"
    }

    function BackupTable(day: string): (t: string)
      ensures t != targetTable && t != V2Table()
    {
      var t := targetTable + "_backup_" + day;
      assert t[|targetTable| + 1] == 'b' && V2Table()[|targetTable| + 1] == 'v';
      t
    }
  }

  /** Two days give two names, so the old tables of rebuilds cut over on different days are kept
      side by side. */
  lemma BackupsDiffer(s: Spec, day: string, later: string)
    ensures s.BackupTable(day) == s.BackupTable(later) <==> day == later
  {
    var front := s.targetTable + "_backup_";
    assert s.BackupTable(day)[|front|..] == day && s.BackupTable(later)[|front|..] == later;
  }

  function V2Name(mv: string): (n: string)
    ensures |n| == |mv| + 3 && n[..|mv|] == mv
  {
    mv + "_v2"
  }

  /** Does the spec supply a usable definition of m? */
  predicate Supplies(newMVs: map<string, NewDef>, m: string) {
    m in newMVs && newMVs[m].Defines? && newMVs[m].mv.name == m
  }

  /** Is the definition of m read from the catalog? */
  predicate FromCatalog(newMVs: map<string, NewDef>, m: string) {
    m !in newMVs || newMVs[m].NoDDL?
  }

  /** What a v2 table is built from: the spec's hash, the definitions it supplies, and the
      definition of each listed view. */
  datatype Build = Build(hash: string, supplied: map<string, NewDef>, defs: map<string, MV>)

  /** What belongs to one caller: its spec, the view definitions that follow from it, and the
      hash function; names are the views that any spec of the operation may list, this one or
      another.  The v2 table need not be built from this caller's definitions or views. */
  datatype Setting = Setting(spec: Spec, defs: map<string, MV>, hash: Hash, names: set<string>) {
    function V2(): string { spec.V2Table() }

    ghost predicate Listed(m: string) { m in spec.mvs }

    function Own(): Build { Build(spec.hash, spec.newMVs, defs) }

    function Live(m: string): View
      requires m in defs
    {
      View(defs[m], defs[m].target, None)
    }

    /** A definition under its own name that feeds the target. */
    ghost predicate Proper(m: string, d: MV) {
      d.name == m && d.target == spec.targetTable
    }

    /** The names fit together: definitions feed the target under their own name, and no
        name is the armed name of another. */
    ghost predicate Sound() {
      && spec.hash != ""
      && defs.Keys == Names(this) <= names
      && (forall m :: m in defs ==> Proper(m, defs[m]))
      && (forall m :: SuppliedAt(m))
      && (forall a, b :: ApartAt(a, b))
    }

    ghost predicate SuppliedAt(m: string) {
      Listed(m) && Supplies(spec.newMVs, m) ==> m in defs && spec.newMVs[m].mv == defs[m]
    }

    ghost predicate ApartAt(a: string, b: string) {
      a in names && b in names ==> a != V2Name(b)
    }

    /** Cursors tell listed views apart, and no view is listed twice. */
    ghost predicate Keyed() {
      && (forall i, j :: 0 <= i < j < |spec.mvs| ==> spec.mvs[i] != spec.mvs[j])
      && Distinguished(Names(this))
    }
  }

  /** Cursors tell views with these names apart. */
  ghost predicate Distinguished(names: set<string>) {
    forall a, b :: a in names && b in names ==> !Confusable(a, b)
  }

  function Names(c: Setting): set<string> { set m | m in c.spec.mvs }

  // ---------- the state ----------

  /** Time as far as it matters: the clock; the worst lag of an event inserted since
      lag-drain; whether an event was ever inserted before its own time; and how long after
      T lag-drain was recorded. */
  datatype Pace = Pace(clock: nat, lag: nat, ahead: bool, grace: nat)

  /** History, kept only to state what happened: no decision reads it. */
  datatype Book = Book(
    build: Build,             // of the current v2 table
    ledger: seq<Chunk>,       // chunk INSERTs applied to it, in order
    found: seq<seq<Event>>,   // what the source held at each of them
    base: set<string>,        // cursors already complete when it was created
    torn: multiset<string>,   // cursors inserted but not (yet) recorded
    missed: multiset<Row>,    // rows from T on that arrived with no armed copy of their view
    late: bool,               // a row before T arrived after lag-drain was recorded
    drained: bool,            // lag-drain was recorded for this table
    tuning: Option<Config>,   // tuning of the first backfill into it
    retuned: bool,            // a later backfill used another one
    arrived: nat,             // inserts into source tables so far
    pace: Pace,
    stray: bool,              // a copy was there before the table and does not fit it
    keyed: bool,              // every run into it listed distinct views, and cursors tell its views apart
    armed: Option<nat>)       // when the last of its copies was put in place

  /** What a statement can change. */
  datatype World = World(db: Db, log: seq<Record>, book: Book) {
    function Defs(): map<string, MV> { book.build.defs }
  }

  /** Occurrences of event in the source of view m, as defined in defs. */
  ghost function Occurs(defs: map<string, MV>, db: Db, m: string, e: Event): nat {
    if m in defs && defs[m].source in db.sources then multiset(db.sources[defs[m].source])[e] else 0
  }

  /** The same under the definitions that v2 is built from. */
  ghost function Seen(w: World, m: string, e: Event): nat {
    Occurs(w.Defs(), w.db, m, e)
  }

  /** How often the v2 table counts event through view m. */
  ghost function Held(c: Setting, w: World, m: string, e: Event): nat {
    if c.V2() in w.db.tables then w.db.tables[c.V2()][Row(m, e)] else 0
  }

  ghost predicate HasV2(c: Setting, w: World) { c.V2() in w.db.tables }

  /** There is a v2 table, and only copies made for it feed it. */
  ghost predicate Tracked(c: Setting, w: World) { HasV2(c, w) && !w.book.stray }

  ghost predicate Bounded(w: World) { Boundary(w.log).Some? }

  ghost function T(w: World): nat
    requires Bounded(w)
  {
    Boundary(w.log).value
  }

  /** Is m defined and its source there? */
  ghost predicate Grounded(defs: map<string, MV>, db: Db, m: string) {
    m in defs && defs[m].source in db.sources
  }

  ghost predicate AllGrounded(defs: map<string, MV>, db: Db) {
    forall m :: m in defs ==> Grounded(defs, db, m)
  }

  /** Where the caller lists a view that v2 is built from, it has the same definition. */
  ghost predicate AgreesAt(c: Setting, defs: map<string, MV>, m: string) {
    c.Listed(m) && m in c.defs && m in defs ==> defs[m] == c.defs[m]
  }

  /** Does c carry the definitions that v2 is built from, as far as it lists them? */
  ghost predicate Agreed(c: Setting, w: World) {
    && w.book.build.hash == c.spec.hash && w.book.build.supplied == c.spec.newMVs
    && forall m :: AgreesAt(c, w.Defs(), m)
  }

  /** Is the current v2 table built from c's own definitions, possibly among others? */
  ghost predicate Mine(c: Setting, w: World) {
    Agreed(c, w) && Names(c) <= w.Defs().Keys && (w.book.keyed ==> c.Keyed())
  }

  /** Does c list every view that v2 is built from? */
  ghost predicate ListsAll(c: Setting, w: World) { w.Defs().Keys <= Names(c) }

  /** Definitions are only added. */
  ghost predicate Extends(defs: map<string, MV>, defs': map<string, MV>) {
    forall m :: m in defs ==> m in defs' && defs'[m] == defs[m]
  }

  // ---------- the invariant: names and definitions ----------

  /** A view's table exists, unless it is the v2 table; only armed copies feed that. */
  ghost predicate ViewAt(c: Setting, w: World, n: string) {
    n in w.db.views ==>
      && (w.db.views[n].target in w.db.tables || w.db.views[n].target == c.V2())
      && (w.db.views[n].target == c.V2() ==> exists m :: m in c.names && n == V2Name(m))
  }

  /** The copy of view m that captures from t on, under the given definitions. */
  function Armed(c: Setting, defs: map<string, MV>, m: string, t: nat): View
    requires m in defs
  {
    View(defs[m], c.V2(), Some(t))
  }

  /** Is the copy of view m, if there is one, what a table built from defs in this epoch needs? */
  ghost predicate FitsAt(c: Setting, w: World, defs: map<string, MV>, m: string) {
    V2Name(m) in w.db.views ==>
      m in defs && Bounded(w) && w.db.views[V2Name(m)] == Armed(c, defs, m, T(w))
  }

  /** Every copy feeds v2, and one for the present table carries the logged boundary and the
      definition that it is built from. */
  ghost predicate ArmedAt(c: Setting, w: World, m: string) {
    m in c.names ==>
      && (V2Name(m) in w.db.views ==> w.db.views[V2Name(m)].target == c.V2())
      && (Tracked(c, w) ==> FitsAt(c, w, w.Defs(), m))
  }

  /** A live view feeds the target under its own name. */
  ghost predicate LiveAt(c: Setting, w: World, m: string) {
    m in c.names && m in w.db.views ==>
      c.Proper(m, w.db.views[m].def) && w.db.views[m] == View(w.db.views[m].def, c.spec.targetTable, None)
  }

  /** The caller has the definition that the catalog shows. */
  ghost predicate OwnAt(c: Setting, w: World, m: string) {
    FromCatalog(c.spec.newMVs, m) && m in c.defs && m in w.db.views ==> w.db.views[m].def == c.defs[m]
  }

  /** A definition that v2 took from the catalog is still there while the live view is. */
  ghost predicate KeptAt(c: Setting, w: World, m: string) {
    HasV2(c, w) && FromCatalog(w.book.build.supplied, m) && m in w.Defs() && m in w.db.views ==>
      w.db.views[m].def == w.Defs()[m]
  }

  /** No view but a copy is ever left without its table; views have the definitions they should
      have. */
  ghost predicate Catalog(c: Setting, w: World) {
    && (HasV2(c, w) ==> AllGrounded(w.Defs(), w.db))
    && (forall n :: ViewAt(c, w, n))
    && (forall m :: ArmedAt(c, w, m))
    && (forall m :: LiveAt(c, w, m))
    && (forall m :: OwnAt(c, w, m))
    && (forall m :: KeptAt(c, w, m))
  }

  /** The definitions of a table feed the target under their own names, and are those supplied. */
  ghost predicate WellBuilt(c: Setting, b: Build) {
    b.hash != "" && forall m :: BuiltAt(c, b, m)
  }

  ghost predicate BuiltAt(c: Setting, b: Build, m: string) {
    m in b.defs ==>
      m in c.names && c.Proper(m, b.defs[m]) && (Supplies(b.supplied, m) ==> b.supplied[m].mv == b.defs[m])
  }

  /** Who builds v2: in an epoch with a boundary, the specs whose hash the log shows last; and
      a caller with that hash has the same definitions. */
  ghost predicate Ownership(c: Setting, w: World) {
    HasV2(c, w) ==>
      && WellBuilt(c, w.book.build)
      && (Bounded(w) ==>
            && w.log != [] && Last(w.log).hash == w.book.build.hash
            && (c.spec.hash == w.book.build.hash ==> Agreed(c, w)))
  }

  // ---------- the invariant: rows ----------

  /** From T on: what v2 holds and what was missed add up to what the source has. */
  ghost predicate CaptureAt(c: Setting, w: World, m: string, e: Event) {
    Tracked(c, w) && Bounded(w) && m in w.Defs() && e.time >= T(w) ==>
      Held(c, w, m, e) + w.book.missed[Row(m, e)] == Seen(w, m, e)
  }

  ghost predicate RowAt(c: Setting, w: World, r: Row) {
    && (Tracked(c, w) && r in w.db.tables[c.V2()] ==> r.mv in w.Defs() && Bounded(w))
    && (Tracked(c, w) && Bounded(w) && r in w.book.missed ==> r.mv in w.Defs() && r.event.time >= T(w))
  }

  ghost predicate Capture(c: Setting, w: World) {
    && (forall m, e :: CaptureAt(c, w, m, e))
    && (forall r :: RowAt(c, w, r))
  }

  /** Before T: v2 holds each event as often as the INSERTs that copied it found it. */
  ghost predicate BackfillAt(c: Setting, w: World, m: string, e: Event) {
    Tracked(c, w) && Bounded(w) && |w.book.found| == |w.book.ledger| && m in w.Defs() && e.time < T(w) ==>
      Held(c, w, m, e) == Taken(c.hash, w.book.ledger, w.book.found, m, T(w), e)
  }

  /** An INSERT found a beginning of what its source holds now, and without late rows all
      that is there before T. */
  ghost predicate FoundAt(c: Setting, w: World, i: nat) {
    HasV2(c, w) && Bounded(w) && i < |w.book.ledger| && i < |w.book.found| ==>
      var m := w.book.ledger[i].mv;
      && Grounded(w.Defs(), w.db, m)
      && w.book.found[i] <= w.db.sources[w.Defs()[m].source]
      && (!w.book.late ==> forall e: Event :: e.time < T(w) ==> multiset(w.book.found[i])[e] == Seen(w, m, e))
  }

  ghost predicate History(c: Setting, w: World) {
    && |w.book.found| == |w.book.ledger|
    && (forall m, e :: BackfillAt(c, w, m, e))
    && (forall i :: FoundAt(c, w, i))
    && (HasV2(c, w) && w.book.ledger != [] ==> w.book.drained)
    && (HasV2(c, w) && w.book.drained ==> Bounded(w))
  }

  /** Each cursor was run once if recorded since the table exists, plus once per lost record. */
  ghost predicate CursorAt(c: Setting, w: World, cursor: string) {
    HasV2(c, w) && w.book.keyed ==>
      Runs(w.book.ledger, cursor) ==
      (if cursor in Completed(w.log) && cursor !in w.book.base then 1 else 0) + w.book.torn[cursor]
  }

  ghost predicate Ledger(c: Setting, w: World) {
    && (forall cursor :: CursorAt(c, w, cursor))
    && (HasV2(c, w) ==> w.book.base <= Completed(w.log))
    && (HasV2(c, w) && w.book.keyed ==> Distinguished(w.Defs().Keys))
  }

  // ---------- the invariant: time ----------

  /** Nothing lies ahead of the clock. */
  ghost predicate PresentAt(w: World, s: string) {
    s in w.db.sources ==> forall e :: e in w.db.sources[s] ==> e.time <= w.book.pace.clock
  }

  /** Lag-drain is recorded some time after T, and a row that is late all the same lagged more
      than that. */
  ghost predicate Timely(c: Setting, w: World) {
    && (Bounded(w) && w.book.drained ==> T(w) + w.book.pace.grace <= w.book.pace.clock)
    && (w.book.late ==> w.book.drained && w.book.pace.lag > w.book.pace.grace)
    && (!w.book.pace.ahead ==> forall s :: PresentAt(w, s))
  }

  /** Every view v2 is built from has its copy. */
  ghost predicate AllCopied(defs: map<string, MV>, views: map<string, View>) {
    forall m :: m in defs ==> V2Name(m) in views
  }

  /** When the copies were put in place before T and nothing was dated ahead, nothing is missed. */
  ghost predicate InPlace(c: Setting, w: World) {
    HasV2(c, w) && w.book.armed.Some? ==>
      && Bounded(w) && AllCopied(w.Defs(), w.db.views)
      && (Tracked(c, w) && !w.book.pace.ahead && w.book.armed.value < T(w) ==> w.book.missed == multiset{})
  }

  // ---------- the chunk plan ----------

  ghost function DayRows(c: Setting, w: World, m: string, t: nat, val: string): multiset<Row> {
    if Grounded(w.Defs(), w.db, m) then Select(c.hash, m, w.db.sources[w.Defs()[m].source], Day(t, val))
    else multiset{}
  }

  /** The number of sub-chunks planned for one chunk value of one view. */
  ghost function PlanN(c: Setting, w: World, m: string, t: nat, val: string, tuning: Config): int {
    Buckets(|DayRows(c, w, m, t, val)|, tuning.targetRows, tuning.maxBuckets)
  }

  /** Is k a chunk of the plan under this tuning? */
  ghost predicate Planned(c: Setting, w: World, k: Chunk, tuning: Config) {
    && Bounded(w) && Grounded(w.Defs(), w.db, k.mv)
    && k.expr == BucketExpr(w.Defs()[k.mv], tuning.bucketKey)
    && |DayRows(c, w, k.mv, T(w), k.val)| > 0
    && k.n == PlanN(c, w, k.mv, T(w), k.val, tuning)
    && k.b < k.n
  }

  ghost predicate Tuned(c: Setting, w: World) {
    HasV2(c, w) && !w.book.late && !w.book.retuned ==>
      forall k :: k in w.book.ledger ==> w.book.tuning.Some? && Planned(c, w, k, w.book.tuning.value)
  }

  datatype Clause = Naming | LogShape | Views | Owning | Capturing | Backfilling | Cursors | Timing | Arming | Planning

  ghost predicate Holds(c: Setting, w: World, clause: Clause) {
    match clause
    case Naming => c.Sound()
    case LogShape => WellShaped(w.log)
    case Views => Catalog(c, w)
    case Owning => Ownership(c, w)
    case Capturing => Capture(c, w)
    case Backfilling => History(c, w)
    case Cursors => Ledger(c, w)
    case Timing => Timely(c, w)
    case Arming => InPlace(c, w)
    case Planning => Tuned(c, w)
  }

  /** The invariant, clause by clause; InvParts and InvWhole open and close it. */
  ghost predicate Inv(c: Setting, w: World) {
    forall clause :: Holds(c, w, clause)
  }

  /** All clauses at once. */
  ghost predicate Parts(c: Setting, w: World) {
    && c.Sound()
    && WellShaped(w.log)
    && Catalog(c, w)
    && Ownership(c, w)
    && Capture(c, w)
    && History(c, w)
    && Ledger(c, w)
    && Timely(c, w)
    && InPlace(c, w)
    && Tuned(c, w)
  }

  lemma InvParts(c: Setting, w: World)
    requires Inv(c, w)
    ensures Parts(c, w)
  {
    assert Holds(c, w, Naming) && Holds(c, w, LogShape) && Holds(c, w, Views) && Holds(c, w, Owning);
    assert Holds(c, w, Capturing) && Holds(c, w, Backfilling) && Holds(c, w, Cursors);
    assert Holds(c, w, Timing) && Holds(c, w, Arming) && Holds(c, w, Planning);
  }

  lemma InvWhole(c: Setting, w: World)
    requires Parts(c, w)
    ensures Inv(c, w)
  {
    forall clause ensures Holds(c, w, clause) {}
  }

  /** The book of a rebuild that has not started. */
  ghost function EmptyBook(clock: nat, ahead: bool): Book {
    Book(Build("", map[], map[]), [], [], {}, multiset{}, multiset{}, false, false, None, false, 0,
         Pace(clock, 0, ahead, 0), false, false, None)
  }

  /** A rebuild that has not started: no v2 object, empty log. */
  lemma InitialWorld(c: Setting, w: World)
    requires c.Sound() && w.log == [] && !HasV2(c, w)
    requires forall m :: m in c.names ==> V2Name(m) !in w.db.views
    requires forall m :: LiveAt(c, w, m) && OwnAt(c, w, m)
    requires forall n :: n in w.db.views ==> w.db.views[n].target in w.db.tables
    requires exists clock, ahead :: w.book == EmptyBook(clock, ahead) && (!ahead ==> forall s :: PresentAt(w, s))
    ensures Inv(c, w)
  {
    InvWhole(c, w);
  }

  // ---------- all contributions of the sources ----------

  /** What the sources contribute through the given views, as rows passing f. */
  ghost function Truth(c: Setting, defs: map<string, MV>, db: Db, names: set<string>, f: Filter): (rows: multiset<Row>)
    ensures forall r: Row ::
      rows[r] == if r.mv in names && Passes(c.hash, f, r.event) then Occurs(defs, db, r.mv, r.event) else 0
  {
    if names == {} then multiset{}
    else
      var m :| m in names;
      Truth(c, defs, db, names - {m}, f) +
      (if Grounded(defs, db, m) then Select(c.hash, m, db.sources[defs[m].source], f) else multiset{})
  }
}
