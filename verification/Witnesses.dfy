/** Concrete runs that show the failures the contracts allow: each starts from a server on which
    nothing has happened yet and needs no more than the events and the script given here.
    AbortThenRun, TornChunk, ChangedCount, Rekeyed and NegativeLimit end with a v2 that counts
    wrongly although the run reports success; CutOverAgain, CutOverEdited, AbortForgetting and
    CutOverForgetting with a catalog that is not the one meant.  DieAndResume and GoodRebuild
    show that the hypotheses of the positive results can be met, TwoRebuilds that a table can be
    rebuilt again, RebuildAgain that it takes another operation to do so. */
module Witnesses {
  import opened Text
  import opened Warehouse
  import opened Outcomes
  import opened Journal
  import opened Limits
  import opened Chunks
  import opened Protocol
  import opened Statements
  import opened Accounting
  import opened Progress
  import opened Orchestrators
  import opened Operations

  // ---------- one view on one source ----------

  const VIEW := MV("mv", "agg", "src", "k", {})

  function SpecOf(hash: string, newMVs: map<string, NewDef>): Spec {
    Spec("op", "agg", "CREATE TABLE agg", true, "ts", ["mv"], newMVs, [], Config(0, 0, ""), hash)
  }

  const SPEC := SpecOf("A", map[])

  const DEFS: map<string, MV> := map["mv" := VIEW]

  /** The views that the specs below list, and the one of them that feeds the same table from the
      same source but is listed by some only. */
  const NAMES := {"mv", "nv"}

  const OTHER := MV("nv", "agg", "src", "k", {})

  const OPTIONS := Options(0, 0, Config(0, 0, ""))

  /** The source holds these events, and the old table counts each of them once. */
  function ServerWith(events: seq<Event>): Db {
    Db(map["src" := events], map["src" := {"ts"}], map["agg" := Select(MIX, "mv", events, All)],
       map["mv" := View(VIEW, "agg", None)])
  }

  /** A hash for which the expression "k2" swaps even and odd values. */
  function Mix(expr: string, e: Event): nat { if expr == "k2" then e.value + 1 else e.value }

  const MIX: Hash := (expr: string, e: Event) => Mix(expr, e)

  /** Every validation is a count of rows. */
  const COUNT: (string, multiset<Row>) -> string := (expr: string, rows: multiset<Row>) => Dec(|rows|)

  lemma SpecIsSound(spec: Spec, hash: Hash)
    requires spec.(name := "op", backfill := USUAL, validations := []) == SpecOf(spec.hash, map[])
    requires spec.hash != ""
    ensures Setting(spec, DEFS, hash, NAMES).Sound() && Setting(spec, DEFS, hash, NAMES).Keyed()
  {
    var c := Setting(spec, DEFS, hash, NAMES);
    assert spec.mvs == ["mv"];
    assert Names(c) == {"mv"};
    NamesApart(c);
    BarFreeNamesAreSafe("mv", "mv");
  }

  lemma NamesApart(c: Setting)
    requires c.names == NAMES
    ensures forall a, b :: c.ApartAt(a, b)
  {
    forall a, b ensures c.ApartAt(a, b) { assert V2Name("mv") == "mv_v2" && V2Name("nv") == "nv_v2"; }
  }

  /** One of these specs: the name, the tuning and the validations are free. */
  predicate SpecOfOurs(spec: Spec) {
    spec.name != "" && spec == SPEC.(name := spec.name, backfill := spec.backfill, validations := spec.validations)
  }

  /** A process of this setting on a server with these events and the live view in place. */
  ghost predicate Ours(o: Orchestrator, events: seq<Event>)
    reads o
  {
    && o.Ok() && SpecOfOurs(o.spec)
    && o.defs == DEFS && o.names == NAMES && o.hash == MIX && o.eval == COUNT
    && o.db.sources == map["src" := events] && o.db.columns == map["src" := {"ts"}]
    && "mv" in o.db.views && "agg" in o.db.tables
    && (o.log == [] || Last(o.log).hash == "A")
    && Feeders(o.C(), o.db) <= {"mv_v2"}
    && if HasV2(o.C(), o.W()) then !o.book.stray && o.book.keyed && o.book.build.defs == DEFS
       else Feeders(o.C(), o.db) == {}
  }

  /** A run keeps the table, if there is one, this process's own. */
  lemma StillOurs(o: Orchestrator, w0: World, cfg: Config, filled: bool)
    requires o.Ok() && SpecOfOurs(o.spec)
    requires o.defs == DEFS && o.names == NAMES && Inv(o.C(), w0) && Ran(o.C(), w0, o.W(), cfg, filled)
    requires Feeders(o.C(), w0.db) <= {"mv_v2"}
    requires
      if HasV2(o.C(), w0) then !w0.book.stray && w0.book.keyed && w0.Defs() == DEFS else Feeders(o.C(), w0.db) == {}
    ensures Feeders(o.C(), o.db) <= {"mv_v2"}
    ensures
      if HasV2(o.C(), o.W()) then !o.book.stray && o.book.keyed && o.book.build.defs == DEFS
      else Feeders(o.C(), o.db) == {}
  {
    ghost var c := o.C();
    SpecIsSound(o.spec, o.hash);
    InvParts(c, w0);
    assert DEFS + DEFS == DEFS;
    if !HasV2(c, w0) {
      forall m | m in c.names ensures FitsAt(c, w0, DEFS, m) {
        assert ArmedAt(c, w0, m) && V2Name(m) !in Feeders(c, w0.db);
      }
    }
    forall n | n in Feeders(c, o.db)
      ensures n == "mv_v2" && HasV2(c, o.W())
    {
      assert ViewKept(c, w0, o.W(), n);
      if n in w0.db.views { assert n in Feeders(c, w0.db); }
      OurNames(o.spec, n);
    }
  }

  lemma OurNames(spec: Spec, n: string)
    requires spec.mvs == ["mv"]
    ensures CopyName(spec.mvs, n) <==> n == "mv_v2"
  {
    assert V2Name("mv") == "mv_v2" && spec.mvs[0] == "mv";
  }

  lemma OursCanRun(o: Orchestrator, events: seq<Event>)
    requires Ours(o, events)
    ensures o.Startable() && o.C().Keyed() && o.C().V2() == "agg_v2" && o.Available() && o.Distinct(o.spec.mvs)
    ensures o.C().Listed("mv") && Names(o.C()) == {"mv"}
    ensures o.spec.validations == [] ==> forall db :: o.AllAgree(db)
  {
    SpecIsSound(o.spec, MIX);
    assert SPEC.mvs == ["mv"] && SPEC.mvs[0] == "mv";
    assert Resolves(o.db, VIEW, "ts");
  }

  /** A process on a fresh server. */
  method Start(backfill: Config, validations: seq<string>, events: seq<Event>, script: seq<Move>)
    returns (o: Orchestrator)
    ensures fresh(o) && Ours(o, events) && o.log == [] && o.script == script && o.now == 0
    ensures o.db == ServerWith(events) && o.spec.backfill == backfill && o.spec.validations == validations
    ensures o.book == EmptyBook(0, FutureDated(o.db, 0))
  {
    var spec := SPEC.(backfill := backfill, validations := validations);
    SpecIsSound(spec, MIX);
    ghost var c := Setting(spec, DEFS, MIX, NAMES);
    assert V2Name("mv") == "mv_v2" && V2Name("nv") == "nv_v2" && c.V2() == "agg_v2";
    o := new Orchestrator(spec, MIX, COUNT, DEFS, NAMES, ServerWith(events), 0, script);
  }

  const USUAL := Config(0, 0, "")

  const CFG := Effective(USUAL, USUAL)

  /** A run without a disturbance, and what it leaves. */
  method RunSmoothly(o: Orchestrator, events: seq<Event>, options: Options) returns (ok: bool)
    requires Ours(o, events) && o.Undisturbed()
    modifies o
    ensures Ours(o, events) && o.script == old(o.script) && (ok <==> o.AllAgree(o.db))
    ensures ok ==> o.log != [] && Last(o.log).phase == Phase.Validated
    ensures Ran(o.C(), old(o.W()), o.W(), o.Tuning(options), true) && o.Owner() && Bounded(o.W()) && old(o.log) <= o.log
    ensures o.book.arrived == old(o.book.arrived) && AllArmed(o.C(), o.db)
    ensures o.db.tables.Keys <= old(o.db.tables.Keys) + {"agg_v2"}
    ensures Boundary(old(o.log)).Some? ==> Boundary(o.log) == Boundary(old(o.log))
    ensures options.boundaryOffset == 0 && Boundary(old(o.log)).None? ==> T(o.W()) > 0
    ensures old(UnderwayFor(o, options)) ==> UnderwayFor(o, options)
  {
    OursCanRun(o, events);
    ghost var w0 := o.W();
    ghost var checked, filled;
    ok, checked, filled := o.Run(options);
    LastIsOurs(o);
    StillOurs(o, w0, o.Tuning(options), filled);
    if Underway(o.C(), w0, o.Tuning(options), options.WithDefaults().lagPoll) {
      StillUnderway(o.C(), w0, o.W(), o.Tuning(options), options.WithDefaults().lagPoll, filled);
    }
  }

  lemma LastIsOurs(o: Orchestrator)
    requires o.Owner() && Bounded(o.W()) && o.spec.hash == "A"
    ensures o.log != [] && Last(o.log).hash == "A"
  {
    InvParts(o.C(), o.W());
  }

  // ---------- an abort does not reset the chunk records ----------

  const EVENT := Event(0, "d", "k", 7)

  lemma OneRow(c: Setting, w: World, cfg: Config)
    requires Bounded(w) && T(w) > 0 && w.Defs() == DEFS && w.db.sources == map["src" := [EVENT]]
    requires cfg.targetRows > 0 && cfg.maxBuckets >= 1
    ensures OwnChunk(c, w, "mv", EVENT, cfg).Cursor() == BackfillCursor("d", "mv", 1, 0)
    ensures Seen(w, "mv", EVENT) == 1 && (c.Listed("mv") ==> Historic(c, w, "mv", EVENT))
  {
    assert Grounded(w.Defs(), w.db, "mv");
    assert [EVENT][..0] == [];
    assert DayRows(c, w, "mv", T(w), "d") == multiset{Row("mv", EVENT)};
    OneBucket(cfg.targetRows, cfg.maxBuckets);
  }

  lemma OneBucket(target: nat, maxBuckets: int)
    requires target > 0 && maxBuckets >= 1
    ensures Buckets(1, target, maxBuckets) == 1
  {
    if target == 1 {
    } else {
      assert 1 / target == 0 && 1 % target == 1;
    }
  }

  const CURSOR := BackfillCursor("d", "mv", 1, 0)

  lemma RunRecords(o: Orchestrator, w0: World)
    requires Ours(o, [EVENT]) && Ran(o.C(), w0, o.W(), CFG, true) && !HasV2(o.C(), w0) && o.Owner()
    requires o.book.arrived == w0.book.arrived && Bounded(o.W()) && T(o.W()) > 0
    ensures CURSOR in Completed(o.log) && !o.book.late
  {
    OursCanRun(o, [EVENT]);
    OneRow(o.C(), o.W(), CFG);
    ghost var k := OwnChunk(o.C(), o.W(), "mv", EVENT, CFG);
    OwnIsPlanned(o.C(), o.W(), "mv", EVENT, CFG);
    assert UnitDone(o.C(), o.W(), k.mv, k.val, CFG);
  }

  method AbortSmoothly(o: Orchestrator)
    requires Ours(o, [EVENT]) && o.script == [] && o.log != [] && Last(o.log).phase == Phase.Validated
    modifies o
    ensures Ours(o, [EVENT]) && o.script == [] && !HasV2(o.C(), o.W())
    ensures Completed(o.log) == Completed(old(o.log)) && Boundary(o.log).None?
  {
    OursCanRun(o, [EVENT]);
    var r := Record(o.spec.hash, Aborted, Done, "", "");
    CompletedAppend(o.log, r);
    BoundaryAppend(o.log, r);
    var ok := Abort(o);
  }

  /** Run, abort, run again, with nothing failing and no insert arriving: the second run skips the
      chunk that the first one recorded, although its table is new, and reports success. */
  method AbortThenRun() returns (o: Orchestrator, ok: bool)
    ensures fresh(o) && Ours(o, [EVENT]) && ok && o.log != [] && Last(o.log).phase == Phase.Validated
    ensures Finished(o.C(), o.W()) && Historic(o.C(), o.W(), "mv", EVENT)
    ensures Seen(o.W(), "mv", EVENT) == 1 && Held(o.C(), o.W(), "mv", EVENT) == 0 && !Exact(o.C(), o.W())
  {
    o := Start(USUAL, [], [EVENT], []);
    ghost var w0 := o.W();
    OursCanRun(o, [EVENT]);
    ok := RunSmoothly(o, [EVENT], OPTIONS);
    RunRecords(o, w0);
    AbortSmoothly(o);
    ghost var w1 := o.W();
    ok := RunSmoothly(o, [EVENT], OPTIONS);
    CarriedOver(o, w1);
  }

  lemma CarriedOver(o: Orchestrator, w1: World)
    requires Ours(o, [EVENT]) && Ran(o.C(), w1, o.W(), CFG, true) && !HasV2(o.C(), w1) && o.Owner()
    requires o.book.arrived == w1.book.arrived && Bounded(o.W()) && T(o.W()) > 0 && CURSOR in Completed(w1.log)
    ensures Finished(o.C(), o.W()) && Historic(o.C(), o.W(), "mv", EVENT) && Seen(o.W(), "mv", EVENT) == 1
    ensures Held(o.C(), o.W(), "mv", EVENT) == 0 && !Exact(o.C(), o.W())
  {
    OursCanRun(o, [EVENT]);
    OneRow(o.C(), o.W(), CFG);
    ResumedIsFinished(o.C(), o.W(), [], Completed(w1.log), CFG);
    CarriedOverChunkIsLost(o.C(), o.W(), "mv", EVENT);
  }

  // ---------- a chunk's INSERT without its record ----------

  const LOSE_CHUNK := Move(Step.ChunkRecord, [], 0, Lost, "")

  /** The first run dies between the INSERT of its one chunk and the record.  The second run, with
      the same options and nothing going wrong, inserts it again and reports success. */
  method TornChunk() returns (o: Orchestrator, ok: bool)
    ensures fresh(o) && Ours(o, [EVENT]) && ok && o.log != [] && Last(o.log).phase == Phase.Validated
    ensures Finished(o.C(), o.W()) && Historic(o.C(), o.W(), "mv", EVENT)
    ensures Seen(o.W(), "mv", EVENT) == 1 && Held(o.C(), o.W(), "mv", EVENT) == 2 && !Exact(o.C(), o.W())
  {
    o := Start(USUAL, [], [EVENT], [LOSE_CHUNK]);
    DieUnrecorded(o);
    ghost var w := o.W();
    ok := RunSmoothly(o, [EVENT], OPTIONS);
    CopiedAgain(o, w);
  }

  method DieUnrecorded(o: Orchestrator)
    requires Ours(o, [EVENT]) && o.log == [] && o.script == [LOSE_CHUNK] && o.spec.backfill == USUAL
    requires !HasV2(o.C(), o.W())
    modifies o
    ensures Ours(o, [EVENT]) && o.script == []
    ensures HasV2(o.C(), o.W()) && Torn(o.W()) && o.book.arrived == old(o.book.arrived)
  {
    OursCanRun(o, [EVENT]);
    ghost var w0 := o.W();
    ghost var checked, filled;
    var ok;
    ok, checked, filled := o.Run(OPTIONS);
    LastIsOurs(o);
    StillOurs(o, w0, CFG, filled);
    OneChunkTorn(o, w0, filled);
  }

  /** One INSERT, and no record of it. */
  ghost predicate Torn(w: World) {
    && Bounded(w) && T(w) > 0 && Completed(w.log) == {} && w.book.torn == multiset{CURSOR}
    && w.book.base == {} && !w.book.retuned && !w.book.late
    && (w.book.tuning == None || w.book.tuning == Some(CFG))
  }

  lemma OneChunkTorn(o: Orchestrator, w0: World, filled: bool)
    requires Ours(o, [EVENT]) && o.Owner() && Bounded(o.W()) && T(o.W()) > 0 && w0.log == [] && !HasV2(o.C(), w0)
    requires Ran(o.C(), w0, o.W(), CFG, filled) && o.book.arrived == w0.book.arrived
    requires o.StruckFrom([], multiset{}, {}, [LOSE_CHUNK], filled)
    ensures Torn(o.W())
  {
    OursCanRun(o, [EVENT]);
    if filled {
      RunRecords(o, w0);
      assert false;
    } else {
      ghost var k := o.book.ledger[0];
      assert k in o.book.ledger[0..] && AddedAt(o.C(), o.W(), k, {}, CFG);
      OnlyChunk(o.C(), o.W(), k);
    }
  }

  lemma OnlyChunk(c: Setting, w: World, k: Chunk)
    requires Bounded(w) && T(w) > 0 && w.Defs() == DEFS && w.db.sources == map["src" := [EVENT]]
    requires Planned(c, w, k, CFG)
    ensures k.Cursor() == CURSOR
  {
    assert [EVENT][..0] == [];
    assert DayRows(c, w, "mv", T(w), k.val) == if k.val == "d" then multiset{Row("mv", EVENT)} else multiset{};
    OneBucket(CFG.targetRows, CFG.maxBuckets);
  }

  lemma CopiedAgain(o: Orchestrator, w: World)
    requires Ours(o, [EVENT]) && o.Owner() && Bounded(o.W()) && T(o.W()) > 0 && !o.book.late
    requires HasV2(o.C(), w) && Torn(w) && Ran(o.C(), w, o.W(), CFG, true)
    ensures Finished(o.C(), o.W()) && Historic(o.C(), o.W(), "mv", EVENT) && Seen(o.W(), "mv", EVENT) == 1
    ensures Held(o.C(), o.W(), "mv", EVENT) == 2 && !Exact(o.C(), o.W())
  {
    OursCanRun(o, [EVENT]);
    OneRow(o.C(), o.W(), CFG);
    TornTwice(o.C(), w, o.W());
    CountedTwice(o.C(), o.W());
  }

  lemma CountedTwice(c: Setting, w: World)
    requires Finished(c, w) && w.book.tuning == Some(CFG) && CURSOR !in w.book.base && w.book.torn[CURSOR] == 1
    requires Historic(c, w, "mv", EVENT) && Seen(w, "mv", EVENT) == 1
    requires OwnChunk(c, w, "mv", EVENT, CFG).Cursor() == CURSOR
    ensures Held(c, w, "mv", EVENT) == 2 && !Exact(c, w)
  {
    HistoryCount(c, w, "mv", EVENT);
    HeldRow(c, w, Row("mv", EVENT));
  }

  lemma TornTwice(c: Setting, w: World, w': World)
    requires HasV2(c, w) && Torn(w) && Ran(c, w, w', CFG, true) && !w'.book.late
    requires Tracked(c, w') && w'.book.keyed && ListsAll(c, w')
    ensures Finished(c, w') && w'.book.tuning == Some(CFG) && CURSOR !in w'.book.base && w'.book.torn[CURSOR] == 1
  {
    ResumedIsFinished(c, w', w.book.ledger, {}, CFG);
  }

  // ---------- a lost cutover record ----------

  const LOSE_RECORD := Move(Step.CutoverRecord, [], 0, Lost, "")

  /** A run and a cutover that only loses its record, then the cutover again: the live view is
      dropped, nothing feeds the target any more, and the second cutover fails. */
  method CutOverAgain() returns (o: Orchestrator, first: bool, second: bool)
    ensures fresh(o) && o.Ok() && first && !second && "mv" !in o.db.views
  {
    o := ReadyToSwap([LOSE_RECORD]);
    first, second := CutoverTwice(o, "20260101", "20260102");
  }

  /** A validated table, with the backup's name free. */
  method ReadyToSwap(script: seq<Move>) returns (o: Orchestrator)
    requires script == [] || script[0].at == Step.CutoverRecord
    ensures fresh(o) && o.Ok() && o.script == script && Swappable(o, true, "20260101") && o.C().Listed("mv")
  {
    o := Start(USUAL, [], [EVENT], script);
    ghost var first := o.db;
    NothingToValidate(o);
    var ok := RunSmoothly(o, [EVENT], OPTIONS);
    CanSwap(o, first);
  }

  lemma NothingToValidate(o: Orchestrator)
    requires Ours(o, [EVENT]) && o.spec.validations == []
    ensures forall db :: o.AllAgree(db)
  {
    OursCanRun(o, [EVENT]);
  }

  lemma CanSwap(o: Orchestrator, first: Db)
    requires Ours(o, [EVENT]) && o.Owner() && o.log != [] && Last(o.log).phase == Phase.Validated
    requires first.tables.Keys == {"agg"} && o.db.tables.Keys <= first.tables.Keys + {"agg_v2"}
    ensures Swappable(o, true, "20260101") && o.C().Listed("mv")
  {
    OursCanRun(o, [EVENT]);
    BackupName(o.spec, "20260101");
    BackupIsFree(o, "20260101");
  }

  lemma BackupIsFree(o: Orchestrator, day: string)
    requires Ours(o, [EVENT]) && o.Owner() && o.spec.BackupTable(day) !in o.db.tables
    ensures CanRename(o.db, "agg", "agg_v2", o.spec.BackupTable(day))
  {
    OursCanRun(o, [EVENT]);
    BackupIsNoSource(o.spec, day);
  }

  // ---------- another spec at the cutover ----------

  const NEW_VIEW := MV("mv", "agg", "src", "k, region", {})

  const NEW_SPEC := SpecOf("B", map["mv" := Defines(NEW_VIEW)])

  /** A spec edited between validation and cutover: the cutover accepts it and recreates a view
      that groups differently from the one the table was built from.  From then on the old spec
      can neither run nor abort. */
  method CutOverEdited() returns (o: Orchestrator, ok: bool, again: bool, aborted: bool)
    ensures fresh(o) && o.Ok() && ok && !again && !aborted
    ensures "mv" in o.db.views && o.db.views["mv"].def == NEW_VIEW && o.book.build.defs == DEFS
  {
    var a := Start(USUAL, [], [EVENT], []);
    var _ := RunSmoothly(a, [EVENT], OPTIONS);
    OursCanRun(a, [EVENT]);
    o, ok := SwapWith(a);
    o, again := RunRefused(o);
    o, aborted := AbortRefused(o);
  }

  /** After a cutover under another spec, with nothing going wrong. */
  ghost predicate CutOverBy(o: Orchestrator, build: Build)
    reads o
  {
    && o.Ok() && o.spec.targetTable == "agg" && o.names == NAMES && o.script == [] && o.book.build == build
    && "mv" in o.db.views && o.db.views["mv"].def == NEW_VIEW && !HasV2(o.C(), o.W())
    && o.log != [] && Last(o.log).phase == CutOver && Last(o.log).hash == "B"
  }

  method RunRefused(o: Orchestrator) returns (next: Orchestrator, ok: bool)
    requires CutOverBy(o, o.book.build)
    ensures fresh(next) && CutOverBy(next, o.book.build) && !ok
  {
    next := new Orchestrator.Attach(o, SPEC);
    ghost var checked, filled;
    ok, checked, filled := next.Run(OPTIONS);
  }

  method AbortRefused(o: Orchestrator) returns (next: Orchestrator, ok: bool)
    requires CutOverBy(o, o.book.build)
    ensures fresh(next) && next.Ok() && next.db.views == o.db.views && next.book.build == o.book.build && !ok
  {
    next := new Orchestrator.Attach(o, SPEC);
    ok := Abort(next);
  }

  method SwapWith(a: Orchestrator) returns (o: Orchestrator, ok: bool)
    requires Ours(a, [EVENT]) && a.Owner() && a.script == [] && Bounded(a.W())
    requires a.log != [] && Last(a.log).phase == Phase.Validated && a.book.build.defs == DEFS
    requires a.db.tables.Keys <= {"agg", "agg_v2"}
    ensures fresh(o) && ok && CutOverBy(o, a.book.build)
  {
    BackupIsFree(a, "20260101");
    o := TakeOver(a);
    ok := CutOverEditedSpec(o);
  }

  method CutOverEditedSpec(o: Orchestrator) returns (ok: bool)
    requires Edited(o) && o.log != [] && Last(o.log).phase == Phase.Validated
    requires CanRename(o.db, "agg", "agg_v2", o.spec.BackupTable("20260101"))
    modifies o
    ensures ok && CutOverBy(o, old(o.book.build))
  {
    assert NEW_SPEC.mvs == ["mv"] && NEW_SPEC.mvs[0] == "mv" && o.C().Listed("mv");
    assert o.spec.V2Table() == "agg_v2";
    ghost var swapping;
    ok, swapping := Cutover(o, true, "20260101");
    assert LiveIn(o.C(), o.db, "mv");
  }

  /** The same spec edited while the copies of the old one are armed: the run is refused, the
      abort clears what the old spec left, and then a run builds the table from the new view. */
  method AbortEdited() returns (o: Orchestrator, early: bool, aborted: bool, ok: bool)
    ensures fresh(o) && o.Ok() && !early && aborted && ok && o.Owner()
    ensures "mv" in o.book.build.defs && o.book.build.defs["mv"] == NEW_VIEW
  {
    var a := Start(USUAL, [], [EVENT], []);
    var _ := RunSmoothly(a, [EVENT], OPTIONS);
    OursCanRun(a, [EVENT]);
    o := TakeOver(a);
    early, aborted := RefusedThenAborted(o);
    ghost var checked, filled;
    ok, checked, filled := o.Run(OPTIONS);
  }

  /** A process with the edited spec. */
  ghost predicate Edited(o: Orchestrator)
    reads o
  {
    && o.Ok() && o.spec == NEW_SPEC && o.names == NAMES && "mv" in o.defs && o.defs["mv"] == NEW_VIEW && o.script == []
    && "src" in o.db.sources && "src" in o.db.columns && o.db.columns["src"] == {"ts"}
  }

  method TakeOver(a: Orchestrator) returns (o: Orchestrator)
    requires Ours(a, [EVENT]) && a.Owner() && a.script == [] && a.log != [] && Last(a.log).phase == Phase.Validated
    ensures fresh(o) && Edited(o) && o.W() == a.W()
  {
    OursCanRun(a, [EVENT]);
    assert a.book.build.hash == "A";
    o := new Orchestrator.Attach(a, NEW_SPEC);
    assert NEW_SPEC.mvs == ["mv"] && NEW_SPEC.mvs[0] == "mv";
  }

  method AbortAlone(o: Orchestrator) returns (aborted: bool)
    requires Edited(o) && o.log != [] && Last(o.log).phase == Phase.Validated
    modifies o
    ensures Edited(o) && aborted && o.log != [] && Last(o.log).hash == "B" && !HasV2(o.C(), o.W())
  {
    aborted := Abort(o);
  }

  method RefusedThenAborted(o: Orchestrator) returns (early: bool, aborted: bool)
    requires Edited(o) && o.log != [] && Last(o.log).hash == "A" && Last(o.log).phase == Phase.Validated
    modifies o
    ensures Edited(o) && !early && aborted && o.Undisturbed() && o.Startable() && forall db :: o.AllAgree(db)
    ensures !HasV2(o.C(), o.W())
  {
    ghost var checked, filled;
    early, checked, filled := o.Run(OPTIONS);
    aborted := AbortAlone(o);
    assert NEW_SPEC.mvs == ["mv"] && NEW_SPEC.mvs[0] == "mv";
    assert Resolves(o.db, NEW_VIEW, "ts");
  }

  // ---------- a view that the next spec no longer lists ----------

  const BOTH := SPEC.(mvs := ["mv", "nv"])

  const BOTH_DEFS: map<string, MV> := map["mv" := VIEW, "nv" := OTHER]

  /** Two views feed the old table from the same source. */
  const TWO_VIEWS := Db(
    map["src" := [EVENT]], map["src" := {"ts"}],
    map["agg" := Select(MIX, "mv", [EVENT], All) + Select(MIX, "nv", [EVENT], All)],
    map["mv" := View(VIEW, "agg", None), "nv" := View(OTHER, "agg", None)])

  /** The same spec with one view less; of a spec built by a program the hash stays the same. */
  function Shorter(hash: string): Spec { SPEC.(hash := hash) }

  lemma BothAreSound(hash: Hash)
    ensures Setting(BOTH, BOTH_DEFS, hash, NAMES).Sound() && Setting(BOTH, BOTH_DEFS, hash, NAMES).Keyed()
  {
    var c := Setting(BOTH, BOTH_DEFS, hash, NAMES);
    assert BOTH.mvs == ["mv", "nv"] && BOTH.mvs[0] == "mv" && BOTH.mvs[1] == "nv";
    assert Names(c) == {"mv", "nv"};
    NamesApart(c);
    BarFreeNamesAreSafe("mv", "mv");
    BarFreeNamesAreSafe("mv", "nv");
    BarFreeNamesAreSafe("nv", "mv");
    BarFreeNamesAreSafe("nv", "nv");
  }

  /** A validated table with the copies of both views in place. */
  ghost predicate BothArmed(o: Orchestrator)
    reads o
  {
    && o.Ok() && o.spec.targetTable == "agg" && o.names == NAMES && o.script == []
    && HasV2(o.C(), o.W()) && o.book.build.hash == "A" && o.book.build.supplied == map[]
    && o.log != [] && Last(o.log).phase == Phase.Validated
    && "src" in o.db.sources && "agg" in o.db.tables && "mv" in o.db.views
    && "nv_v2" in Feeders(o.C(), o.db) && o.db.views["nv_v2"].def.source == "src"
    && CanRename(o.db, "agg", "agg_v2", o.spec.BackupTable("20260101"))
  }

  lemma BothCanStart(c: Setting, w: World)
    requires c == Setting(BOTH, BOTH_DEFS, MIX, NAMES) && w.db == TWO_VIEWS
    ensures !HasV2(c, w) && (forall m :: m in NAMES ==> V2Name(m) !in TWO_VIEWS.views)
    ensures (forall m :: LiveAt(c, w, m) && OwnAt(c, w, m))
    ensures forall n :: n in TWO_VIEWS.views ==> TWO_VIEWS.views[n].target in TWO_VIEWS.tables
  {
    assert V2Name("mv") == "mv_v2" && V2Name("nv") == "nv_v2" && c.V2() == "agg_v2";
  }

  method StartBoth() returns (o: Orchestrator)
    ensures fresh(o) && o.Ok() && o.spec == BOTH && o.defs == BOTH_DEFS && o.names == NAMES && o.script == []
    ensures o.log == [] && o.db == TWO_VIEWS && !HasV2(o.C(), o.W())
  {
    BothAreSound(MIX);
    ghost var c := Setting(BOTH, BOTH_DEFS, MIX, NAMES);
    BothCanStart(c, World(TWO_VIEWS, [], EmptyBook(0, true)));
    o := new Orchestrator(BOTH, MIX, COUNT, BOTH_DEFS, NAMES, TWO_VIEWS, 0, []);
  }

  method RunBoth() returns (o: Orchestrator)
    ensures fresh(o) && BothArmed(o)
  {
    o := StartBoth();
    ghost var w0 := o.W();
    BothCanRun(o);
    var ok;
    ghost var checked, filled;
    ok, checked, filled := o.Run(OPTIONS);
    BothAreArmed(o, w0);
  }

  lemma BothCanRun(o: Orchestrator)
    requires o.Ok() && o.spec == BOTH && o.defs == BOTH_DEFS && o.log == [] && o.db == TWO_VIEWS
    ensures o.Startable() && forall db :: o.AllAgree(db)
  {
    BothAreSound(o.hash);
    assert Resolves(o.db, VIEW, "ts") && Resolves(o.db, OTHER, "ts");
    assert BOTH.mvs == ["mv", "nv"];
  }

  lemma BothAreArmed(o: Orchestrator, w0: World)
    requires o.spec == BOTH && o.defs == BOTH_DEFS && o.names == NAMES && o.script == [] && w0.db == TWO_VIEWS
    requires o.log != [] && Last(o.log).phase == Phase.Validated
    requires o.Owner() && !HasV2(o.C(), w0) && Ran(o.C(), w0, o.W(), o.Tuning(OPTIONS), true) && AllArmed(o.C(), o.db)
    ensures BothArmed(o)
  {
    ghost var c, w := o.C(), o.W();
    NoCopyYet(c, w0);
    NewIsTracked(c, w0, w, o.Tuning(OPTIONS));
    ObjectsKept(c, w0, w);
    InvParts(c, w);
    OtherCopy(c, w);
    BackupIsNoSource(o.spec, "20260101");
  }

  lemma NewIsTracked(c: Setting, w0: World, w: World, cfg: Config)
    requires Ran(c, w0, w, cfg, true) && !HasV2(c, w0) && CopiesFit(c, w0, c.defs)
    ensures Tracked(c, w)
  {
  }

  lemma ObjectsKept(c: Setting, w0: World, w: World)
    requires c.spec == BOTH && w0.db == TWO_VIEWS && SameServer(c, w0, w) && HasV2(c, w)
    ensures "mv" in w.db.views && "src" in w.db.sources && "agg" in w.db.tables && "agg_v2" in w.db.tables
    ensures w.db.tables.Keys <= {"agg", "agg_v2"} && w.db.sources.Keys == {"src"}
  {
    assert c.V2() == "agg_v2" && ViewKept(c, w0, w, "mv");
  }

  lemma NoCopyYet(c: Setting, w: World)
    requires c.names == NAMES && w.db == TWO_VIEWS
    ensures CopiesFit(c, w, c.defs)
  {
    assert V2Name("mv") == "mv_v2" && V2Name("nv") == "nv_v2";
  }

  lemma BackupIsNoSource(spec: Spec, day: string)
    requires spec.targetTable == "agg"
    ensures spec.BackupTable(day) != "src"
  {
    assert |spec.BackupTable(day)| > 3;
  }

  lemma OtherCopy(c: Setting, w: World)
    requires Catalog(c, w) && Tracked(c, w) && Mine(c, w) && c.spec == BOTH && c.defs == BOTH_DEFS && c.names == NAMES
    requires AllArmed(c, w.db)
    ensures "nv_v2" in Feeders(c, w.db) && w.db.views["nv_v2"].def == OTHER
  {
    assert V2Name("nv") == "nv_v2" && BOTH.mvs == ["mv", "nv"] && BOTH.mvs[1] == "nv";
    assert c.Listed("nv") && "nv" in Names(c) && ArmedAt(c, w, "nv") && AgreesAt(c, w.Defs(), "nv");
  }

  /** A process whose spec lists one of the two views. */
  method Forget(a: Orchestrator, hash: string) returns (o: Orchestrator)
    requires BothArmed(a) && hash != ""
    ensures fresh(o) && BothArmed(o) && o.spec == Shorter(hash) && "nv_v2" in Unlisted(o.C(), o.db)
  {
    assert Shorter(hash).mvs == ["mv"];
    o := new Orchestrator.Attach(a, Shorter(hash));
    OurNames(o.spec, "nv_v2");
  }

  /** An abort under the shorter list succeeds and leaves the other view's copy without its table:
      from then on every insert into its source is refused. */
  method AbortForgetting(hash: string, batch: seq<Event>) returns (o: Orchestrator, aborted: bool, after: Db)
    requires hash != ""
    ensures fresh(o) && o.Ok() && aborted && "src" in o.db.sources && Refuses(o.db, "src") && after == o.db
  {
    var a := RunBoth();
    o := Forget(a, hash);
    aborted := Abort(o);
    InsertsAreAccepted(o.C(), o.W(), "src");
    after := Insert(o.hash, o.db, "src", batch);
  }

  /** So does a cutover. */
  method CutOverForgetting(hash: string, batch: seq<Event>) returns (o: Orchestrator, ok: bool, after: Db)
    requires hash != ""
    ensures fresh(o) && o.Ok() && ok && "src" in o.db.sources && Refuses(o.db, "src") && after == o.db
  {
    var a := RunBoth();
    o := Forget(a, hash);
    assert o.spec.mvs == ["mv"] && o.spec.V2Table() == "agg_v2";
    ghost var swapping;
    ok, swapping := Cutover(o, true, "20260101");
    InsertsAreAccepted(o.C(), o.W(), "src");
    after := Insert(o.hash, o.db, "src", batch);
  }

  // ---------- a negative bucket limit ----------

  /** The historical event is not backfilled, and the run succeeds. */
  method NegativeLimit() returns (o: Orchestrator, ok: bool)
    ensures fresh(o) && o.Ok() && ok && o.book.ledger == []
    ensures Historic(o.C(), o.W(), "mv", EVENT) && Held(o.C(), o.W(), "mv", EVENT) == 0
  {
    o := Start(Config(0, -1, ""), [], [EVENT], []);
    ghost var w0 := o.W();
    ok := RunSmoothly(o, [EVENT], OPTIONS);
    NothingBackfilled(o, w0);
  }

  lemma NothingBackfilled(o: Orchestrator, w0: World)
    requires Ours(o, [EVENT]) && Ran(o.C(), w0, o.W(), o.Tuning(OPTIONS), true) && !HasV2(o.C(), w0) && o.Owner()
    requires o.spec.backfill.maxBuckets < 0 && o.book.arrived == w0.book.arrived && Bounded(o.W()) && T(o.W()) > 0
    ensures o.book.ledger == [] && Historic(o.C(), o.W(), "mv", EVENT) && Held(o.C(), o.W(), "mv", EVENT) == 0
  {
    OursCanRun(o, [EVENT]);
    ChunksNeedBuckets(o.C(), o.W(), [], Completed(w0.log), o.Tuning(OPTIONS));
    OneRow(o.C(), o.W(), CFG);
    BackfillCount(o.C(), o.W(), "mv", EVENT);
  }

  // ---------- another bucket count on the next run ----------

  /** A run completes, and a second one with a smaller row target splits the chunk in two: neither
      half is on record, and every event is copied again. */
  method ChangedCount() returns (o: Orchestrator, ok: bool)
    ensures fresh(o) && Ours(o, [EVEN, ODD]) && ok && !Exact(o.C(), o.W())
    ensures Seen(o.W(), "mv", EVEN) == 1 && Seen(o.W(), "mv", ODD) == 1
    ensures Held(o.C(), o.W(), "mv", EVEN) == 2 && Held(o.C(), o.W(), "mv", ODD) == 2
  {
    o := Start(USUAL, [], [EVEN, ODD], []);
    ghost var w0 := o.W();
    OursCanRun(o, [EVEN, ODD]);
    ok := RunSmoothly(o, [EVEN, ODD], OPTIONS);
    FilledCleanly(o, w0);
    ok := RunInHalves(o);
  }

  method RunInHalves(o: Orchestrator) returns (ok: bool)
    requires Ours(o, [EVEN, ODD]) && o.script == [] && o.spec.validations == [] && o.spec.backfill == USUAL
    requires CleanSoFar(o.C(), o.W(), CFG) && T(o.W()) > 0 && !o.book.late
    requires BackfillCursor("d", "mv", 1, 0) in Completed(o.log)
    modifies o
    ensures Ours(o, [EVEN, ODD]) && ok && !Exact(o.C(), o.W())
    ensures Seen(o.W(), "mv", EVEN) == 1 && Seen(o.W(), "mv", ODD) == 1
    ensures Held(o.C(), o.W(), "mv", EVEN) == 2 && Held(o.C(), o.W(), "mv", ODD) == 2
  {
    OursCanRun(o, [EVEN, ODD]);
    ghost var w := o.W();
    ok := RunSmoothly(o, [EVEN, ODD], Keyed(""));
    CopiedInHalves(o, w, EVEN);
    CopiedInHalves(o, w, ODD);
  }

  lemma FilledCleanly(o: Orchestrator, w0: World)
    requires Ours(o, [EVEN, ODD]) && o.Owner() && TwoEvents(o.C(), o.W())
    requires !HasV2(o.C(), w0) && w0.log == [] && o.book.arrived == w0.book.arrived
    requires Ran(o.C(), w0, o.W(), CFG, true)
    ensures CleanSoFar(o.C(), o.W(), CFG) && !o.book.late
    ensures BackfillCursor("d", "mv", 1, 0) in Completed(o.log)
  {
    FirstRunIsClean(o.C(), w0, o.W(), CFG, true);
    DayOfBoth(o.C(), o.W());
    OneForBoth(o.C(), o.W(), EVEN);
    OwnIsPlanned(o.C(), o.W(), "mv", EVEN, CFG);
    PlannedIsDone(o.C(), o.W(), [], {}, CFG, OwnChunk(o.C(), o.W(), "mv", EVEN, CFG));
  }

  lemma OneForBoth(c: Setting, w: World, e: Event)
    requires TwoEvents(c, w) && (e == EVEN || e == ODD)
    ensures OwnChunk(c, w, "mv", e, CFG).Cursor() == BackfillCursor("d", "mv", 1, 0)
    ensures PlanN(c, w, "mv", T(w), "d", CFG) == 1 && PlanN(c, w, "mv", T(w), "d", KeyedBy("")) == 2
  {
    DayOfBoth(c, w);
    assert Buckets(2, 50_000_000, 256) == 1 && Buckets(2, 1, 256) == 2;
  }

  lemma CopiedInHalves(o: Orchestrator, w: World, e: Event)
    requires Ours(o, [EVEN, ODD]) && o.Owner() && TwoEvents(o.C(), o.W()) && !o.book.late && (e == EVEN || e == ODD)
    requires CleanSoFar(o.C(), w, CFG) && Ran(o.C(), w, o.W(), KeyedBy(""), true)
    requires BackfillCursor("d", "mv", 1, 0) in Completed(w.log)
    ensures Seen(o.W(), "mv", e) == 1 && Held(o.C(), o.W(), "mv", e) == 2 && !Exact(o.C(), o.W())
  {
    DayOfBoth(o.C(), o.W());
    OneForBoth(o.C(), o.W(), e);
    OnwardKeepsHistory(o.C(), w, o.W());
    ChangedCountSpoils(o.C(), w, o.W(), CFG, KeyedBy(""), "mv", e);
  }

  // ---------- another bucket key at the resume ----------

  const EVEN := Event(0, "d", "k", 0)
  const ODD := Event(0, "d", "k", 1)

  function Keyed(key: string): Options { Options(0, 0, Config(1, 0, key)) }

  function KeyedBy(key: string): Config { Effective(USUAL, Config(1, 0, key)) }

  const CUT_RECORD := Move(Step.ChunkRecord, [], 0, Cut, "")

  function Bucket(b: nat): string { BackfillCursor("d", "mv", 2, b) }

  ghost predicate TwoEvents(c: Setting, w: World) {
    && Bounded(w) && T(w) > 0 && w.Defs() == DEFS && w.db.sources == map["src" := [EVEN, ODD]]
    && c.hash == MIX && c.spec.mvs == ["mv"]
  }

  lemma DayOfBoth(c: Setting, w: World)
    requires TwoEvents(c, w)
    ensures Historic(c, w, "mv", EVEN) && Historic(c, w, "mv", ODD)
    ensures Seen(w, "mv", EVEN) == 1 && Seen(w, "mv", ODD) == 1
    ensures |DayRows(c, w, "mv", T(w), "d")| == 2
    ensures forall val :: val != "d" ==> |DayRows(c, w, "mv", T(w), val)| == 0
  {
    assert c.spec.mvs[0] == "mv" && Grounded(w.Defs(), w.db, "mv");
    RowsOfBoth(c, w, "d");
    forall val | val != "d" ensures |DayRows(c, w, "mv", T(w), val)| == 0 { RowsOfBoth(c, w, val); }
  }

  lemma RowsOfBoth(c: Setting, w: World, val: string)
    requires TwoEvents(c, w) && Grounded(w.Defs(), w.db, "mv")
    ensures |DayRows(c, w, "mv", T(w), val)| == if val == "d" then 2 else 0
  {
    var rows := if val == "d" then multiset{Row("mv", EVEN), Row("mv", ODD)} else multiset{};
    assert DayRows(c, w, "mv", T(w), val) == rows;
  }

  /** With one row per chunk the two events go to two buckets, by parity under either key. */
  lemma TwoBuckets(c: Setting, w: World, key: string)
    requires TwoEvents(c, w) && key != ""
    ensures OwnChunk(c, w, "mv", EVEN, KeyedBy(key)).Cursor() == Bucket(if key == "k2" then 1 else 0)
    ensures OwnChunk(c, w, "mv", ODD, KeyedBy(key)).Cursor() == Bucket(if key == "k2" then 0 else 1)
  {
    DayOfBoth(c, w);
    assert Buckets(2, 1, 256) == 2;
  }

  lemma PlannedIsBucket(c: Setting, w: World, k: Chunk, key: string)
    requires TwoEvents(c, w) && Planned(c, w, k, KeyedBy(key))
    ensures k.Cursor() == Bucket(0) || k.Cursor() == Bucket(1)
  {
    DayOfBoth(c, w);
    assert k.mv == "mv" && k.val == "d" && k.n == 2;
  }

  /** The first run dies when its first chunk record reports an error: one bucket of two is done. */
  method DieAfterOneBucket(o: Orchestrator)
    requires Ours(o, [EVEN, ODD]) && o.log == [] && o.script == [CUT_RECORD] && o.spec.backfill == USUAL
    requires !HasV2(o.C(), o.W())
    modifies o
    ensures Ours(o, [EVEN, ODD]) && o.script == [] && CleanSoFar(o.C(), o.W(), KeyedBy("k1")) && T(o.W()) > 0
    ensures o.Owner() && o.book.arrived == old(o.book.arrived) && SameServer(o.C(), old(o.W()), o.W()) && !o.book.late
    ensures Completed(o.log) == {Bucket(0)} || Completed(o.log) == {Bucket(1)}
    ensures old(UnderwayFor(o, Keyed("k1"))) ==> UnderwayFor(o, Keyed("k1"))
    ensures o.book.armed == Some(old(o.now)) && o.book.pace.lag == 0
    ensures o.book.pace.ahead == old(o.book.pace.ahead)
  {
    OursCanRun(o, [EVEN, ODD]);
    ghost var w0 := o.W();
    ghost var checked, filled;
    var ok;
    ok, checked, filled := o.Run(Keyed("k1"));
    LastIsOurs(o);
    StillOurs(o, w0, KeyedBy("k1"), filled);
    if Underway(o.C(), w0, KeyedBy("k1"), Keyed("k1").WithDefaults().lagPoll) {
      StillUnderway(o.C(), w0, o.W(), KeyedBy("k1"), Keyed("k1").WithDefaults().lagPoll, filled);
    }
    OneBucketDone(o, w0, filled);
  }

  /** A completed run would have recorded the chunk of the first event. */
  lemma SomethingToFill(o: Orchestrator, w0: World)
    requires Ours(o, [EVEN, ODD]) && TwoEvents(o.C(), o.W()) && !o.book.late
    requires Ran(o.C(), w0, o.W(), KeyedBy("k1"), true)
    ensures Completed(o.log) != {}
  {
    OursCanRun(o, [EVEN, ODD]);
    DayOfBoth(o.C(), o.W());
    OwnIsPlanned(o.C(), o.W(), "mv", EVEN, KeyedBy("k1"));
    PlannedIsDone(o.C(), o.W(), LedgerBefore(o.C(), w0), Completed(w0.log), KeyedBy("k1"),
                  OwnChunk(o.C(), o.W(), "mv", EVEN, KeyedBy("k1")));
  }

  lemma PlannedIsDone(c: Setting, w: World, before: seq<Chunk>, done: set<string>, cfg: Config, k: Chunk)
    requires Resumed(c, w, before, done, cfg) && !w.book.late && Planned(c, w, k, cfg) && c.Listed(k.mv)
    ensures k.Cursor() in Completed(w.log)
  {
    assert UnitDone(c, w, k.mv, k.val, cfg);
  }

  lemma OneBucketDone(o: Orchestrator, w0: World, filled: bool)
    requires Ours(o, [EVEN, ODD]) && o.Owner() && TwoEvents(o.C(), o.W()) && w0.log == []
    requires !HasV2(o.C(), w0) && Ran(o.C(), w0, o.W(), KeyedBy("k1"), filled)
    requires o.StruckFrom([], multiset{}, {}, [CUT_RECORD], filled) && !o.book.late
    ensures !filled && CleanSoFar(o.C(), o.W(), KeyedBy("k1"))
    ensures Completed(o.log) == {Bucket(0)} || Completed(o.log) == {Bucket(1)}
  {
    OursCanRun(o, [EVEN, ODD]);
    if filled { SomethingToFill(o, w0); }
    FirstRunIsClean(o.C(), w0, o.W(), KeyedBy("k1"), filled);
    assert o.book.ledger[0] in o.book.ledger;
    PlannedIsBucket(o.C(), o.W(), o.book.ledger[0], "k1");
  }

  /** Resumed under another key, the run copies one event again and the other never.  The row
      count agrees with the old table all the same, and the run reports success. */
  method Rekeyed() returns (o: Orchestrator, ok: bool)
    ensures fresh(o) && Ours(o, [EVEN, ODD]) && ok && o.spec.validations == ["count()"] && !Exact(o.C(), o.W())
    ensures Seen(o.W(), "mv", EVEN) == 1 && Seen(o.W(), "mv", ODD) == 1
    ensures OneTwice(o.C(), o.W())
  {
    o := Start(USUAL, ["count()"], [EVEN, ODD], [CUT_RECORD]);
    ghost var start := o.W();
    OursCanRun(o, [EVEN, ODD]);
    DieAfterOneBucket(o);
    ok := ResumeRekeyed(o, start);
  }

  method ResumeRekeyed(o: Orchestrator, ghost start: World) returns (ok: bool)
    requires Ours(o, [EVEN, ODD]) && o.script == [] && CleanSoFar(o.C(), o.W(), KeyedBy("k1")) && T(o.W()) > 0
    requires Completed(o.log) == {Bucket(0)} || Completed(o.log) == {Bucket(1)}
    requires start.db == ServerWith([EVEN, ODD]) && SameServer(o.C(), start, o.W())
    requires o.book.arrived == start.book.arrived && !o.book.late
    requires o.spec.validations == ["count()"] && o.spec.backfill == USUAL
    modifies o
    ensures Ours(o, [EVEN, ODD]) && ok && !Exact(o.C(), o.W()) && OneTwice(o.C(), o.W())
    ensures Seen(o.W(), "mv", EVEN) == 1 && Seen(o.W(), "mv", ODD) == 1
  {
    ghost var w := o.W();
    ok := RunSmoothly(o, [EVEN, ODD], Keyed("k2"));
    MovedEvents(o, w);
    ServerTransitive(o.C(), start, w, o.W());
    CountsAgree(o, start);
  }

  /** One of the two events is counted twice and the other not at all. */
  ghost predicate OneTwice(c: Setting, w: World) {
    var even, odd := Held(c, w, "mv", EVEN), Held(c, w, "mv", ODD);
    (even == 2 && odd == 0) || (even == 0 && odd == 2)
  }

  lemma BucketsDiffer()
    ensures Bucket(0) != Bucket(1)
  {
    BarFreeNamesAreSafe("mv", "mv");
    if Bucket(0) == Bucket(1) { CursorInjective("d", "mv", 2, 0, "d", "mv", 2, 1); }
  }

  lemma MovedEvents(o: Orchestrator, w: World)
    requires Ours(o, [EVEN, ODD]) && o.Owner() && TwoEvents(o.C(), o.W()) && !o.book.late
    requires CleanSoFar(o.C(), w, KeyedBy("k1")) && Ran(o.C(), w, o.W(), KeyedBy("k2"), true)
    requires Completed(w.log) == {Bucket(0)} || Completed(w.log) == {Bucket(1)}
    ensures Seen(o.W(), "mv", EVEN) == 1 && Seen(o.W(), "mv", ODD) == 1
    ensures OneTwice(o.C(), o.W()) && !Exact(o.C(), o.W())
  {
    var c, w' := o.C(), o.W();
    DayOfBoth(c, w');
    TwoBuckets(c, w', "k1");
    TwoBuckets(c, w', "k2");
    BucketsDiffer();
    MovedEvent(c, w, w', EVEN);
    MovedEvent(c, w, w', ODD);
    NotBothOnce(c, w');
  }

  lemma MovedEvent(c: Setting, w: World, w': World, e: Event)
    requires CleanSoFar(c, w, KeyedBy("k1")) && Ran(c, w, w', KeyedBy("k2"), true) && !w'.book.late && w'.book.keyed
    requires c.Listed("mv") && Historic(c, w', "mv", e)
    ensures
      var was := OwnChunk(c, w', "mv", e, KeyedBy("k1")).Cursor() in Completed(w.log);
      var will := OwnChunk(c, w', "mv", e, KeyedBy("k2")).Cursor() in Completed(w.log);
      Held(c, w', "mv", e) == if was == will then Seen(w', "mv", e) else if was then 2 * Seen(w', "mv", e) else 0
  {
    OnwardKeepsHistory(c, w, w');
    RetunedCount(c, w, w', KeyedBy("k1"), KeyedBy("k2"), "mv", e);
  }

  lemma NotBothOnce(c: Setting, w: World)
    requires Inv(c, w) && Tracked(c, w) && TwoEvents(c, w) && OneTwice(c, w)
    ensures !Exact(c, w)
  {
    assert c.spec.mvs[0] == "mv";
    DayOfBoth(c, w);
    HeldRow(c, w, Row("mv", EVEN));
  }

  /** Two rows on both sides. */
  lemma CountsAgree(o: Orchestrator, start: World)
    requires Ours(o, [EVEN, ODD]) && start.db == ServerWith([EVEN, ODD]) && SameServer(o.C(), start, o.W())
    requires o.book.arrived == start.book.arrived && o.Owner() && TwoEvents(o.C(), o.W())
    requires OneTwice(o.C(), o.W()) && o.spec.validations == ["count()"]
    ensures o.AllAgree(o.db)
  {
    OursCanRun(o, [EVEN, ODD]);
    TargetKept(o, start);
    TwoRows(o.C(), o.W());
  }

  lemma TargetKept(o: Orchestrator, start: World)
    requires o.spec.targetTable == "agg" && start.db == ServerWith([EVEN, ODD]) && SameServer(o.C(), start, o.W())
    requires o.book.arrived == start.book.arrived
    ensures "agg" in o.db.tables && |o.db.tables["agg"]| == 2
  {
    assert "agg_v2"[3] == '_';
    assert OtherKept(o.C(), start, o.W(), "agg");
    assert [EVEN, ODD][..1] == [EVEN] && [EVEN][..0] == [];
    assert o.db.tables["agg"] == multiset{Row("mv", EVEN), Row("mv", ODD)};
  }

  lemma TwoRows(c: Setting, w: World)
    requires Inv(c, w) && Tracked(c, w) && TwoEvents(c, w) && OneTwice(c, w)
    ensures |w.db.tables[c.V2()]| == 2
  {
    var rows := w.db.tables[c.V2()];
    var twice := if Held(c, w, "mv", EVEN) == 2 then Row("mv", EVEN) else Row("mv", ODD);
    forall r: Row ensures rows[r] == multiset{twice, twice}[r] {
      HeldRow(c, w, r);
      if c.Listed(r.mv) && r.event != EVEN && r.event != ODD { UnseenIsNotHeld(c, w, r.mv, r.event); }
    }
    assert rows == multiset{twice, twice};
  }

  // ---------- and rebuilds that go well ----------

  /** The run that died after one bucket, resumed with the same options: exact. */
  method DieAndResume() returns (o: Orchestrator, ok: bool)
    ensures fresh(o) && Ours(o, [EVEN, ODD]) && ok && Exact(o.C(), o.W())
    ensures Seen(o.W(), "mv", EVEN) == 1 && Seen(o.W(), "mv", ODD) == 1
  {
    o := Start(USUAL, [], [EVEN, ODD], [CUT_RECORD]);
    OursCanRun(o, [EVEN, ODD]);
    NotAhead(o);
    NothingUnderway(o, Keyed("k1"));
    DieAfterOneBucket(o);
    ok := ResumeSame(o);
  }

  method ResumeSame(o: Orchestrator) returns (ok: bool)
    requires Ours(o, [EVEN, ODD]) && o.script == [] && o.spec.validations == [] && o.spec.backfill == USUAL
    requires CleanSoFar(o.C(), o.W(), KeyedBy("k1")) && T(o.W()) > 0 && UnderwayFor(o, Keyed("k1"))
    requires o.book.armed == Some(0) && o.book.pace.lag == 0 && !o.book.pace.ahead
    modifies o
    ensures Ours(o, [EVEN, ODD]) && ok && Exact(o.C(), o.W())
    ensures Seen(o.W(), "mv", EVEN) == 1 && Seen(o.W(), "mv", ODD) == 1
  {
    OursCanRun(o, [EVEN, ODD]);
    ghost var w := o.W();
    ok := RunSmoothly(o, [EVEN, ODD], Keyed("k1"));
    DayOfBoth(o.C(), o.W());
    FilledIsExact(o.C(), w, o.W(), KeyedBy("k1"), Keyed("k1").WithDefaults().lagPoll);
  }

  lemma NotAhead(o: Orchestrator)
    requires Ours(o, [EVEN, ODD]) && o.now == 0 && o.book == EmptyBook(0, FutureDated(o.db, 0))
    ensures !o.book.pace.ahead
  {
  }

  lemma NothingUnderway(o: Orchestrator, options: Options)
    requires Ours(o, [EVEN, ODD]) && o.log == [] && !HasV2(o.C(), o.W())
    ensures UnderwayFor(o, options)
  {
    OursCanRun(o, [EVEN, ODD]);
    InvParts(o.C(), o.W());
    forall m | m in o.names ensures FitsAt(o.C(), o.W(), o.defs, m) {
      assert ArmedAt(o.C(), o.W(), m) && V2Name(m) !in Feeders(o.C(), o.db);
    }
  }

  /** Without a disturbance a first run and a cutover leave an exact target. */
  method GoodRebuild() returns (o: Orchestrator, ok: bool)
    ensures fresh(o) && o.Ok() && ok && LiveExact(o.C(), o.W())
    ensures Truth(o.C(), o.defs, o.db, Names(o.C()), All)[Row("mv", EVENT)] == 1
  {
    o := Start(USUAL, [], [EVENT], []);
    ok := RunAndSwap(o, "20260101");
  }

  /** Nothing has been recorded or built yet, and only the live view feeds the target. */
  ghost predicate Begins(o: Orchestrator)
    reads o
  {
    && Ours(o, [EVENT]) && o.script == [] && o.log == [] && !HasV2(o.C(), o.W()) && OnlyListedFeed(o.C(), o.db)
    && o.spec.validations == [] && o.spec.backfill == USUAL && o.book == EmptyBook(o.now, o.book.pace.ahead)
  }

  /** A validated and exact v2, the event's chunk on record. */
  ghost predicate Rebuilt(o: Orchestrator)
    reads o
  {
    && Ours(o, [EVENT]) && o.Owner() && o.script == [] && o.log != [] && Last(o.log).phase == Phase.Validated
    && Exact(o.C(), o.W()) && SameDefs(o.C(), o.W()) && OnlyListedFeed(o.C(), o.db)
    && CURSOR in Completed(o.log) && Bounded(o.W()) && T(o.W()) > 0
  }

  /** Every table but the two that are swapped is there and has lost nothing. */
  ghost predicate Kept(before: Db, after: Db) {
    forall t :: t in before.tables && t != "agg" && t != "agg_v2" ==>
      t in after.tables && before.tables[t] <= after.tables[t]
  }

  method RunExactly(o: Orchestrator)
    requires Begins(o)
    modifies o
    ensures Rebuilt(o) && Kept(old(o.db), o.db)
    ensures o.db.tables.Keys <= old(o.db.tables.Keys) + {"agg_v2"} && old(o.db.tables["agg"]) <= o.db.tables["agg"]
  {
    ghost var w0 := o.W();
    OursCanRun(o, [EVENT]);
    var ok := RunSmoothly(o, [EVENT], OPTIONS);
    RunIsExact(o, w0);
    RunRecords(o, w0);
    forall t | t in w0.db.tables && t != "agg_v2"
      ensures t in o.db.tables && w0.db.tables[t] <= o.db.tables[t]
    {
      assert OtherKept(o.C(), w0, o.W(), t);
    }
  }

  /** The old target is the backup, beside all other tables. */
  ghost predicate TablesSwapped(before: Db, after: Db, backup: string) {
    && "agg" in before.tables && backup in after.tables && before.tables["agg"] <= after.tables[backup]
    && after.tables.Keys <= before.tables.Keys + {backup} && "agg_v2" !in after.tables && Kept(before, after)
  }

  /** After the swap: exact for good. */
  ghost predicate CutOverWell(o: Orchestrator)
    reads o
  {
    Ours(o, [EVENT]) && o.script == [] && !HasV2(o.C(), o.W()) && NoDangling(o.db) && LiveExact(o.C(), o.W())
  }

  /** The event's chunk is still on record, and so is the boundary. */
  ghost predicate CutOverLogged(o: Orchestrator)
    reads o
  {
    && CURSOR in Completed(o.log) && Bounded(o.W()) && T(o.W()) > 0
    && o.log != [] && Last(o.log).phase == CutOver && Last(o.log).status == Status.Done
  }

  method SwapExact(o: Orchestrator, day: string) returns (ok: bool)
    requires Rebuilt(o)
    modifies o
    ensures o.Ok() && (ok <==> o.spec.BackupTable(day) !in old(o.db.tables))
    ensures ok ==> CutOverWell(o) && TablesSwapped(old(o.db), o.db, o.spec.BackupTable(day)) && CutOverLogged(o)
    ensures ok ==> Row("mv", EVENT) in o.db.tables["agg"]
    ensures ok ==> Truth(o.C(), o.defs, o.db, Names(o.C()), All)[Row("mv", EVENT)] == 1
    ensures !ok ==> NoListedView(o.C(), o.db)
  {
    OursCanRun(o, [EVENT]);
    if o.spec.BackupTable(day) !in o.db.tables { BackupIsFree(o, day); }
    ghost var w, swapping := o.W(), false;
    ok, swapping := Cutover(o, true, day);
    if ok { SwapIsWell(o, w, o.spec.BackupTable(day)); }
  }

  lemma SwapIsWell(o: Orchestrator, w: World, backup: string)
    requires o.Ok() && SpecOfOurs(o.spec) && o.script == []
    requires o.defs == DEFS && o.names == NAMES && o.hash == MIX && o.eval == COUNT
    requires o.log == w.log + [Operations.CutoverRecord(o.spec, backup)]
    requires MidCutover(o.C(), w, o.W().(log := w.log), backup) && Swapped(o.C(), w, o.W(), backup)
    requires AllLive(o.C(), o.db) && NoV2View(o.C(), o.db) && LiveExact(o.C(), o.W())
    requires w.db.sources == map["src" := [EVENT]] && w.db.columns == map["src" := {"ts"}]
    requires w.book.arrived == o.book.arrived
    requires Feeders(o.C(), w.db) <= {"mv_v2"} && (NoDangling(o.db) <==> Unlisted(o.C(), w.db) == {})
    requires CURSOR in Completed(w.log) && Bounded(w) && T(w) > 0
    ensures CutOverWell(o) && TablesSwapped(w.db, o.db, backup) && CutOverLogged(o)
    ensures Row("mv", EVENT) in o.db.tables["agg"]
    ensures Truth(o.C(), o.defs, o.db, Names(o.C()), All)[Row("mv", EVENT)] == 1
  {
    SwapIsOurs(o, w);
    SwapKeeps(o.C(), w, o.W(), backup);
    RecordsStay(o.C(), w.log, o.log, backup);
    OursCanRun(o, [EVENT]);
    OneInTruth(o.C(), o.db);
  }

  lemma RecordsStay(c: Setting, log: seq<Record>, log': seq<Record>, backup: string)
    requires log' == log + [Operations.CutoverRecord(c.spec, backup)]
    ensures Completed(log') == Completed(log) && Boundary(log') == if Boundary(log).Some? then Boundary(log) else None
  {
    var r := Operations.CutoverRecord(c.spec, backup);
    assert r.detail[0] == 'b';
    BoundaryAppend(log, r);
    CompletedAppend(log, r);
  }

  lemma SwapIsOurs(o: Orchestrator, w: World)
    requires o.Ok() && SpecOfOurs(o.spec) && o.defs == DEFS && o.names == NAMES && o.hash == MIX && o.eval == COUNT
    requires o.log != [] && Last(o.log).hash == "A" && o.script == [] && "agg" in o.db.tables
    requires AllLive(o.C(), o.db) && NoV2View(o.C(), o.db) && !HasV2(o.C(), o.W())
    requires o.db.sources == map["src" := [EVENT]] && o.db.columns == map["src" := {"ts"}]
    requires Feeders(o.C(), w.db) <= {"mv_v2"} && (NoDangling(o.db) <==> Unlisted(o.C(), w.db) == {})
    ensures Ours(o, [EVENT]) && NoDangling(o.db)
  {
    assert o.spec.mvs == ["mv"] && o.spec.mvs[0] == "mv" && o.spec.V2Table() == "agg_v2" && o.C().Listed("mv");
    assert LiveIn(o.C(), o.db, "mv");
    OurNames(o.spec, "mv_v2");
  }

  lemma SwapKeeps(c: Setting, w: World, w': World, backup: string)
    requires c.spec.targetTable == "agg" && MidCutover(c, w, w'.(log := w.log), backup) && Swapped(c, w, w', backup)
    ensures TablesSwapped(w.db, w'.db, backup)
  {
    assert c.V2() == "agg_v2";
  }

  lemma SinceRun(first: Db, before: Db, after: Db, backup: string)
    requires TablesSwapped(before, after, backup) && Kept(first, before)
    requires "agg" in first.tables && "agg_v2" !in first.tables && first.tables["agg"] <= before.tables["agg"]
    requires before.tables.Keys <= first.tables.Keys + {"agg_v2"}
    ensures TablesSwapped(first, after, backup)
  {
  }

  method RunAndSwap(o: Orchestrator, day: string) returns (ok: bool)
    requires Begins(o)
    modifies o
    ensures o.Ok() && (ok <==> o.spec.BackupTable(day) !in old(o.db.tables))
    ensures ok ==> CutOverWell(o) && TablesSwapped(old(o.db), o.db, o.spec.BackupTable(day)) && CutOverLogged(o)
    ensures ok ==> Row("mv", EVENT) in o.db.tables["agg"]
    ensures ok ==> Truth(o.C(), o.defs, o.db, Names(o.C()), All)[Row("mv", EVENT)] == 1
    ensures !ok ==> NoListedView(o.C(), o.db)
  {
    ghost var first := o.db;
    assert o.spec.V2Table() == "agg_v2";
    RunExactly(o);
    ghost var before := o.db;
    ok := SwapExact(o, day);
    if ok { SinceRun(first, before, o.db, o.spec.BackupTable(day)); }
  }

  /** The next rebuild of the same table is another operation with a log of its own. */
  method NextOperation(last: Orchestrator) returns (o: Orchestrator)
    requires CutOverWell(last)
    ensures fresh(o) && Begins(o) && o.db == last.db && o.spec.targetTable == "agg"
  {
    var spec := SPEC.(name := "next");
    SpecIsSound(spec, MIX);
    ghost var c := Setting(spec, DEFS, MIX, NAMES);
    NoCopyLeft(last);
    forall m ensures LiveAt(c, World(last.db, [], EmptyBook(last.now, true)), m)
      && OwnAt(c, World(last.db, [], EmptyBook(last.now, true)), m)
    {
      InvParts(last.C(), last.W());
      assert LiveAt(last.C(), last.W(), m) && OwnAt(last.C(), last.W(), m);
    }
    o := new Orchestrator(spec, MIX, COUNT, DEFS, NAMES, last.db, last.now, []);
    assert o.C().V2() == last.C().V2();
    assert Names(o.C()) == Names(last.C());
  }

  lemma NoCopyLeft(o: Orchestrator)
    requires CutOverWell(o)
    ensures forall m :: m in NAMES ==> V2Name(m) !in o.db.views
  {
    InvParts(o.C(), o.W());
    forall m | m in NAMES ensures V2Name(m) !in o.db.views {
      assert ArmedAt(o.C(), o.W(), m);
    }
  }

  lemma BackupName(spec: Spec, day: string)
    requires spec.targetTable == "agg"
    ensures spec.BackupTable(day) == "agg_backup_" + day
    ensures spec.BackupTable(day) != "agg" && spec.BackupTable(day) != "agg_v2"
  {
    assert "agg" + "_backup_" == "agg_backup_";
    assert spec.V2Table() == "agg_v2";
  }

  method StartFresh() returns (o: Orchestrator)
    ensures fresh(o) && Begins(o) && o.spec.targetTable == "agg"
    ensures o.db.tables.Keys == {"agg"} && Row("mv", EVENT) in o.db.tables["agg"]
  {
    o := Start(USUAL, [], [EVENT], []);
    assert o.C().V2() == "agg_v2" && SPEC.mvs == ["mv"] && SPEC.mvs[0] == "mv";
    assert [EVENT] == [] + [EVENT];
  }

  /** The one backup there is was made on this day. */
  ghost predicate OneBackup(db: Db, day: string) {
    && "agg" in db.tables && Row("mv", EVENT) in db.tables["agg"]
    && BackedUp(db, day) && forall d :: HasBackup(db, d) ==> d == day
  }

  ghost predicate HasBackup(db: Db, day: string) { "agg_backup_" + day in db.tables }

  /** The old table of a cutover on this day is there, with its row. */
  ghost predicate BackedUp(db: Db, day: string) {
    HasBackup(db, day) && Row("mv", EVENT) in db.tables["agg_backup_" + day]
  }

  lemma OnlyBackup(before: Db, after: Db, spec: Spec, day: string)
    requires spec.targetTable == "agg" && before.tables.Keys == {"agg"} && Row("mv", EVENT) in before.tables["agg"]
    requires TablesSwapped(before, after, spec.BackupTable(day))
    requires "agg" in after.tables && Row("mv", EVENT) in after.tables["agg"]
    ensures OneBackup(after, day)
  {
    BackupName(spec, day);
    forall d
      ensures HasBackup(after, d) <==> d == day
    {
      BackupName(spec, d);
      BackupsDiffer(spec, day, d);
    }
  }

  /** A rebuild from the start, cut over. */
  method FirstRebuild(day: string) returns (o: Orchestrator, ok: bool)
    ensures fresh(o) && ok && CutOverWell(o) && CutOverLogged(o)
    ensures o.spec.validations == [] && o.spec.backfill == USUAL
    ensures OneBackup(o.db, day)
  {
    o := StartFresh();
    ghost var start := o.db;
    BackupName(o.spec, day);
    ok := RunAndSwap(o, day);
    OnlyBackup(start, o.db, o.spec, day);
  }

  method SwapNext(a: Orchestrator, ghost day: string, later: string) returns (o: Orchestrator, ok: bool)
    requires CutOverWell(a) && OneBackup(a.db, day)
    ensures fresh(o) && o.Ok() && (ok <==> !HasBackup(a.db, later))
    ensures ok ==> LiveExact(o.C(), o.W()) && BackedUp(o.db, day) && BackedUp(o.db, later)
    ensures !ok ==> NoListedView(o.C(), o.db)
  {
    ghost var before := a.db;
    o := NextOperation(a);
    NameTaken(before, o.spec, later);
    ok := RunAndSwap(o, later);
    if ok { StillBackedUp(before, o.db, o.spec, day, later); }
  }

  lemma NameTaken(db: Db, spec: Spec, day: string)
    requires spec.targetTable == "agg"
    ensures spec.BackupTable(day) in db.tables <==> HasBackup(db, day)
  {
    BackupName(spec, day);
  }

  lemma StillBackedUp(before: Db, after: Db, spec: Spec, day: string, later: string)
    requires spec.targetTable == "agg" && OneBackup(before, day)
    requires TablesSwapped(before, after, spec.BackupTable(later))
    ensures BackedUp(after, day) && BackedUp(after, later)
  {
    BackupName(spec, day);
    BackupName(spec, later);
  }

  /** Two rebuilds of one table, both without a disturbance.  Cut over on different days both go
      well, and both old tables are kept with all their rows; on the same day the second cutover
      drops the views and fails at the RENAME. */
  method TwoRebuilds(day: string, later: string) returns (o: Orchestrator, first: bool, second: bool)
    ensures fresh(o) && o.Ok() && first && (second <==> day != later)
    ensures second ==> LiveExact(o.C(), o.W()) && BackedUp(o.db, day) && BackedUp(o.db, later)
    ensures !second ==> NoListedView(o.C(), o.db)
  {
    var a;
    a, first := FirstRebuild(day);
    o, second := SwapNext(a, day, later);
  }

  /** The same operation run again after its cutover: the boundary and the chunk records of the first
      rebuild are still in force, so the new table gets no history; run and second cutover succeed,
      and the live table has lost the event. */
  method RebuildAgain(day: string, later: string) returns (o: Orchestrator, first: bool, again: bool, second: bool)
    requires day != later
    ensures fresh(o) && o.Ok() && first && again && second
    ensures o.db.sources == map["src" := [EVENT]] && "agg" in o.db.tables && o.db.tables["agg"][Row("mv", EVENT)] == 0
  {
    o, first := FirstRebuild(day);
    again, second := RerunAndSwap(o, later);
  }

  method RerunAndSwap(o: Orchestrator, later: string) returns (again: bool, second: bool)
    requires CutOverWell(o) && CutOverLogged(o) && o.spec.validations == [] && o.spec.backfill == USUAL
    requires !HasBackup(o.db, later)
    modifies o
    ensures o.Ok() && again && second
    ensures o.db.sources == map["src" := [EVENT]] && "agg" in o.db.tables && o.db.tables["agg"][Row("mv", EVENT)] == 0
  {
    BackupName(o.spec, later);
    again := RunSkipping(o);
    second := SwapEmpty(o, later);
  }

  method RunSkipping(o: Orchestrator) returns (ok: bool)
    requires CutOverWell(o) && CutOverLogged(o) && o.spec.validations == [] && o.spec.backfill == USUAL
    modifies o
    ensures ok && Ours(o, [EVENT]) && o.Owner() && o.script == [] && o.log != [] && Last(o.log).phase == Phase.Validated
    ensures Held(o.C(), o.W(), "mv", EVENT) == 0 && o.db.tables.Keys <= old(o.db.tables.Keys) + {"agg_v2"}
  {
    ghost var w := o.W();
    OursCanRun(o, [EVENT]);
    ok := RunSmoothly(o, [EVENT], OPTIONS);
    CarriedOver(o, w);
  }

  method SwapEmpty(o: Orchestrator, day: string) returns (ok: bool)
    requires Ours(o, [EVENT]) && o.Owner() && o.script == [] && o.log != [] && Last(o.log).phase == Phase.Validated
    requires Held(o.C(), o.W(), "mv", EVENT) == 0 && o.spec.BackupTable(day) !in o.db.tables
    modifies o
    ensures o.Ok() && ok && o.db.sources == map["src" := [EVENT]]
    ensures "agg" in o.db.tables && o.db.tables["agg"][Row("mv", EVENT)] == 0
  {
    OursCanRun(o, [EVENT]);
    BackupIsFree(o, day);
    ghost var swapping;
    ok, swapping := Cutover(o, true, day);
  }

  lemma OneInTruth(c: Setting, db: Db)
    requires c.defs == DEFS && c.Listed("mv") && db.sources == map["src" := [EVENT]]
    ensures Truth(c, c.defs, db, Names(c), All)[Row("mv", EVENT)] == 1
  {
  }

  lemma RunIsExact(o: Orchestrator, w0: World)
    requires Ours(o, [EVENT]) && Ran(o.C(), w0, o.W(), CFG, true) && !HasV2(o.C(), w0) && w0.log == [] && o.Owner()
    requires o.book.arrived == w0.book.arrived && Bounded(o.W()) && T(o.W()) > 0 && OnlyListedFeed(o.C(), w0.db)
    ensures Exact(o.C(), o.W()) && SameDefs(o.C(), o.W()) && OnlyListedFeed(o.C(), o.db)
  {
    OursCanRun(o, [EVENT]);
    FirstRunIsExactIff(o.C(), o.W(), CFG);
    MissedIffAhead(o.C(), o.W());
    forall n | n in o.db.views && o.db.views[n].target == "agg"
      ensures o.C().Listed(n)
    {
      assert ViewKept(o.C(), w0, o.W(), n);
    }
  }
}
