/** The orchestrator, statement by statement.  A script decides, before every statement,
    which inserts the sources receive and how the statement ends; every contract holds for
    every script. */
module Orchestrators {
  import opened Text
  import opened Ordering
  import opened Warehouse
  import opened Outcomes
  import opened Journal
  import opened Limits
  import opened Chunks
  import opened Protocol
  import opened Statements
  import opened Accounting
  import opened Progress

  /** The statements a disturbance can wait for.  Any of them can be disturbed at any time, as
      moves without effect can be put before it; telling three kinds apart makes it possible to
      say which statement a given script strikes. */
  datatype Step = Plain | ChunkRecord | CutoverRecord

  function StepOf(phase: Phase): Step {
    match phase
    case Backfilled => ChunkRecord
    case CutOver => CutoverRecord
    case _ => Plain
  }

  /** What happens at the next statement of kind at: first these inserts and this time, then
      the statement's outcome. */
  datatype Move = Move(at: Step, inserts: seq<(string, seq<Event>)>, elapsed: nat, outcome: Outcome, message: string)

  datatype Options = Options(boundaryOffset: int, lagPoll: int, backfill: Config) {
    function WithDefaults(): (o: Options)
      ensures o.boundaryOffset > 0 && o.lagPoll > 0
      ensures (boundaryOffset > 0 ==> o.boundaryOffset == boundaryOffset) && (lagPoll > 0 ==> o.lagPoll == lagPoll)
    {
      Options(
        if boundaryOffset <= 0 then 600 * SECOND else boundaryOffset,
        if lagPoll <= 0 then 60 * SECOND else lagPoll,
        backfill)
    }
  }

  /** One process: a spec and what it knows, working on the shared server and log. */
  class Orchestrator {
    const spec: Spec
    const hash: Hash
    const eval: (string, multiset<Row>) -> string
    ghost const defs: map<string, MV>
    ghost const names: set<string>  // of views that any spec of the operation may list

    var db: Db
    var log: seq<Record>
    var now: nat
    var script: seq<Move>
    ghost var book: Book

    ghost function C(): Setting { Setting(spec, defs, hash, names) }

    ghost function W(): World
      reads this
    {
      World(db, log, book)
    }

    ghost predicate Ok()
      reads this
    {
      Inv(C(), W()) && book.pace.clock == now && spec.hash != ""
    }

    /** A server on which no rebuild has started. */
    constructor (spec: Spec, hash: Hash, eval: (string, multiset<Row>) -> string, ghost defs: map<string, MV>,
                 ghost names: set<string>, db: Db, now: nat, script: seq<Move>)
      requires
        var c := Setting(spec, defs, hash, names);
        var w := World(db, [], EmptyBook(now, true));
        && c.Sound() && !HasV2(c, w)
        && (forall m :: m in names ==> V2Name(m) !in db.views)
        && (forall m :: LiveAt(c, w, m) && OwnAt(c, w, m))
        && (forall n :: n in db.views ==> db.views[n].target in db.tables)
      ensures Ok() && log == [] && book == EmptyBook(now, FutureDated(db, now))
      ensures this.spec == spec && this.hash == hash && this.eval == eval
      ensures this.defs == defs && this.names == names
      ensures this.db == db && this.now == now && this.script == script
    {
      this.spec, this.hash, this.eval, this.defs, this.names := spec, hash, eval, defs, names;
      this.db, this.log, this.now, this.script := db, [], now, script;
      book := EmptyBook(now, FutureDated(db, now));
      new;
      if !book.pace.ahead {
        forall s ensures PresentAt(W(), s) {}
      }
      forall m ensures LiveAt(C(), W(), m) && OwnAt(C(), W(), m) {
        ghost var w := World(db, [], EmptyBook(now, true));
        assert LiveAt(C(), w, m) && OwnAt(C(), w, m);
      }
      InitialWorld(C(), W());
    }

    /** A process with another spec, which may list other views, takes over where the last one
        ended or died. */
    constructor Attach(last: Orchestrator, spec: Spec)
      requires last.Ok() && SameTarget(last.C(), spec) && HashTells(last.C(), last.W(), spec)
      ensures Ok() && W() == last.W() && now == last.now && script == last.script
      ensures this.spec == spec && this.hash == last.hash && this.eval == last.eval
      ensures defs == DefsOf(last.C(), spec, last.W()) && names == last.names
    {
      this.spec, this.hash, this.eval := spec, last.hash, last.eval;
      this.defs, this.names := DefsOf(last.C(), spec, last.W()), last.names;
      this.db, this.log, this.now, this.script, this.book := last.db, last.log, last.now, last.script, last.book;
      new;
      AttachKeepsInv(last.C(), C(), last.W());
    }

    // ---------- the environment ----------

    /** No disturbance waits for this kind of statement. */
    ghost predicate Idle(step: Step)
      reads this`script
    {
      script == [] || script[0].at != step
    }

    /** Nothing goes wrong before the next chunk or cutover record: every other statement
        succeeds and no insert arrives. */
    ghost predicate Smooth()
      reads this`script
    {
      Idle(Plain)
    }

    /** Nothing goes wrong in a whole run. */
    ghost predicate Undisturbed()
      reads this`script
    {
      Idle(Plain) && Idle(ChunkRecord)
    }

    /** Nothing struck and no insert arrived. */
    twostate predicate Quietly()
      reads this`script, this`book
    {
      script == old(script) && book.arrived == old(book.arrived)
    }

    /** Nor did time pass. */
    twostate predicate AtOnce()
      reads this`script, this`book, this`now
    {
      Quietly() && now == old(now)
    }

    /** The next chunk record is struck, and nothing else is before it. */
    ghost predicate Striking()
      reads this`script
    {
      script != [] && script[0].at == ChunkRecord && script[0].inserts == [] && !script[0].outcome.Applied?
    }

    /** What a step does when the next chunk record is struck: nothing to the table if there was
        no chunk to insert; else it ends after one chunk, recorded if the record was only cut. */
    ghost predicate Struck(w: World, moves: seq<Move>, ok: bool)
      reads this
    {
      book.arrived == w.book.arrived && StruckFrom(w.book.ledger, w.book.torn, Completed(w.log), moves, ok)
    }

    ghost predicate StruckFrom(before: seq<Chunk>, torn: multiset<string>, done: set<string>,
                               moves: seq<Move>, ok: bool)
      reads this
    {
      && moves != []
      && if ok then script == moves && book.ledger == before && book.torn == torn && Completed(log) == done
         else
           && script == moves[1..] && |book.ledger| == |before| + 1
           && var cursor := book.ledger[|before|].Cursor();
              if moves[0].outcome.Lost?
              then Completed(log) == done && book.torn == torn + multiset{cursor}
              else Completed(log) == done + {cursor} && book.torn == torn
    }

    /** The inserts and the time that pass before the next statement, and its fate. */
    method Interleave(step: Step) returns (outcome: Outcome, message: string)
      requires Ok()
      modifies this`db, this`now, this`script, this`book
      ensures Ok() && Calm(old(W()), W()) && old(now) <= now
      ensures old(Idle(step)) ==> script == old(script) && outcome.Applied? && W() == old(W())
      ensures !old(Idle(step)) ==> script == old(script)[1..] && outcome == old(script)[0].outcome
      ensures !old(Idle(step)) && old(script)[0].inserts == [] ==> book.arrived == old(book.arrived)
    {
      if script == [] || script[0].at != step {
        CalmReflexive(W());
        return Applied, "";
      }
      var move := script[0];
      script := script[1..];
      Arrivals(move.inserts);
      ghost var w := W();
      now := now + move.elapsed;
      book := AfterTick(w, now).book;
      assert W() == AfterTick(w, now);
      TickAfterCalm(C(), old(W()), w, now);
      return move.outcome, move.message;
    }

    method Arrivals(inserts: seq<(string, seq<Event>)>)
      requires Ok()
      modifies this`db, this`book
      ensures Ok() && Calm(old(W()), W())
      ensures inserts == [] ==> book.arrived == old(book.arrived)
    {
      CalmReflexive(W());
      var i := 0;
      while i < |inserts|
        invariant Ok() && Calm(old(W()), W())
        invariant inserts == [] ==> book.arrived == old(book.arrived)
      {
        ghost var w := W();
        var (source, batch) := inserts[i];
        Arrival(source, batch);
        CalmTransitive(old(W()), w, W());
        i := i + 1;
      }
    }

    method Arrival(source: string, batch: seq<Event>)
      requires Ok()
      modifies this`db, this`book
      ensures Ok() && Calm(old(W()), W())
    {
      ghost var w := W();
      db := Insert(hash, db, source, batch);
      book := AfterArrival(C(), w, source, batch).book;
      assert W() == AfterArrival(C(), w, source, batch);
      ArrivalKeepsInv(C(), w, source, batch);
      ArrivalIsCalm(C(), w, source, batch);
    }

    /** A statement without effect: a query, a probe, a wait. */
    method Pass() returns (ok: bool)
      requires Ok()
      modifies this`db, this`now, this`script, this`book
      ensures Ok() && Calm(old(W()), W()) && old(now) <= now
      ensures old(Smooth()) ==> AtOnce() && ok
    {
      var outcome, _ := Interleave(Plain);
      ok := outcome.Applied?;
    }

    method Sleep(d: nat) returns (ok: bool)
      requires Ok()
      modifies this`db, this`now, this`script, this`book
      ensures Ok() && Calm(old(W()), W())
      ensures old(now) <= now && (ok ==> now >= old(now) + d)
      ensures old(Smooth()) ==> Quietly() && ok && now == old(now) + d
    {
      ok := Pass();
      if ok {
        ghost var w := W();
        now := now + d;
        book := AfterTick(w, now).book;
        assert W() == AfterTick(w, now);
        TickAfterCalm(C(), old(W()), w, now);
      }
    }

    // ---------- the log ----------

    method Records() returns (ok: bool, recs: seq<Record>)
      requires Ok()
      modifies this`db, this`now, this`script, this`book
      ensures Ok() && Calm(old(W()), W())
      ensures ok ==> recs == log
      ensures old(Smooth()) ==> AtOnce() && ok
    {
      ok := Pass();
      recs := log;
    }

    method Append(r: Record) returns (ok: bool, ghost mid: World)
      requires Ok() && Appendable(C(), W(), r)
      modifies this`db, this`log, this`now, this`script, this`book
      ensures Ok() && Inv(C(), mid) && Calm(old(W()), mid) && old(now) <= now
      ensures Appendable(C(), mid, r) && mid.book.pace.clock == now
      ensures W() == mid || W() == AfterAppend(C(), mid, r)
      ensures ok ==> W() == AfterAppend(C(), mid, r)
      ensures old(Idle(StepOf(r.phase))) ==> script == old(script) && ok && mid == old(W())
      ensures !old(Idle(StepOf(r.phase))) && old(script)[0].inserts == [] && old(script)[0].outcome.Lost? ==>
        script == old(script)[1..] && W() == mid && mid.book.arrived == old(book.arrived)
      ensures !old(Idle(StepOf(r.phase))) && old(script)[0].inserts == [] && old(script)[0].outcome.Cut? ==>
        script == old(script)[1..] && W() == AfterAppend(C(), mid, r) && mid.book.arrived == old(book.arrived) && !ok
      ensures old(Striking()) && r.phase == Backfilled ==> !ok
    {
      var outcome, _ := Interleave(StepOf(r.phase));
      mid := W();
      if !outcome.Lost? {
        log := log + [r];
        book := AfterAppend(C(), mid, r).book;
        AppendKeepsInv(C(), mid, r);
      }
      ok := outcome.Applied?;
    }

    /** Append one of this run's records. */
    method Note(phase: Phase, status: Status, cursor: string, detail: string) returns (ok: bool)
      requires Ok() && Appendable(C(), W(), Record(spec.hash, phase, status, cursor, detail))
      modifies this`db, this`log, this`now, this`script, this`book
      ensures Ok() && Forward(C(), old(W()), W()) && old(now) <= now
      ensures Noted(old(W()), W(), Record(spec.hash, phase, status, cursor, detail))
      ensures ok ==> log == old(log) + [Record(spec.hash, phase, status, cursor, detail)]
      ensures ok && phase == LagDrained ==> book.drained
      ensures old(Idle(StepOf(phase))) ==>
        AtOnce() && ok
      ensures old(Striking()) && phase == Backfilled ==>
        !ok && script == old(script)[1..] && book.arrived == old(book.arrived) &&
        (log == old(log) <==> old(script)[0].outcome.Lost?)
    {
      var r := Record(spec.hash, phase, status, cursor, detail);
      ghost var w0, mid := W(), W();
      ok, mid := Append(r);
      NextRecord(C(), w0, mid, W(), r);
    }

    // ---------- statements on tables and views ----------

    /** Is the present v2 table built from this process's definitions? */
    ghost predicate Owner()
      reads this
    {
      Ok() && HasV2(C(), W()) && Mine(C(), W())
    }

    /** Is m this process's definition of a listed view? */
    ghost predicate IsOwn(m: MV) {
      C().Listed(m.name) && m.name in defs && m == defs[m.name]
    }

    lemma OwnerIsGrounded()
      requires Owner()
      ensures AllGrounded(defs, db)
    {
      InvParts(C(), W());
      forall m | m in defs ensures Grounded(defs, db, m) { OwnDef(m); }
    }

    /** This process's definition of a view it lists is the one v2 is built from. */
    lemma OwnDef(m: string)
      requires Owner() && (C().Listed(m) || m in defs)
      ensures C().Listed(m) && m in defs && m in W().Defs() && W().Defs()[m] == defs[m]
      ensures Grounded(W().Defs(), db, m)
    {
      InvParts(C(), W());
      assert m in Names(C()) && AgreesAt(C(), W().Defs(), m);
    }

    method CreateV2() returns (ok: bool, ghost mid: World)
      requires Ok() && AllGrounded(defs, db) && Guarded(C(), log)
      modifies this`db, this`now, this`script, this`book
      ensures Ok() && Inv(C(), mid) && Calm(old(W()), mid) && AllGrounded(defs, mid.db)
      ensures W() == mid || W() == AfterCreate(C(), mid)
      ensures ok ==> W() == AfterCreate(C(), mid) && Mine(C(), W())
      ensures old(Smooth()) ==> script == old(script) && ok && mid == old(W())
    {
      var outcome, _ := Interleave(Plain);
      mid := W();
      StillGrounded(old(db));
      if !outcome.Lost? {
        db := CreateTable(db, spec.V2Table());
        book := AfterCreate(C(), mid).book;
        CreateKeepsInv(C(), mid);
      }
      ok := outcome.Applied?;
    }

    method Arm(m: MV, t: nat) returns (ok: bool)
      requires Owner() && Boundary(log) == Some(t) && IsOwn(m)
      modifies this`db, this`now, this`script, this`book
      ensures Owner() && Forward(C(), old(W()), W())
      ensures log == old(log) && book.ledger == old(book.ledger) && book.torn == old(book.torn)
      ensures book.drained == old(book.drained)
      ensures ok ==> V2Name(m.name) in db.views
      ensures ArmedSince(old(W()), W(), ok)
      ensures book.tuning == old(book.tuning) && book.retuned == old(book.retuned)
      ensures old(Smooth()) ==> AtOnce() && ok
    {
      ghost var w0 := W();
      var outcome, _ := Interleave(Plain);
      ghost var mid := W();
      CalmIsForward(C(), w0, mid);
      if !outcome.Lost? {
        db := CreateView(db, V2Name(m.name), View(m, spec.V2Table(), Some(t)));
        book := AfterArm(C(), mid, m.name).book;
        ArmAfterCalm(C(), w0, mid, m.name);
        assert W() == AfterArm(C(), mid, m.name);
      }
      ok := outcome.Applied?;
    }

    method InsertBackfill(k: Chunk, source: string, t: nat, cfg: Config) returns (ok: bool)
      requires Owner() && Boundary(log) == Some(t) && book.drained
      requires C().Listed(k.mv) && k.mv in defs && source == defs[k.mv].source
      requires book.tuning.Some? && (book.tuning.value == cfg || book.retuned)
      requires !book.late ==> Planned(C(), W(), k, cfg)
      modifies this`db, this`now, this`script, this`book
      ensures Owner() && Forward(C(), old(W()), W()) && log == old(log)
      ensures if book.ledger == old(book.ledger) then book.torn == old(book.torn)
              else book.ledger == old(book.ledger) + [k] && book.torn == old(book.torn) + multiset{k.Cursor()}
      ensures ok ==> book.ledger == old(book.ledger) + [k]
      ensures book.tuning == old(book.tuning) && book.retuned == old(book.retuned)
      ensures !book.late ==> Planned(C(), W(), k, cfg)
      ensures old(Smooth()) ==> Quietly() && ok
    {
      ghost var w0 := W();
      var outcome, _ := Interleave(Plain);
      ghost var mid := W();
      CalmIsForward(C(), w0, mid);
      StillPlanned(w0, mid, k, cfg);
      if !outcome.Lost? {
        CopyChunk(k, source, t, cfg);
        ForwardTransitive(C(), w0, mid, W());
      }
      ok := outcome.Applied?;
    }

    /** The effect of a chunk's INSERT. */
    method CopyChunk(k: Chunk, source: string, t: nat, ghost cfg: Config)
      requires Owner() && Boundary(log) == Some(t) && book.drained
      requires C().Listed(k.mv) && k.mv in defs && source == defs[k.mv].source
      requires book.tuning.Some? && (book.tuning.value == cfg || book.retuned)
      requires !book.late ==> Planned(C(), W(), k, cfg)
      modifies this`db, this`book
      ensures Owner() && Forward(C(), old(W()), W()) && log == old(log)
      ensures book.ledger == old(book.ledger) + [k] && book.torn == old(book.torn) + multiset{k.Cursor()}
      ensures book.tuning == old(book.tuning) && book.retuned == old(book.retuned) && book.arrived == old(book.arrived)
      ensures !book.late ==> Planned(C(), W(), k, cfg)
    {
      ghost var w := W();
      OwnDef(k.mv);
      db := InsertChunk(hash, db, spec.V2Table(), source, t, k);
      book := AfterChunk(C(), w, k).book;
      assert W() == AfterChunk(C(), w, k);
      ChunkKeepsInv(C(), w, k);
      ChunkIsForward(C(), w, k);
      StillPlanned(w, W(), k, cfg);
    }

    lemma StillPlanned(w: World, w': World, k: Chunk, cfg: Config)
      requires Forward(C(), w, w') && w.book.drained && (!w.book.late ==> Planned(C(), w, k, cfg))
      ensures !w'.book.late ==> Planned(C(), w', k, cfg)
    {
      if !w'.book.late { PlannedLasts(C(), w, w', k, cfg); }
    }

    // ---------- queries ----------

    /** Rows of a source before t, as counted by the lag-drain poll. */
    ghost function Early(source: string, events: seq<Event>, t: nat): multiset<Row> {
      Select(hash, source, events, Before(t))
    }

    method CountBefore(source: string, t: nat) returns (ok: bool, n: nat)
      requires Ok() && source in db.sources
      modifies this`db, this`now, this`script, this`book
      ensures Ok() && Calm(old(W()), W()) && old(now) <= now
      ensures n == |Early(source, db.sources[source], t)|
      ensures old(Smooth()) ==> AtOnce() && ok
    {
      ok := Pass();
      n := |Select(hash, source, db.sources[source], Before(t))|;
    }

    method CountDay(m: MV, val: string, t: nat) returns (ok: bool, n: nat)
      requires Owner() && IsOwn(m)
      modifies this`db, this`now, this`script, this`book
      ensures Owner() && Calm(old(W()), W())
      ensures Grounded(W().Defs(), db, m.name) && n == |DayRows(C(), W(), m.name, t, val)|
      ensures old(Smooth()) ==> Quietly() && ok
    {
      ok := Pass();
      OwnDef(m.name);
      n := |Select(hash, m.name, db.sources[m.source], Day(t, val))|;
    }

    /** The value of a validation expression over a table, or an error text. */
    method Query(expr: string, table: string) returns (ok: bool, answer: string)
      requires Ok()
      modifies this`db, this`now, this`script, this`book
      ensures Ok() && Calm(old(W()), W())
      ensures ok ==> table in db.tables && answer == eval(expr, db.tables[table])
      ensures old(Smooth()) ==> Quietly()
      ensures old(Smooth()) ==> (ok <==> table in db.tables)
    {
      var outcome, message := Interleave(Plain);
      if !outcome.Applied? || table !in db.tables {
        return false, message;
      }
      return true, eval(expr, db.tables[table]);
    }

    // ---------- view definitions ----------

    ghost predicate Loaded(mvs: seq<MV>) {
      |mvs| == |spec.mvs| && forall i :: 0 <= i < |mvs| ==> spec.mvs[i] in defs && mvs[i] == defs[spec.mvs[i]]
    }

    method FetchMV(name: string) returns (ok: bool, mv: MV)
      requires Ok() && C().Listed(name) && FromCatalog(spec.newMVs, name)
      modifies this`db, this`now, this`script, this`book
      ensures Ok() && Calm(old(W()), W())
      ensures ok ==> name in defs && mv == defs[name]
      ensures name !in db.views ==> !ok
      ensures old(Smooth()) ==> AtOnce()
      ensures old(Smooth()) ==> (ok <==> name in db.views)
    {
      ok := Pass();
      InvParts(C(), W());
      mv := MV(name, "", "", "", {});
      assert LiveAt(C(), W(), name) && OwnAt(C(), W(), name);
      assert name in Names(C());
      if !ok || name !in db.views || db.views[name].lower.Some? {
        return false, mv;
      }
      mv := db.views[name].def;
    }

    /** Can the definition of m be had? */
    ghost predicate AvailableAt(m: string, views: set<string>) {
      if FromCatalog(spec.newMVs, m) then m in views else Supplies(spec.newMVs, m)
    }

    ghost predicate Available()
      reads this`db
    {
      forall m :: C().Listed(m) ==> AvailableAt(m, db.views.Keys)
    }

    /** The supplied definition, or else the catalog's. */
    method LoadMV(name: string) returns (ok: bool, mv: MV)
      requires Ok() && C().Listed(name)
      modifies this`db, this`now, this`script, this`book
      ensures Ok() && Calm(old(W()), W())
      ensures ok ==> LoadedAt(mv, name, db.views.Keys)
      ensures old(Smooth()) ==>
        AtOnce() &&
        (ok <==> AvailableAt(name, db.views.Keys))
    {
      if !FromCatalog(spec.newMVs, name) {
        mv := if spec.newMVs[name].Defines? then spec.newMVs[name].mv else MV("", "", "", "", {});
        ok := spec.newMVs[name].Defines? && mv.name == name;
        InvParts(C(), W());
        assert name in Names(C()) && C().SuppliedAt(name);
      } else {
        ok, mv := FetchMV(name);
      }
    }

    ghost predicate LoadedUpTo(mvs: seq<MV>, views: set<string>) {
      |mvs| <= |spec.mvs| && forall j :: 0 <= j < |mvs| ==> LoadedAt(mvs[j], spec.mvs[j], views)
    }

    ghost predicate LoadedAt(mv: MV, name: string, views: set<string>) {
      name in defs && mv == defs[name] && AvailableAt(name, views)
    }

    /** The definition of each listed view. */
    method LoadMVs() returns (ok: bool, mvs: seq<MV>)
      requires Ok()
      modifies this`db, this`now, this`script, this`book
      ensures Ok() && Calm(old(W()), W())
      ensures ok ==> Loaded(mvs) && Available()
      ensures old(Smooth()) ==> AtOnce()
      ensures old(Smooth()) ==> (old(Available()) ==> ok)
    {
      mvs := [];
      CalmReflexive(W());
      var i := 0;
      while i < |spec.mvs|
        invariant 0 <= i == |mvs| <= |spec.mvs|
        invariant Ok() && Calm(old(W()), W())
        invariant LoadedUpTo(mvs, db.views.Keys)
        invariant old(Smooth()) ==> AtOnce()
      {
        ghost var w := W();
        var mv;
        ok, mv := LoadMV(spec.mvs[i]);
        CalmTransitive(old(W()), w, W());
        if !ok {
          return;
        }
        mvs := mvs + [mv];
        i := i + 1;
      }
      ok := true;
      AllLoaded(mvs, db.views.Keys);
    }

    lemma AllLoaded(mvs: seq<MV>, views: set<string>)
      requires LoadedUpTo(mvs, views) && |mvs| == |spec.mvs|
      ensures Loaded(mvs) && forall m :: C().Listed(m) ==> AvailableAt(m, views)
    {
      forall m | C().Listed(m)
        ensures AvailableAt(m, views)
      {
        var j :| 0 <= j < |spec.mvs| && spec.mvs[j] == m;
        assert LoadedAt(mvs[j], spec.mvs[j], views);
      }
      forall i | 0 <= i < |mvs|
        ensures spec.mvs[i] in defs && mvs[i] == defs[spec.mvs[i]]
      {
        assert LoadedAt(mvs[i], spec.mvs[i], views);
      }
    }

    ghost predicate ResolveUpTo(mvs: seq<MV>, n: nat)
      reads this`db
      requires n <= |mvs|
    {
      forall i :: 0 <= i < n ==> Resolves(db, mvs[i], spec.boundaryColumn)
    }

    /** Resolve every definition against its source; nothing is changed. */
    method Preflight(mvs: seq<MV>) returns (ok: bool)
      requires Ok()
      modifies this`db, this`now, this`script, this`book
      ensures Ok() && Calm(old(W()), W())
      ensures ok ==> ResolveUpTo(mvs, |mvs|)
      ensures old(Smooth()) ==>
        AtOnce() &&
        (ok <==> ResolveUpTo(mvs, |mvs|))
    {
      CalmReflexive(W());
      var i := 0;
      while i < |mvs|
        invariant 0 <= i <= |mvs| && ResolveUpTo(mvs, i)
        invariant Ok() && Calm(old(W()), W())
        invariant old(Smooth()) ==> AtOnce()
      {
        ghost var w := W();
        ok := Pass();
        CalmTransitive(old(W()), w, W());
        if !ok || !Resolves(db, mvs[i], spec.boundaryColumn) {
          return false;
        }
        i := i + 1;
      }
      ok := true;
    }

    /** The sources of mvs, each once, in order of first use. */
    method DistinctSources(mvs: seq<MV>) returns (sources: seq<string>)
      ensures forall i, j :: 0 <= i < j < |sources| ==> sources[i] != sources[j]
      ensures forall s :: s in sources <==> exists i :: 0 <= i < |mvs| && mvs[i].source == s
    {
      sources := [];
      var seen: set<string> := {};
      var i := 0;
      while i < |mvs|
        invariant 0 <= i <= |mvs|
        invariant forall s :: s in seen <==> s in sources
        invariant forall j, k :: 0 <= j < k < |sources| ==> sources[j] != sources[k]
        invariant forall s :: s in sources <==> exists j :: 0 <= j < i && mvs[j].source == s
      {
        if mvs[i].source !in seen {
          seen := seen + {mvs[i].source};
          sources := sources + [mvs[i].source];
        }
        i := i + 1;
      }
    }

    // ---------- lag-drain ----------

    lemma SourceOfListed(mvs: seq<MV>, m: string)
      requires Loaded(mvs) && C().Listed(m)
      ensures m in defs && exists i :: 0 <= i < |mvs| && mvs[i].source == defs[m].source
    {
      var i :| 0 <= i < |spec.mvs| && spec.mvs[i] == m;
      assert mvs[i].source == defs[m].source;
    }

    lemma SourcesExist(mvs: seq<MV>, sources: seq<string>)
      requires Loaded(mvs) && AllGrounded(defs, db)
      requires forall s :: s in sources <==> exists i :: 0 <= i < |mvs| && mvs[i].source == s
      ensures forall s :: s in sources ==> s in db.sources
    {
      forall s | s in sources
        ensures s in db.sources
      {
        var i :| 0 <= i < |mvs| && mvs[i].source == s;
        assert C().Listed(spec.mvs[i]) && Grounded(defs, db, spec.mvs[i]);
      }
    }

    /** Each sample is a source's contents at some moment between a and b. */
    ghost predicate Between(a: Db, samples: map<string, seq<Event>>, b: Db) {
      forall s :: s in samples ==>
        s in a.sources && s in b.sources && a.sources[s] <= samples[s] <= b.sources[s]
    }

    lemma BetweenLasts(a: Db, samples: map<string, seq<Event>>, w: World, w': World)
      requires Between(a, samples, w.db) && Calm(w, w')
      ensures Between(a, samples, w'.db)
    {
      forall s | s in samples
        ensures samples[s] <= w'.db.sources[s]
      {
        assert SourceGrows(w, w', s);
      }
    }

    ghost predicate CountedAt(counts: map<string, nat>, samples: map<string, seq<Event>>, s: string, t: nat) {
      s in samples ==> s in counts && counts[s] == |Early(s, samples[s], t)|
    }

    ghost predicate Counted(counts: map<string, nat>, samples: map<string, seq<Event>>, t: nat) {
      forall s :: CountedAt(counts, samples, s, t)
    }

    lemma CountOneMore(counts: map<string, nat>, samples: map<string, seq<Event>>, t: nat,
                       s: string, n: nat, events: seq<Event>)
      requires Counted(counts, samples, t) && n == |Early(s, events, t)|
      ensures Counted(counts[s := n], samples[s := events], t)
    {
      var counts', samples' := counts[s := n], samples[s := events];
      forall x
        ensures CountedAt(counts', samples', x, t)
      {
        assert CountedAt(counts, samples, x, t);
      }
    }

    /** No row before t separates the sample of s from its contents in b. */
    ghost predicate Quiet(samples: map<string, seq<Event>>, b: Db, s: string, t: nat) {
      s in samples && s in b.sources && Early(s, samples[s], t) == Early(s, b.sources[s], t)
    }

    method FirstCount(s: string, t: nat, counts: map<string, nat>,
                      ghost w0: World, ghost first: map<string, seq<Event>>)
      returns (ok: bool, counts': map<string, nat>, ghost first': map<string, seq<Event>>)
      requires Ok() && Calm(w0, W()) && s in db.sources
      requires Between(w0.db, first, db) && Counted(counts, first, t)
      modifies this`db, this`now, this`script, this`book
      ensures Ok() && Calm(w0, W()) && old(now) <= now
      ensures Between(w0.db, first', db) && Counted(counts', first', t)
      ensures s in first' && forall x :: x in first ==> x in first'
      ensures old(Smooth()) ==> AtOnce() && ok
    {
      ghost var w := W();
      var n;
      ok, n := CountBefore(s, t);
      CalmTransitive(w0, w, W());
      BetweenLasts(w0.db, first, w, W());
      assert SourceGrows(w0, W(), s);
      CountOneMore(counts, first, t, s, n, db.sources[s]);
      counts', first' := counts[s := n], first[s := db.sources[s]];
    }

    method FirstCounts(sources: seq<string>, t: nat)
      returns (ok: bool, counts: map<string, nat>, ghost first: map<string, seq<Event>>)
      requires Ok() && forall s :: s in sources ==> s in db.sources
      modifies this`db, this`now, this`script, this`book
      ensures Ok() && Calm(old(W()), W()) && old(now) <= now
      ensures ok ==> Between(old(db), first, db) && Counted(counts, first, t)
      ensures ok ==> forall s :: s in sources ==> s in first
      ensures old(Smooth()) ==> AtOnce() && ok
    {
      counts, first := map[], map[];
      ghost var w0 := W();
      CalmReflexive(w0);
      var i := 0;
      while i < |sources|
        invariant 0 <= i <= |sources|
        invariant Ok() && Calm(w0, W()) && Between(w0.db, first, db)
        invariant forall j :: 0 <= j < i ==> sources[j] in first
        invariant Counted(counts, first, t) && old(now) <= now
        invariant old(Smooth()) ==> AtOnce()
      {
        ok, counts, first := FirstCount(sources[i], t, counts, w0, first);
        if !ok {
          return;
        }
        i := i + 1;
      }
      ok := true;
    }

    /** Equal counts of a source that only grew: no early row arrived in between. */
    lemma SameCountSameRows(s: string, a: seq<Event>, b: seq<Event>, c: seq<Event>, t: nat)
      requires a <= b <= c && |Early(s, a, t)| == |Early(s, c, t)|
      ensures Early(s, a, t) == Early(s, b, t)
    {
      assert a <= c;
      SelectMonotone(hash, s, a, c, Before(t));
      SelectMonotone(hash, s, a, b, Before(t));
      SelectMonotone(hash, s, b, c, Before(t));
      SameSizeSameRows(Early(s, a, t), Early(s, c, t));
    }

    /** The samples are the sources' contents in a. */
    ghost predicate Current(samples: map<string, seq<Event>>, a: Db) {
      forall s :: s in samples ==> s in a.sources && samples[s] == a.sources[s]
    }

    /** What the second round of counts knows: w0 is where it began. */
    ghost predicate Recounting(w0: World, counts: map<string, nat>, first: map<string, seq<Event>>, t: nat)
      reads this
    {
      Ok() && Calm(w0, W()) && Counted(counts, first, t)
    }

    ghost predicate SampledBefore(first: map<string, seq<Event>>, b: Db, s: string) {
      s in first && s in b.sources && first[s] <= b.sources[s]
    }

    method SecondCount(s: string, t: nat, counts: map<string, nat>,
                       ghost w0: World, ghost first: map<string, seq<Event>>)
      returns (ok: bool)
      requires Recounting(w0, counts, first, t) && SampledBefore(first, w0.db, s)
      modifies this`db, this`now, this`script, this`book
      ensures Recounting(w0, counts, first, t) && old(now) <= now
      ensures ok ==> Quiet(first, w0.db, s, t)
      ensures old(Smooth()) ==> AtOnce()
      ensures old(Smooth()) && old(book.arrived) == w0.book.arrived && first[s] == w0.db.sources[s] ==> ok
    {
      ghost var w := W();
      var n;
      ok, n := CountBefore(s, t);
      CalmTransitive(w0, w, W());
      assert CountedAt(counts, first, s, t);
      ok := ok && n == counts[s];
      assert SourceGrows(w0, W(), s);
      if ok {
        SameCountSameRows(s, first[s], w0.db.sources[s], db.sources[s], t);
      }
    }

    ghost predicate QuietUpTo(first: map<string, seq<Event>>, b: Db, sources: seq<string>, i: nat, t: nat)
      requires i <= |sources|
    {
      forall j :: 0 <= j < i ==> Quiet(first, b, sources[j], t)
    }

    method SecondCounts(sources: seq<string>, t: nat, counts: map<string, nat>, ghost first: map<string, seq<Event>>)
      returns (ok: bool)
      requires Ok() && Counted(counts, first, t)
      requires forall s :: s in sources ==> SampledBefore(first, db, s)
      modifies this`db, this`now, this`script, this`book
      ensures Ok() && Calm(old(W()), W()) && old(now) <= now
      ensures ok ==> QuietUpTo(first, old(db), sources, |sources|, t)
      ensures old(Smooth()) ==> AtOnce()
      ensures old(Smooth()) && Current(first, old(db)) ==> ok
    {
      ghost var w0 := W();
      CalmReflexive(w0);
      var i := 0;
      while i < |sources|
        invariant 0 <= i <= |sources|
        invariant Recounting(w0, counts, first, t) && old(now) <= now
        invariant QuietUpTo(first, w0.db, sources, i, t)
        invariant old(Smooth()) ==> AtOnce()
      {
        assert SampledBefore(first, w0.db, sources[i]);
        ok := SecondCount(sources[i], t, counts, w0, first);
        if !ok {
          return;
        }
        i := i + 1;
      }
      ok := true;
    }

    ghost predicate AllSourcesQuiet(first: map<string, seq<Event>>, polled: Db, t: nat) {
      forall m :: C().Listed(m) && m in defs ==> Quiet(first, polled, defs[m].source, t)
    }

    /** Count every source twice.  Sources only grow, so when this succeeds no row before t
        reached a listed source between its first count and the end of the poll. */
    method DrainLag(mvs: seq<MV>, t: nat, poll: nat)
      returns (ok: bool, ghost first: map<string, seq<Event>>, ghost polled: Db)
      requires Ok() && Loaded(mvs) && AllGrounded(defs, db)
      modifies this`db, this`now, this`script, this`book
      ensures Ok() && Calm(old(W()), W())
      ensures ok ==> Between(old(db), first, polled)
      ensures ok ==> now >= old(now) + poll && AllSourcesQuiet(first, polled, t)
      ensures ok ==> forall m :: C().Listed(m) && m in defs ==>
        defs[m].source in db.sources && polled.sources[defs[m].source] <= db.sources[defs[m].source]
      ensures old(Smooth()) ==> Quietly() && ok && now == old(now) + poll
    {
      var sources := DistinctSources(mvs);
      SourcesExist(mvs, sources);
      var counts;
      ok, counts, first := FirstCounts(sources, t);
      polled := db;
      if !ok {
        return;
      }
      ghost var w1 := W();
      ok := Sleep(poll);
      CalmTransitive(old(W()), w1, W());
      if !ok {
        return;
      }
      BetweenLasts(old(db), first, w1, W());
      polled := db;
      ghost var w2 := W();
      forall s | s in sources ensures SampledBefore(first, db, s) { assert s in first; }
      ok := SecondCounts(sources, t, counts, first);
      CalmTransitive(old(W()), w2, W());
      if ok {
        forall m | C().Listed(m)
          ensures m in defs && Quiet(first, polled, defs[m].source, t) && SourceGrows(w2, W(), defs[m].source)
        {
          ListedIsQuiet(mvs, sources, first, polled, t, m);
        }
      }
    }

    lemma ListedIsQuiet(mvs: seq<MV>, sources: seq<string>, first: map<string, seq<Event>>, polled: Db, t: nat,
                        m: string)
      requires Loaded(mvs) && C().Listed(m) && QuietUpTo(first, polled, sources, |sources|, t)
      requires forall s :: s in sources <==> exists i :: 0 <= i < |mvs| && mvs[i].source == s
      ensures m in defs && Quiet(first, polled, defs[m].source, t)
    {
      SourceOfListed(mvs, m);
      assert defs[m].source in sources;
      var j :| 0 <= j < |sources| && sources[j] == defs[m].source;
    }

    // ---------- backfill ----------

    ghost predicate Distinct<X>(xs: seq<X>) {
      forall i, j :: 0 <= i < j < |xs| ==> xs[i] != xs[j]
    }

    /** Is v the chunk value of some row before t in a listed source? */
    ghost predicate HasValue(v: string, t: nat)
      reads this
    {
      exists m, e: Event :: C().Listed(m) && Occurs(defs, db, m, e) > 0 && e.time < t && e.chunk == v
    }

    /** One query: the distinct chunk values of all rows before t, in falling order. */
    method ChunkValues(mvs: seq<MV>, t: nat) returns (ok: bool, values: seq<string>)
      requires Ok() && Loaded(mvs) && AllGrounded(defs, db)
      modifies this`db, this`now, this`script, this`book
      ensures Ok() && Calm(old(W()), W())
      ensures Descends(values) && Distinct(values) && forall v :: v in values <==> HasValue(v, t)
      ensures old(Smooth()) ==> Quietly() && ok
    {
      var sources := DistinctSources(mvs);
      SourcesExist(mvs, sources);
      ok := Pass();
      var found := CollectValues(sources, t);
      values := Descending(found);
      DescendsDistinct(values);
      StillGrounded(old(db));
      forall v
        ensures v in values <==> HasValue(v, t)
      {
        ValuesOfSources(mvs, sources, v, t);
      }
    }

    lemma StillGrounded(a: Db)
      requires AllGrounded(defs, a) && db.sources.Keys == a.sources.Keys
      ensures AllGrounded(defs, db)
    {
      forall m | m in defs ensures Grounded(defs, db, m) { assert Grounded(defs, a, m); }
    }

    lemma DescendsDistinct(values: seq<string>)
      requires Descends(values)
      ensures Distinct(values)
    {
      forall i, j | 0 <= i < j < |values| ensures values[i] != values[j] {
        LessIrreflexive(values[i]);
      }
    }

    method CollectValues(sources: seq<string>, t: nat) returns (values: set<string>)
      requires forall s :: s in sources ==> s in db.sources
      ensures forall v :: v in values <==>
        exists s, e: Event :: s in sources && s in db.sources && e in db.sources[s] && e.time < t && e.chunk == v
    {
      values := {};
      var i := 0;
      while i < |sources|
        invariant 0 <= i <= |sources|
        invariant forall v :: v in values <==>
          exists s, e: Event ::
            s in sources[..i] && s in db.sources && e in db.sources[s] && e.time < t && e.chunk == v
      {
        assert sources[..i + 1] == sources[..i] + [sources[i]];
        values := values + (set e | e in db.sources[sources[i]] && e.time < t :: e.chunk);
        i := i + 1;
      }
      assert sources[..i] == sources;
    }

    lemma ValuesOfSources(mvs: seq<MV>, sources: seq<string>, v: string, t: nat)
      requires Ok() && Loaded(mvs) && AllGrounded(defs, db)
      requires forall s :: s in sources <==> exists i :: 0 <= i < |mvs| && mvs[i].source == s
      ensures HasValue(v, t) <==>
        exists s, e: Event :: s in sources && s in db.sources && e in db.sources[s] && e.time < t && e.chunk == v
    {
      if HasValue(v, t) {
        var m, e: Event :| C().Listed(m) && Occurs(defs, db, m, e) > 0 && e.time < t && e.chunk == v;
        SourceOfListed(mvs, m);
        assert defs[m].source in sources && e in db.sources[defs[m].source];
      }
      if s, e: Event :| s in sources && s in db.sources && e in db.sources[s] && e.time < t && e.chunk == v {
        var i :| 0 <= i < |mvs| && mvs[i].source == s;
        assert C().Listed(spec.mvs[i]) && Occurs(defs, db, spec.mvs[i], e) > 0;
      }
    }

    /** The state in which a backfill runs: v2 exists, T is fixed, lag-drain is recorded,
        and this run's records are the latest. */
    ghost predicate Filling(t: nat, cfg: Config)
      reads this
    {
      && Owner() && Boundary(log) == Some(t) && book.drained
      && log != [] && Last(log).hash == spec.hash
      && book.tuning.Some? && (book.tuning.value == cfg || book.retuned) && cfg.targetRows > 0
    }

    /** What a run has done to the table since w0, where it chose its tuning. */
    ghost predicate Adding(w0: World, before: seq<Chunk>, done: set<string>, cfg: Config)
      reads this
    {
      && Added(C(), W(), before, done, cfg) && Forward(C(), w0, W())
      && book.tuning == w0.book.tuning && book.retuned == w0.book.retuned
    }

    method RecordChunk(cursor: string, detail: string, t: nat, cfg: Config) returns (ok: bool)
      requires Filling(t, cfg) && cursor in book.torn
      requires C().Keyed() ==> cursor !in Completed(log)
      modifies this`db, this`log, this`now, this`script, this`book
      ensures Filling(t, cfg) && Forward(C(), old(W()), W()) && book.ledger == old(book.ledger)
      ensures if log == old(log) then book.torn == old(book.torn)
              else && log == old(log) + [Record(spec.hash, Phase.Backfilled, Done, cursor, detail)]
                   && Completed(log) == Completed(old(log)) + {cursor}
                   && book.torn == old(book.torn) - multiset{cursor}
      ensures ok ==> log != old(log)
      ensures book.tuning == old(book.tuning) && book.retuned == old(book.retuned)
      ensures old(Undisturbed()) ==> Quietly() && ok
      ensures old(Striking()) ==> !ok && script == old(script)[1..] && book.arrived == old(book.arrived)
      ensures old(Striking()) ==> (log == old(log) <==> old(script)[0].outcome.Lost?)
    {
      CompletedAppend(log, Record(spec.hash, Phase.Backfilled, Done, cursor, detail));
      ok := Note(Phase.Backfilled, Done, cursor, detail);
    }

    /** Insert one chunk and record it. */
    method BackfillChunk(k: Chunk, source: string, t: nat, cfg: Config, rows: nat) returns (ok: bool)
      requires Filling(t, cfg) && C().Listed(k.mv) && k.mv in defs && source == defs[k.mv].source
      requires !book.late ==> Planned(C(), W(), k, cfg)
      requires k.n > 0
      requires C().Keyed() ==> k.Cursor() !in Completed(log)
      modifies this`db, this`log, this`now, this`script, this`book
      ensures Filling(t, cfg) && Forward(C(), old(W()), W()) && TornBy(old(book.torn), book.torn, ok)
      ensures ok ==> k.Cursor() in Completed(log) && book.ledger == old(book.ledger) + [k]
      ensures log == old(log) ||
        log == old(log) + [Record(spec.hash, Phase.Backfilled, Done, k.Cursor(), ChunkDetail(rows, k.n))]
      ensures (book.ledger == old(book.ledger) && log == old(log)) || book.ledger == old(book.ledger) + [k]
      ensures Completed(log) <= Completed(old(log)) + {k.Cursor()}
      ensures !book.late ==> Planned(C(), W(), k, cfg)
      ensures book.tuning == old(book.tuning) && book.retuned == old(book.retuned)
      ensures old(Undisturbed()) ==> Quietly() && ok
      ensures old(Striking()) ==> Struck(old(W()), old(script), ok)
    {
      ok := InsertBackfill(k, source, t, cfg);
      if ok {
        ghost var w := W();
        ok := RecordChunk(k.Cursor(), ChunkDetail(rows, k.n), t, cfg);
        StillPlanned(w, W(), k, cfg);
        ForwardTransitive(C(), old(W()), w, W());
        Mended(old(book.torn), k.Cursor());
      }
    }

    lemma Mended(torn: multiset<string>, cursor: string)
      ensures torn + multiset{cursor} - multiset{cursor} == torn
    {
    }

    /** The chunks of one unit in this run so far: one split, buckets before b. */
    ghost predicate UnitSoFar(before: seq<Chunk>, val: string, mv: string, n: nat, expr: string, b: int)
      reads this`book
    {
      C().Keyed() && before <= book.ledger ==>
        forall x :: x in book.ledger[|before|..] && x.mv == mv && x.val == val ==>
          x.n == n && x.expr == expr && x.b < b
    }

    ghost predicate NoneYet(before: seq<Chunk>, val: string, mv: string)
      reads this`book
    {
      C().Keyed() && before <= book.ledger ==>
        forall x :: x in book.ledger[|before|..] ==> x.mv != mv || x.val != val
    }

    lemma NotYetRecorded(before: seq<Chunk>, done: set<string>, cfg: Config, k: Chunk)
      requires Added(C(), W(), before, done, cfg) && C().Listed(k.mv) && C().Keyed() && k.Cursor() !in done
      requires UnitSoFar(before, k.val, k.mv, k.n, k.expr, k.b)
      ensures k.Cursor() !in Completed(log)
    {
      if k.Cursor() in Completed(log) {
        var ks := book.ledger[|before|..];
        var i :| 0 <= i < |ks| && ks[i].Cursor() == k.Cursor();
        assert ks[i] in ks && AddedAt(C(), W(), ks[i], done, cfg);
        SameCursorSameChunk(Names(C()), ks[i], k);
        assert false;
      }
    }

    /** One bucket of a unit: skip it if it was done when the run began. */
    method BackfillBucket(k: Chunk, source: string, t: nat, cfg: Config, rows: nat,
                          ghost w0: World, ghost before: seq<Chunk>, done: set<string>)
      returns (ok: bool)
      requires Filling(t, cfg) && C().Listed(k.mv) && k.mv in defs && source == defs[k.mv].source
      requires k.b < k.n <= cfg.maxBuckets
      requires !book.late ==> Planned(C(), W(), k, cfg)
      requires Adding(w0, before, done, cfg) && AllRecorded(W(), before)
      requires UnitSoFar(before, k.val, k.mv, k.n, k.expr, k.b)
      modifies this`db, this`log, this`now, this`script, this`book
      ensures Filling(t, cfg) && Adding(w0, before, done, cfg) && TornBy(old(book.torn), book.torn, ok)
      ensures Forward(C(), old(W()), W())
      ensures ok ==> AllRecorded(W(), before) && k.Cursor() in Completed(log)
      ensures ok ==> UnitSoFar(before, k.val, k.mv, k.n, k.expr, k.b + 1)
      ensures book.ledger == old(book.ledger) || book.ledger == old(book.ledger) + [k]
      ensures old(Undisturbed()) ==> Quietly() && ok
      ensures old(Striking()) ==> Struck(old(W()), old(script), ok)
    {
      if k.Cursor() in done {
        ForwardReflexive(C(), W());
        return true;
      }
      ghost var w := W();
      if C().Keyed() { NotYetRecorded(before, done, cfg, k); }
      ok := BackfillChunk(k, source, t, cfg, rows);
      OwnDef(k.mv);
      ForwardTransitive(C(), w0, w, W());
      BucketAdded(w, before, done, cfg, k);
    }

    lemma BucketAdded(w: World, before: seq<Chunk>, done: set<string>, cfg: Config, k: Chunk)
      requires Added(C(), w, before, done, cfg) && AllRecorded(w, before) && Forward(C(), w, W()) && w.book.drained
      requires C().Listed(k.mv) && k.mv in W().Defs() && k.b < k.n <= cfg.maxBuckets && k.Cursor() !in done
      requires !book.late ==> Planned(C(), W(), k, cfg)
      requires (book.ledger == w.book.ledger && log == w.log) || book.ledger == w.book.ledger + [k]
      requires Completed(log) <= Completed(w.log) + {k.Cursor()}
      requires C().Keyed() ==> k.Cursor() !in Completed(w.log)
      requires C().Keyed() ==> forall x :: x in w.book.ledger[|before|..] && x.mv == k.mv && x.val == k.val ==>
        x.n == k.n && x.expr == k.expr && x.b < k.b
      ensures Added(C(), W(), before, done, cfg)
      ensures k.Cursor() in Completed(log) ==> AllRecorded(W(), before)
      ensures UnitSoFar(before, k.val, k.mv, k.n, k.expr, k.b + 1)
    {
      if book.ledger == w.book.ledger {
        AddedLasts(C(), w, W(), before, done, cfg);
      } else {
        assert book.ledger[|before|..] == w.book.ledger[|before|..] + [k];
        AddedOneMore(C(), w, W(), before, done, cfg, k);
      }
    }

    /** The count this unit was split by still holds, unless a late row arrived. */
    ghost predicate SplitBy(m: string, val: string, t: nat, rows: nat)
      reads this
    {
      !book.late ==> Grounded(W().Defs(), db, m) && |DayRows(C(), W(), m, t, val)| == rows
    }

    lemma SplitLasts(w: World, m: string, val: string, t: nat, rows: nat)
      requires Forward(C(), w, W()) && C().Listed(m)
      requires Boundary(w.log) == Some(t) && w.book.drained
      requires !w.book.late ==> Grounded(w.Defs(), w.db, m) && |DayRows(C(), w, m, t, val)| == rows
      ensures SplitBy(m, val, t, rows)
    {
      if !book.late {
        DayRowsLast(C(), w, W(), m, val);
      }
    }

    ghost predicate FirstDone(val: string, mv: string, n: nat, b: int)
      reads this`log
    {
      forall i: nat :: i < b ==> BackfillCursor(val, mv, n, i) in Completed(log)
    }

    /** What holds between the buckets of one unit: w0 is where the run read the log, w1
        where the unit began. */
    ghost predicate InUnit(val: string, mv: string, t: nat, cfg: Config, rows: nat,
                           w0: World, before: seq<Chunk>, done: set<string>, w1: World)
      reads this
    {
      && Filling(t, cfg) && C().Listed(mv) && SplitBy(mv, val, t, rows)
      && Adding(w0, before, done, cfg)
      && Forward(C(), w1, W()) && OnlyUnit(w1.book.ledger, val, mv)
    }

    /** The chunks inserted after those in l belong to this value and view. */
    ghost predicate OnlyUnit(l: seq<Chunk>, val: string, mv: string)
      reads this`book
    {
      l <= book.ledger && forall x :: x in book.ledger[|l|..] ==> x.mv == mv && x.val == val
    }

    lemma OnlyUnitMore(l: seq<Chunk>, l1: seq<Chunk>, k: Chunk)
      requires l <= l1 && forall x :: x in l1[|l|..] ==> x.mv == k.mv && x.val == k.val
      requires book.ledger == l1 || book.ledger == l1 + [k]
      ensures OnlyUnit(l, k.val, k.mv)
    {
      if book.ledger == l1 + [k] { assert book.ledger[|l|..] == l1[|l|..] + [k]; }
    }

    method NextBucket(val: string, m: MV, t: nat, cfg: Config, rows: nat, n: nat, b: nat,
                      ghost w0: World, ghost before: seq<Chunk>, done: set<string>, ghost w1: World)
      returns (ok: bool)
      requires InUnit(val, m.name, t, cfg, rows, w0, before, done, w1) && IsOwn(m)
      requires AllRecorded(W(), before) && FirstDone(val, m.name, n, b)
      requires UnitSoFar(before, val, m.name, n, BucketExpr(m, cfg.bucketKey), b)
      requires rows > 0 && n == Buckets(rows, cfg.targetRows, cfg.maxBuckets) && b < n
      modifies this`db, this`log, this`now, this`script, this`book
      ensures InUnit(val, m.name, t, cfg, rows, w0, before, done, w1) && TornBy(old(book.torn), book.torn, ok)
      ensures ok ==> AllRecorded(W(), before) && FirstDone(val, m.name, n, b + 1)
      ensures ok ==> UnitSoFar(before, val, m.name, n, BucketExpr(m, cfg.bucketKey), b + 1)
      ensures old(Undisturbed()) ==> Quietly() && ok
      ensures old(Striking()) ==> Struck(old(W()), old(script), ok)
    {
      ghost var w := W();
      var expr := BucketExpr(m, cfg.bucketKey);
      var k := Chunk(m.name, expr, val, n, b);
      BucketIsPlanned(k, m, t, cfg, rows);
      ok := BackfillBucket(k, m.source, t, cfg, rows, w0, before, done);
      SplitLasts(w, m.name, val, t, rows);
      ForwardTransitive(C(), w1, w, W());
      OnlyUnitMore(w1.book.ledger, w.book.ledger, k);
    }

    lemma BucketIsPlanned(k: Chunk, m: MV, t: nat, cfg: Config, rows: nat)
      requires Owner() && Boundary(log) == Some(t) && IsOwn(m)
      requires SplitBy(m.name, k.val, t, rows) && rows > 0
      requires k.mv == m.name && k.expr == BucketExpr(m, cfg.bucketKey)
      requires k.n == Buckets(rows, cfg.targetRows, cfg.maxBuckets) && k.b < k.n && cfg.targetRows > 0
      ensures !book.late ==> Planned(C(), W(), k, cfg)
      ensures k.n <= cfg.maxBuckets
    {
      OwnDef(m.name);
    }

    method BackfillBuckets(val: string, m: MV, t: nat, cfg: Config, rows: nat, n: int,
                           ghost w0: World, ghost before: seq<Chunk>, done: set<string>, ghost w1: World)
      returns (ok: bool)
      requires InUnit(val, m.name, t, cfg, rows, w0, before, done, w1) && IsOwn(m)
      requires AllRecorded(W(), before)
      requires n >= 0 ==> UnitSoFar(before, val, m.name, n, BucketExpr(m, cfg.bucketKey), 0)
      requires rows > 0 && n == Buckets(rows, cfg.targetRows, cfg.maxBuckets)
      modifies this`db, this`log, this`now, this`script, this`book
      ensures InUnit(val, m.name, t, cfg, rows, w0, before, done, w1) && TornBy(old(book.torn), book.torn, ok)
      ensures ok ==> AllRecorded(W(), before) && BucketsDone(log, val, m.name, n)
      ensures old(Undisturbed()) ==> Quietly() && ok
      ensures old(Striking()) ==> Struck(old(W()), old(script), ok)
    {
      var b := 0;
      while b < n
        invariant 0 <= b && (n >= 0 ==> b <= n)
        invariant InUnit(val, m.name, t, cfg, rows, w0, before, done, w1)
        invariant AllRecorded(W(), before) && book.torn == old(book.torn)
        invariant n >= 0 ==>
          FirstDone(val, m.name, n, b) && UnitSoFar(before, val, m.name, n, BucketExpr(m, cfg.bucketKey), b)
        invariant old(Undisturbed()) ==> Quietly()
        invariant old(Striking()) ==> Struck(old(W()), old(script), true)
      {
        ok := NextBucket(val, m, t, cfg, rows, n, b, w0, before, done, w1);
        if !ok {
          return;
        }
        b := b + 1;
      }
      ok := true;
    }

    /** All buckets of one chunk value through one view. */
    method BackfillUnit(val: string, m: MV, t: nat, cfg: Config,
                        ghost w0: World, ghost before: seq<Chunk>, done: set<string>)
      returns (ok: bool)
      requires Filling(t, cfg) && IsOwn(m)
      requires Adding(w0, before, done, cfg) && AllRecorded(W(), before)
      requires NoneYet(before, val, m.name)
      modifies this`db, this`log, this`now, this`script, this`book
      ensures Filling(t, cfg) && Adding(w0, before, done, cfg) && TornBy(old(book.torn), book.torn, ok)
      ensures Forward(C(), old(W()), W()) && OnlyUnit(old(book.ledger), val, m.name)
      ensures ok ==> AllRecorded(W(), before)
      ensures ok ==> UnitSettled(val, m.name, cfg)
      ensures old(Undisturbed()) ==> Quietly() && ok
      ensures old(Striking()) ==> Struck(old(W()), old(script), ok)
    {
      ghost var w1 := W();
      var rows: nat;
      ok, rows := CountDay(m, val, t);
      CalmIsForward(C(), w1, W());
      ForwardTransitive(C(), w0, w1, W());
      AddedLasts(C(), w1, W(), before, done, cfg);
      if !ok || rows == 0 {
        return;
      }
      var n := Buckets(rows, cfg.targetRows, cfg.maxBuckets);
      ok := BackfillBuckets(val, m, t, cfg, rows, n, w0, before, done, w1);
    }

    ghost predicate UnitSettled(val: string, mv: string, cfg: Config)
      reads this
    {
      C().Listed(mv) && (!book.late ==>
        Bounded(W()) && Grounded(W().Defs(), db, mv) && UnitDone(C(), W(), mv, val, cfg))
    }

    ghost predicate AllSettled(finished: set<(string, string)>, cfg: Config)
      reads this
    {
      forall v, x :: (v, x) in finished ==> UnitSettled(v, x, cfg)
    }

    /** The chunks inserted after those in before belong to finished units. */
    ghost predicate Within(before: seq<Chunk>, finished: set<(string, string)>)
      reads this`book
    {
      before <= book.ledger && forall k :: k in book.ledger[|before|..] ==> (k.val, k.mv) in finished
    }

    /** What holds between units. */
    ghost predicate InPlan(finished: set<(string, string)>, t: nat, cfg: Config,
                           w0: World, before: seq<Chunk>, done: set<string>)
      reads this
    {
      && Filling(t, cfg)
      && Adding(w0, before, done, cfg) && AllRecorded(W(), before)
      && AllSettled(finished, cfg) && Within(before, finished)
    }

    lemma SettledLasts(w: World, finished: set<(string, string)>, cfg: Config)
      requires Forward(C(), w, W()) && Bounded(w) && w.book.drained
      requires forall v, x :: (v, x) in finished ==> C().Listed(x) && (!w.book.late ==>
        Grounded(w.Defs(), w.db, x) && UnitDone(C(), w, x, v, cfg))
      ensures AllSettled(finished, cfg)
    {
      forall v, x | (v, x) in finished
        ensures UnitSettled(v, x, cfg)
      {
        if !book.late {
          UnitDoneLasts(C(), w, W(), x, v, cfg);
        }
      }
    }

    lemma WithinMore(l: seq<Chunk>, before: seq<Chunk>, finished: set<(string, string)>, val: string, mv: string)
      requires before <= l && (forall k :: k in l[|before|..] ==> (k.val, k.mv) in finished)
      requires OnlyUnit(l, val, mv)
      ensures Within(before, finished + {(val, mv)})
    {
      assert book.ledger[|before|..] == l[|before|..] + book.ledger[|l|..];
    }

    /** The chunks inserted after those in l belong to this value. */
    ghost predicate OnlyValue(l: seq<Chunk>, val: string)
      reads this`book
    {
      l <= book.ledger && forall x :: x in book.ledger[|l|..] ==> x.val == val
    }

    lemma OnlyValueMore(l: seq<Chunk>, l1: seq<Chunk>, val: string, mv: string)
      requires l <= l1 && (forall x :: x in l1[|l|..] ==> x.val == val) && OnlyUnit(l1, val, mv)
      ensures OnlyValue(l, val)
    {
      assert book.ledger[|l|..] == l1[|l|..] + book.ledger[|l1|..];
    }

    /** No chunk is followed by one of a later value. */
    ghost predicate FallingValues(ks: seq<Chunk>) {
      forall i, j :: 0 <= i < j < |ks| ==> !Less(ks[i].val, ks[j].val)
    }

    /** The chunks inserted after those in l come newest value first. */
    ghost predicate NewestFirst(l: seq<Chunk>)
      reads this`book
    {
      l <= book.ledger && FallingValues(book.ledger[|l|..])
    }

    lemma NewestMore(l: seq<Chunk>, l1: seq<Chunk>, values: seq<string>, i: nat)
      requires Descends(values) && i < |values| && l <= l1 && FallingValues(l1[|l|..])
      requires (forall k :: k in l1[|l|..] ==> k.val in values[..i]) && OnlyValue(l1, values[i])
      ensures NewestFirst(l)
    {
      var old', new' := l1[|l|..], book.ledger[|l1|..];
      assert book.ledger[|l|..] == old' + new';
      LessIrreflexive(values[i]);
      forall a, b | 0 <= a < |old'| && 0 <= b < |new'|
        ensures !Less(old'[a].val, new'[b].val)
      {
        assert old'[a] in old' && new'[b] in new';
        var k :| 0 <= k < i && values[k] == old'[a].val;
        if Less(values[k], values[i]) { LessTransitive(values[k], values[i], values[k]); LessIrreflexive(values[k]); }
      }
    }

    method NextUnit(val: string, m: MV, t: nat, cfg: Config,
                    ghost w0: World, ghost before: seq<Chunk>, done: set<string>,
                    ghost finished: set<(string, string)>)
      returns (ok: bool)
      requires InPlan(finished, t, cfg, w0, before, done) && IsOwn(m)
      requires C().Keyed() ==> (val, m.name) !in finished
      modifies this`db, this`log, this`now, this`script, this`book
      ensures Filling(t, cfg) && Adding(w0, before, done, cfg) && TornBy(old(book.torn), book.torn, ok)
      ensures ok ==> InPlan(finished + {(val, m.name)}, t, cfg, w0, before, done)
      ensures OnlyUnit(old(book.ledger), val, m.name)
      ensures old(Undisturbed()) ==> Quietly() && ok
      ensures old(Striking()) ==> Struck(old(W()), old(script), ok)
    {
      ghost var w := W();
      ok := BackfillUnit(val, m, t, cfg, w0, before, done);
      SettledLasts(w, finished, cfg);
      WithinMore(w.book.ledger, before, finished, val, m.name);
    }

    /** Of the units of val, those of the first j views are finished; other units are as before. */
    ghost predicate ViewsDone(before: set<(string, string)>, now: set<(string, string)>, val: string, j: nat)
      requires j <= |spec.mvs|
    {
      && before <= now
      && (forall x :: (val, x) in now <==> x in spec.mvs[..j])
      && (forall v, x :: (v, x) in now && v != val ==> (v, x) in before)
    }

    lemma ViewsDoneMore(before: set<(string, string)>, now: set<(string, string)>, val: string, j: nat)
      requires j < |spec.mvs| && ViewsDone(before, now, val, j)
      ensures ViewsDone(before, now + {(val, spec.mvs[j])}, val, j + 1)
      ensures C().Keyed() ==> (val, spec.mvs[j]) !in now
    {
      assert spec.mvs[..j + 1] == spec.mvs[..j] + [spec.mvs[j]];
    }

    /** Every listed view for one chunk value. */
    method BackfillValue(val: string, mvs: seq<MV>, t: nat, cfg: Config,
                         ghost w0: World, ghost before: seq<Chunk>, done: set<string>,
                    ghost finished: set<(string, string)>)
      returns (ok: bool, ghost finished': set<(string, string)>)
      requires InPlan(finished, t, cfg, w0, before, done) && Loaded(mvs)
      requires forall x :: (val, x) !in finished
      modifies this`db, this`log, this`now, this`script, this`book
      ensures Filling(t, cfg) && Adding(w0, before, done, cfg) && TornBy(old(book.torn), book.torn, ok)
      ensures ok ==> InPlan(finished', t, cfg, w0, before, done)
      ensures ok ==> finished <= finished' && forall m :: C().Listed(m) ==> (val, m) in finished'
      ensures forall v, x :: (v, x) in finished' && v != val ==> (v, x) in finished
      ensures OnlyValue(old(book.ledger), val)
      ensures old(Undisturbed()) ==> Quietly() && ok
      ensures old(Striking()) ==> Struck(old(W()), old(script), ok)
    {
      finished' := finished;
      var j := 0;
      while j < |mvs|
        invariant 0 <= j <= |mvs| && ViewsDone(finished, finished', val, j)
        invariant InPlan(finished', t, cfg, w0, before, done) && book.torn == old(book.torn)
        invariant OnlyValue(old(book.ledger), val)
        invariant old(Undisturbed()) ==> Quietly()
        invariant old(Striking()) ==> Struck(old(W()), old(script), true)
      {
        ListedName(mvs, j);
        ViewsDoneMore(finished, finished', val, j);
        ghost var l := book.ledger;
        ok := NextUnit(val, mvs[j], t, cfg, w0, before, done, finished');
        OnlyValueMore(old(book.ledger), l, val, mvs[j].name);
        if !ok {
          return;
        }
        finished' := finished' + {(val, mvs[j].name)};
        j := j + 1;
      }
      assert spec.mvs[..j] == spec.mvs;
      ok := true;
    }

    lemma ListedName(mvs: seq<MV>, j: nat)
      requires Ok() && Loaded(mvs) && j < |mvs|
      ensures IsOwn(mvs[j]) && mvs[j].name == spec.mvs[j]
    {
      InvParts(C(), W());
      assert C().Proper(spec.mvs[j], defs[spec.mvs[j]]);
    }

    lemma OtherValuesAreEmpty(val: string, m: string, t: nat)
      requires Owner() && C().Listed(m) && Grounded(W().Defs(), db, m) && !HasValue(val, t)
      ensures |DayRows(C(), W(), m, t, val)| == 0
    {
      OwnDef(m);
      var rows := DayRows(C(), W(), m, t, val);
      forall r: Row
        ensures rows[r] == 0
      {
        var n := Occurs(defs, db, m, r.event);
        assert rows[r] <= n;
      }
      assert rows == multiset{};
    }

    /** The chunked backfill: newest values first, skipping what the log has as done. */
    method Backfill(mvs: seq<MV>, t: nat, opts: Options, recs: seq<Record>) returns (ok: bool)
      requires Owner() && Boundary(log) == Some(t) && book.drained
      requires log != [] && Last(log).hash == spec.hash && Loaded(mvs)
      requires Completed(recs) == Completed(log)
      modifies this`db, this`log, this`now, this`script, this`book
      ensures Filling(t, Tuning(opts)) && Forward(C(), old(W()), W())
      ensures Added(C(), W(), old(book.ledger), Completed(recs), Tuning(opts)) && TornBy(old(book.torn), book.torn, ok)
      ensures Retuned(old(W()), Tuning(opts))
      ensures ok ==> AllRecorded(W(), old(book.ledger))
      ensures ok && !book.late ==> Covered(C(), W(), Names(C()), Tuning(opts))
      ensures NewestFirst(old(book.ledger))
      ensures old(Undisturbed()) ==> Quietly() && ok
      ensures old(Striking()) ==> Struck(old(W()), old(script), ok)
    {
      var cfg := Tuning(opts);
      ghost var was := W();
      var done := CompletedChunks(recs);
      var values;
      ok, values := PlanBackfill(mvs, t, cfg);
      ghost var w := W();
      NothingAdded(w, cfg);
      if !ok {
        return;
      }
      ForwardReflexive(C(), w);
      ok := BackfillValues(values, mvs, t, cfg, w, was.book.ledger, done);
      ForwardTransitive(C(), was, w, W());
    }

    /** The tuning, and the chunk values to go through. */
    method PlanBackfill(mvs: seq<MV>, t: nat, cfg: Config) returns (ok: bool, values: seq<string>)
      requires Owner() && Boundary(log) == Some(t) && book.drained && cfg.targetRows > 0
      requires log != [] && Last(log).hash == spec.hash && Loaded(mvs)
      modifies this`db, this`now, this`script, this`book
      ensures Filling(t, cfg) && Forward(C(), old(W()), W()) && Retuned(old(W()), cfg)
      ensures log == old(log) && book.ledger == old(book.ledger) && book.torn == old(book.torn)
      ensures Descends(values) && Distinct(values) && forall v :: v in values <==> HasValue(v, t)
      ensures old(Smooth()) ==> Quietly() && ok
    {
      ghost var was := W();
      Retune(cfg);
      ghost var w := W();
      OwnerIsGrounded();
      ok, values := ChunkValues(mvs, t);
      CalmIsForward(C(), w, W());
      ForwardTransitive(C(), was, w, W());
    }

    /** The tuning of a run with these options. */
    function Tuning(opts: Options): Config {
      Effective(spec.backfill, opts.backfill)
    }

    /** The table's tuning is the first one; another one later is noticed. */
    ghost predicate Retuned(w: World, cfg: Config)
      reads this`book
    {
      && book.tuning == AfterTuning(w, cfg).book.tuning
      && book.retuned == AfterTuning(w, cfg).book.retuned
    }

    ghost method Retune(cfg: Config)
      requires Owner() && Bounded(W()) && book.drained && log != [] && Last(log).hash == spec.hash
      modifies this`book
      ensures W() == AfterTuning(old(W()), cfg) && Forward(C(), old(W()), W())
      ensures Owner() && (book.tuning == Some(cfg) || (book.tuning.Some? && book.retuned))
    {
      ghost var w := W();
      book := AfterTuning(w, cfg).book;
      assert W() == AfterTuning(w, cfg);
      TuningKeepsInv(C(), w, cfg);
      TuningIsForward(C(), w, cfg);
    }

    lemma NothingAdded(w: World, cfg: Config)
      ensures Added(C(), w, w.book.ledger, Completed(w.log), cfg) && AllRecorded(w, w.book.ledger)
    {
      assert w.book.ledger[|w.book.ledger|..] == [];
    }

    method BackfillValues(values: seq<string>, mvs: seq<MV>, t: nat, cfg: Config,
                          ghost w0: World, ghost before: seq<Chunk>, done: set<string>)
      returns (ok: bool)
      requires Filling(t, cfg) && Loaded(mvs) && Distinct(values) && Descends(values)
      requires forall v :: v in values <==> HasValue(v, t)
      requires w0 == W() && Adding(w0, before, done, cfg) && AllRecorded(W(), before) && before == book.ledger
      modifies this`db, this`log, this`now, this`script, this`book
      ensures Filling(t, cfg) && Adding(w0, before, done, cfg) && TornBy(old(book.torn), book.torn, ok)
      ensures ok ==> AllRecorded(W(), before)
      ensures ok && !book.late ==> Covered(C(), W(), Names(C()), cfg)
      ensures NewestFirst(before)
      ensures old(Undisturbed()) ==> Quietly() && ok
      ensures old(Striking()) ==> Struck(old(W()), old(script), ok)
    {
      UnlistedValuesAreEmpty(values, t);
      ghost var finished: set<(string, string)> := {};
      assert book.ledger[|before|..] == [];
      var i := 0;
      while i < |values|
        invariant 0 <= i <= |values|
        invariant InPlan(finished, t, cfg, w0, before, done) && book.torn == old(book.torn)
        invariant ValuesDone(finished, values, i) && NewestFirst(before)
        invariant old(Undisturbed()) ==> Quietly()
        invariant old(Striking()) ==> Struck(old(W()), old(script), true)
      {
        ghost var earlier, l := finished, book.ledger;
        ok, finished := BackfillValue(values[i], mvs, t, cfg, w0, before, done, finished);
        NewestMore(before, l, values, i);
        if !ok {
          return;
        }
        ValuesDoneMore(earlier, finished, values, i);
        i := i + 1;
      }
      assert values[..i] == values;
      ok := true;
      AllValuesCovered(values, finished, w0, t, cfg);
    }

    /** The finished units are those of the first i values. */
    ghost predicate ValuesDone(finished: set<(string, string)>, values: seq<string>, i: nat)
      requires i <= |values|
    {
      && (forall v, x :: (v, x) in finished ==> v in values[..i])
      && (forall v, x :: v in values[..i] && C().Listed(x) ==> (v, x) in finished)
    }

    lemma ValuesDoneMore(earlier: set<(string, string)>, finished: set<(string, string)>, values: seq<string>, i: nat)
      requires i < |values| && ValuesDone(earlier, values, i)
      requires earlier <= finished && forall m :: C().Listed(m) ==> (values[i], m) in finished
      requires forall v, x :: (v, x) in finished && v != values[i] ==> (v, x) in earlier
      ensures ValuesDone(finished, values, i + 1)
    {
      assert values[..i + 1] == values[..i] + [values[i]];
    }

    ghost predicate EmptyElsewhere(w: World, values: seq<string>, t: nat) {
      forall val, m :: C().Listed(m) && val !in values ==>
        Grounded(w.Defs(), w.db, m) && |DayRows(C(), w, m, t, val)| == 0
    }

    lemma UnlistedValuesAreEmpty(values: seq<string>, t: nat)
      requires Owner() && forall v :: v in values <==> HasValue(v, t)
      ensures EmptyElsewhere(W(), values, t)
    {
      forall val, m | C().Listed(m) && val !in values
        ensures Grounded(W().Defs(), db, m) && |DayRows(C(), W(), m, t, val)| == 0
      {
        OwnDef(m);
        OtherValuesAreEmpty(val, m, t);
      }
    }

    lemma AllValuesCovered(values: seq<string>, finished: set<(string, string)>, w: World, t: nat, cfg: Config)
      requires Filling(t, cfg) && Forward(C(), w, W()) && Boundary(w.log) == Some(t) && w.book.drained
      requires AllSettled(finished, cfg) && EmptyElsewhere(w, values, t)
      requires forall v, x :: v in values && C().Listed(x) ==> (v, x) in finished
      ensures !book.late ==> Covered(C(), W(), Names(C()), cfg)
    {
      if !book.late {
        forall m, val | C().Listed(m)
          ensures UnitDone(C(), W(), m, val, cfg)
        {
          if val in values {
            assert (val, m) in finished && UnitSettled(val, m, cfg);
          } else {
            NothingToCover(values, w, m, val, t, cfg);
          }
        }
      }
    }

    lemma NothingToCover(values: seq<string>, w: World, m: string, val: string, t: nat, cfg: Config)
      requires Boundary(log) == Some(t) && Forward(C(), w, W()) && Boundary(w.log) == Some(t) && w.book.drained
      requires !book.late && EmptyElsewhere(w, values, t) && C().Listed(m) && val !in values
      ensures UnitDone(C(), W(), m, val, cfg)
    {
      assert |DayRows(C(), w, m, t, val)| == 0;
      DayRowsLast(C(), w, W(), m, val);
    }

    // ---------- validation ----------

    ghost predicate Agrees(expr: string, db: Db) {
      && spec.targetTable in db.tables && spec.V2Table() in db.tables
      && eval(expr, db.tables[spec.targetTable]) == eval(expr, db.tables[spec.V2Table()])
    }

    ghost predicate AllAgree(db: Db) {
      forall x :: x in spec.validations ==> Agrees(x, db)
    }

    ghost predicate AgreeUpTo(db: Db, i: nat)
      requires i <= |spec.validations|
    {
      forall j :: 0 <= j < i ==> Agrees(spec.validations[j], db)
    }

    method Compare(expr: string) returns (ok: bool, detail: string)
      requires Ok()
      modifies this`db, this`now, this`script, this`book
      ensures Ok() && Calm(old(W()), W())
      ensures ok && book.arrived == old(book.arrived) ==> Agrees(expr, db)
      ensures old(Smooth()) ==> Quietly() && (ok <==> Agrees(expr, db))
    {
      var oldV, newV: string;
      ok, oldV := Query(expr, spec.targetTable);
      if !ok {
        return false, oldV;
      }
      ghost var w := W();
      ok, newV := Query(expr, spec.V2Table());
      CalmTransitive(old(W()), w, W());
      if !ok {
        return false, newV;
      }
      if oldV != newV {
        return false, "validation \"" + expr + "\" mismatch: old=" + oldV + " new=" + newV;
      }
      return true, "";
    }

    method CompareNext(i: nat, ghost w0: World) returns (ok: bool, detail: string)
      requires Ok() && Calm(w0, W()) && i < |spec.validations|
      requires book.arrived == w0.book.arrived ==> AgreeUpTo(db, i)
      modifies this`db, this`now, this`script, this`book
      ensures Ok() && Calm(w0, W())
      ensures ok && book.arrived == w0.book.arrived ==> AgreeUpTo(db, i + 1)
      ensures old(Smooth()) ==> Quietly() && (ok <==> Agrees(spec.validations[i], db))
    {
      ghost var w := W();
      ok, detail := Compare(spec.validations[i]);
      CalmTransitive(w0, w, W());
    }

    /** Compare old and new by every validation expression, in order. */
    method Validate() returns (ok: bool, detail: string)
      requires Ok()
      modifies this`db, this`now, this`script, this`book
      ensures Ok() && Calm(old(W()), W())
      ensures ok && book.arrived == old(book.arrived) ==> AllAgree(db)
      ensures old(Smooth()) ==> Quietly() && (ok <==> AllAgree(db))
    {
      ghost var w0 := W();
      CalmReflexive(w0);
      detail := "";
      var i := 0;
      while i < |spec.validations|
        invariant 0 <= i <= |spec.validations|
        invariant Ok() && Calm(w0, W())
        invariant book.arrived == w0.book.arrived ==> AgreeUpTo(db, i)
        invariant old(Smooth()) ==> Quietly()
      {
        ok, detail := CompareNext(i, w0);
        if !ok {
          return;
        }
        i := i + 1;
      }
      ok := true;
    }

    // ---------- the run ----------

    ghost predicate AllResolve()
      reads this`db
    {
      forall m :: C().Listed(m) && m in defs ==> Resolves(db, defs[m], spec.boundaryColumn)
    }

    /** Will a run get past its checks? */
    ghost predicate Startable()
      reads this
    {
      spec.Valid() && Guarded(C(), log) && Available() && AllResolve() && spec.retargets
    }

    lemma ResolvedIsGrounded(mvs: seq<MV>)
      requires Ok() && Loaded(mvs)
      ensures ResolveUpTo(mvs, |mvs|) <==> AllResolve()
      ensures AllResolve() ==> AllGrounded(defs, db)
    {
      InvParts(C(), W());
      forall m | m in defs && AllResolve() ensures Grounded(defs, db, m) { assert m in Names(C()); }
      forall m | C().Listed(m)
        ensures m in defs && (ResolveUpTo(mvs, |mvs|) ==> Resolves(db, defs[m], spec.boundaryColumn))
      {
        ResolvesListed(mvs, m);
      }
      forall i | 0 <= i < |mvs| && AllResolve()
        ensures Resolves(db, mvs[i], spec.boundaryColumn)
      {
        assert C().Listed(spec.mvs[i]);
      }
    }

    lemma ResolvesListed(mvs: seq<MV>, m: string)
      requires Loaded(mvs) && C().Listed(m)
      ensures m in defs && (ResolveUpTo(mvs, |mvs|) ==> Resolves(db, defs[m], spec.boundaryColumn))
    {
      var i :| 0 <= i < |spec.mvs| && spec.mvs[i] == m;
      assert mvs[i] == defs[m];
    }

    /** Is the spec valid and the log its own? */
    method ReadLog() returns (ok: bool, recs: seq<Record>)
      requires Ok()
      modifies this`db, this`now, this`script, this`book
      ensures Ok() && Calm(old(W()), W())
      ensures ok ==> spec.Valid() && recs == log && Guarded(C(), log)
      ensures old(Smooth()) ==> AtOnce()
      ensures old(Smooth()) ==> (ok <==> spec.Valid() && Guarded(C(), log))
    {
      recs := [];
      if !spec.Valid() {
        CalmReflexive(W());
        return false, recs;
      }
      ok, recs := Records();
      if !ok {
        return;
      }
      InvParts(C(), W());
      if log != [] { ShapeAt(log, |log| - 1); }
      ok := recs == [] || Last(recs).hash == "" || Last(recs).hash == spec.hash;
    }

    /** Definitions that resolve against their sources. */
    method Resolve() returns (ok: bool, mvs: seq<MV>)
      requires Ok()
      modifies this`db, this`now, this`script, this`book
      ensures Ok() && Calm(old(W()), W())
      ensures ok ==> Loaded(mvs) && Available() && AllResolve() && AllGrounded(defs, db)
      ensures old(Smooth()) ==> AtOnce()
      ensures old(Smooth() && Available() && AllResolve()) ==> ok
    {
      ok, mvs := LoadMVs();
      if !ok {
        return;
      }
      ghost var w := W();
      ok := Preflight(mvs);
      CalmTransitive(old(W()), w, W());
      ResolvedIsGrounded(mvs);
    }

    /** The checks before the v2 table: nothing is changed before they pass. */
    method Prepare() returns (ok: bool, recs: seq<Record>, mvs: seq<MV>)
      requires Ok()
      modifies this`db, this`now, this`script, this`book
      ensures Ok() && Calm(old(W()), W())
      ensures ok ==> recs == log && Loaded(mvs) && Startable() && old(Startable())
      ensures ok ==> AllGrounded(defs, db)
      ensures old(Smooth()) ==> AtOnce()
      ensures old(Smooth() && Startable()) ==> ok
    {
      mvs := [];
      ok, recs := ReadLog();
      if !ok {
        return;
      }
      ghost var w := W();
      ok, mvs := Resolve();
      CalmTransitive(old(W()), w, W());
      ok := ok && spec.retargets;
    }

    method EnsureV2() returns (ok: bool)
      requires Ok() && AllGrounded(defs, db) && Guarded(C(), log)
      modifies this`db, this`now, this`script, this`book
      ensures Ok() && log == old(log) && Began(C(), old(W()), W())
      ensures ok ==> Owner() && book.build == Joined(C(), old(W()))
      ensures old(Smooth()) ==> AtOnce() && ok
    {
      ghost var w0, mid := W(), W();
      ok, mid := CreateV2();
      CreateBegan(C(), w0, mid, W());
    }

    method NoteCreated() returns (ok: bool)
      requires Owner() && Guarded(C(), log)
      modifies this`db, this`log, this`now, this`script, this`book
      ensures Owner() && Forward(C(), old(W()), W()) && SameFill(old(W()), W()) && OnlyNoted(old(W()), W())
      ensures Boundary(log) == Boundary(old(log))
      ensures ok ==> log != [] && Last(log).hash == spec.hash
      ensures old(Smooth()) ==> AtOnce() && ok
    {
      CreatedFits(C(), W());
      ok := Note(Created, Done, "", "");
    }

    /** Create v2 and record it. */
    method StartV2() returns (ok: bool)
      requires Ok() && AllGrounded(defs, db) && Guarded(C(), log)
      modifies this`db, this`log, this`now, this`script, this`book
      ensures Ok() && Boundary(log) == Boundary(old(log)) && Began(C(), old(W()), W())
      ensures ok ==> Owner() && log != [] && Last(log).hash == spec.hash && book.build == Joined(C(), old(W()))
      ensures old(Smooth()) ==> AtOnce() && ok
    {
      ghost var w0 := W();
      ok := EnsureV2();
      if !ok {
        return;
      }
      ghost var w := W();
      ok := NoteCreated();
      StillBegan(C(), w0, w, W());
    }

    method PersistBoundary(t: nat) returns (ok: bool)
      requires Owner() && log != [] && Last(log).hash == spec.hash && Boundary(log).None?
      requires ParseBoundary(BoundaryDetail(t)) == Some(t)
      modifies this`db, this`log, this`now, this`script, this`book
      ensures Owner() && Forward(C(), old(W()), W()) && SameFill(old(W()), W()) && OnlyNoted(old(W()), W())
      ensures ok ==> Boundary(log) == Some(t)
      ensures old(Smooth()) ==> AtOnce() && ok
    {
      BoundaryAppend(log, Record(spec.hash, DualWrite, BoundarySet, "", BoundaryDetail(t)));
      ok := Note(DualWrite, BoundarySet, "", BoundaryDetail(t));
    }

    /** The near-future boundary, in whole seconds. */
    static function FreshBoundary(now: nat, offset: nat): (t: nat)
      ensures ParseBoundary(BoundaryDetail(t)) == Some(t)
      ensures t <= now + offset < t + SECOND
    {
      BoundaryReadsBack(now + offset);
      TruncateToSecond(now + offset)
    }

    /** Use the recorded boundary, or fix and persist a new one. */
    method FixBoundary(recs: seq<Record>, opts: Options) returns (ok: bool, t: nat)
      requires Owner() && log != [] && Last(log).hash == spec.hash && Boundary(recs) == Boundary(log)
      requires opts.boundaryOffset > 0
      modifies this`db, this`log, this`now, this`script, this`book
      ensures Owner() && Forward(C(), old(W()), W()) && SameFill(old(W()), W()) && OnlyNoted(old(W()), W())
      ensures ok ==> Boundary(log) == Some(t)
      ensures ok && Boundary(old(log)).None? ==> t == FreshBoundary(old(now), opts.boundaryOffset)
      ensures old(Smooth()) ==> AtOnce() && ok
    {
      var isNew;
      t, isNew := BoundaryFrom(recs);
      ok := true;
      ForwardReflexive(C(), W());
      if isNew {
        t := FreshBoundary(now, opts.boundaryOffset);
        ok := PersistBoundary(t);
      }
    }

    method ArmNext(m: MV, t: nat, ghost w0: World) returns (ok: bool)
      requires Owner() && Boundary(log) == Some(t) && Forward(C(), w0, W()) && SameFill(w0, W())
      requires IsOwn(m)
      modifies this`db, this`now, this`script, this`book
      ensures Owner() && Forward(C(), w0, W()) && SameFill(w0, W()) && log == old(log)
      ensures book.drained == old(book.drained)
      ensures old(db.views.Keys) <= db.views.Keys
      ensures ok ==> V2Name(m.name) in db.views
      ensures ArmedSince(old(W()), W(), ok)
      ensures old(Smooth()) ==> AtOnce() && ok
    {
      ghost var w := W();
      ok := Arm(m, t);
      ForwardTransitive(C(), w0, w, W());
    }

    /** Arm a copy of every listed view. */
    method ArmAll(mvs: seq<MV>, t: nat) returns (ok: bool)
      requires Owner() && Boundary(log) == Some(t) && Loaded(mvs)
      modifies this`db, this`now, this`script, this`book
      ensures Owner() && Forward(C(), old(W()), W()) && SameFill(old(W()), W())
      ensures log == old(log) && book.drained == old(book.drained)
      ensures ok ==> AllArmed(C(), db) && NotedInPlace(C(), W())
      ensures old(Smooth()) ==> AtOnce() && ok
      ensures old(Smooth()) ==> book.armed == old(book.armed) || book.armed == Some(old(now))
    {
      ghost var w0 := W();
      ForwardReflexive(C(), w0);
      var i := 0;
      while i < |mvs|
        invariant 0 <= i <= |mvs| && log == old(log) && book.drained == old(book.drained)
        invariant Owner() && Forward(C(), w0, W()) && SameFill(w0, W())
        invariant forall j :: 0 <= j < i ==> V2Name(spec.mvs[j]) in db.views
        invariant i > 0 && AllCopied(W().Defs(), db.views) ==> book.armed.Some?
        invariant old(Smooth()) ==> AtOnce()
        invariant old(Smooth()) ==> book.armed == old(book.armed) || book.armed == Some(old(now))
      {
        ListedName(mvs, i);
        ok := ArmNext(mvs[i], t, w0);
        if !ok {
          return;
        }
        i := i + 1;
      }
      ok := true;
      ListedAreCopied();
    }

    lemma ListedAreCopied()
      requires forall j :: 0 <= j < |spec.mvs| ==> V2Name(spec.mvs[j]) in db.views
      ensures AllArmed(C(), db) && (ListsAll(C(), W()) ==> AllCopied(W().Defs(), db.views))
    {
      forall m | C().Listed(m) ensures V2Name(m) in db.views {
        var j :| 0 <= j < |spec.mvs| && spec.mvs[j] == m;
      }
    }

    method WaitFor(t: nat) returns (ok: bool)
      requires Ok()
      modifies this`db, this`now, this`script, this`book
      ensures Ok() && Calm(old(W()), W()) && old(now) <= now
      ensures ok ==> now >= t
      ensures old(Smooth()) ==> Quietly() && ok && now == Max(old(now), t)
    {
      ok := true;
      if now < t {
        ok := Sleep(t - now);
      }
    }

    /** Wait until T has passed, then poll. */
    method AwaitQuiet(mvs: seq<MV>, t: nat, poll: nat)
      returns (ok: bool, ghost first: map<string, seq<Event>>, ghost polled: Db)
      requires Ok() && Loaded(mvs) && AllGrounded(defs, db)
      modifies this`db, this`now, this`script, this`book
      ensures Ok() && Calm(old(W()), W())
      ensures ok ==> now >= t + poll && now >= old(now) + poll && AllSourcesQuiet(first, polled, t)
      ensures old(Smooth()) ==> Quietly() && ok && now == Max(old(now), t) + poll
    {
      first, polled := map[], db;
      ok := WaitFor(t);
      if !ok {
        return;
      }
      StillGrounded(old(db));
      ghost var w := W();
      ok, first, polled := DrainLag(mvs, t, poll);
      CalmTransitive(old(W()), w, W());
    }

    method NoteDrained(t: nat) returns (ok: bool)
      requires Owner() && Boundary(log) == Some(t) && log != [] && Last(log).hash == spec.hash && now >= t
      modifies this`db, this`log, this`now, this`script, this`book
      ensures Owner() && Forward(C(), old(W()), W()) && SameFill(old(W()), W()) && old(now) <= now
      ensures ok ==> book.drained && EpochHas(log, LagDrained, Done)
      ensures !old(book.drained) && book.drained ==> t + book.pace.grace >= old(now)
      ensures old(Smooth()) ==> AtOnce() && ok
      ensures old(Smooth()) && !old(book.drained) && book.drained ==> t + book.pace.grace == old(now)
    {
      var r := Record(spec.hash, LagDrained, Done, "", "");
      EpochAppend(log, r, LagDrained, Done);
      ok := Note(LagDrained, Done, "", "");
      InvParts(C(), W());
    }

    /** Lag-drain was recorded exactly one poll after T, or after now if T has passed. */
    twostate predicate Polled(t: nat, poll: nat)
      reads this
    {
      !old(book.drained) && book.drained ==> t + book.pace.grace == Max(old(now), t) + poll
    }

    /** Wait until T has passed and the pre-T counts are quiet, then record it. */
    method Settle(mvs: seq<MV>, t: nat, poll: nat)
      returns (ok: bool, ghost first: map<string, seq<Event>>, ghost polled: Db)
      requires Owner() && Boundary(log) == Some(t) && Loaded(mvs)
      requires log != [] && Last(log).hash == spec.hash
      modifies this`db, this`log, this`now, this`script, this`book
      ensures Owner() && Forward(C(), old(W()), W()) && SameFill(old(W()), W())
      ensures ok ==> book.drained && EpochHas(log, LagDrained, Done)
      ensures ok ==> now >= t + poll && now >= old(now) + poll && AllSourcesQuiet(first, polled, t)
      ensures !old(book.drained) && book.drained ==> book.pace.grace >= poll
      ensures old(Smooth()) ==> Quietly() && ok && Polled(t, poll)
    {
      ghost var w0 := W();
      OwnerIsGrounded();
      ok, first, polled := AwaitQuiet(mvs, t, poll);
      CalmIsForward(C(), w0, W());
      if !ok {
        return;
      }
      ghost var w := W();
      ok := NoteDrained(t);
      ForwardTransitive(C(), w0, w, W());
    }

    /** Validate and record the outcome. */
    method Conclude() returns (ok: bool, ghost checked: nat)
      requires Owner() && Boundary(log).Some? && log != [] && Last(log).hash == spec.hash
      requires EpochHas(log, LagDrained, Done)
      modifies this`db, this`log, this`now, this`script, this`book
      ensures Owner() && Forward(C(), old(W()), W()) && SameFill(old(W()), W())
      ensures ok ==> log == old(log) + [Record(spec.hash, Phase.Validated, Done, "", "")]
      ensures ok && book.arrived == checked ==> AllAgree(db)
      ensures old(Smooth()) ==> Quietly() && (ok <==> AllAgree(db))
      ensures old(Smooth()) && !ok ==> log != [] && Last(log).phase == ValidationFailed
    {
      ghost var w0 := W();
      checked := book.arrived;
      var detail;
      ok, detail := Validate();
      ghost var w := W();
      if ok {
        ok := NoteValidated();
      } else {
        NoteFailed(detail);
      }
      ForwardAfterCalm(C(), w0, w, W());
    }

    method NoteValidated() returns (ok: bool)
      requires Owner() && Boundary(log).Some? && log != [] && Last(log).hash == spec.hash
      requires EpochHas(log, LagDrained, Done)
      modifies this`db, this`log, this`now, this`script, this`book
      ensures Owner() && Forward(C(), old(W()), W()) && SameFill(old(W()), W())
      ensures ok ==> log == old(log) + [Record(spec.hash, Phase.Validated, Done, "", "")]
      ensures OnlyNoted(old(W()), W())
      ensures old(Smooth()) ==> Quietly() && ok
    {
      InvParts(C(), W());
      BoundaryIsRecorded(log);
      ok := Note(Phase.Validated, Done, "", "");
    }

    method NoteFailed(detail: string)
      requires Owner() && Boundary(log).Some? && log != [] && Last(log).hash == spec.hash
      modifies this`db, this`log, this`now, this`script, this`book
      ensures Owner() && Forward(C(), old(W()), W()) && SameFill(old(W()), W()) && OnlyNoted(old(W()), W())
      ensures old(Smooth()) ==> Quietly()
      ensures old(Smooth()) ==> log == old(log) + [Record(spec.hash, ValidationFailed, Failed, "", detail)]
    {
      var _ := Note(ValidationFailed, Failed, "", detail);
    }

    /** Arm every copy, then wait out the lag. */
    method ArmAndSettle(mvs: seq<MV>, t: nat, poll: nat) returns (ok: bool)
      requires Owner() && Boundary(log) == Some(t) && Loaded(mvs)
      requires log != [] && Last(log).hash == spec.hash
      modifies this`db, this`log, this`now, this`script, this`book
      ensures Owner() && Forward(C(), old(W()), W()) && SameFill(old(W()), W())
      ensures ok ==> AllArmed(C(), db) && book.drained && EpochHas(log, LagDrained, Done) && now >= t + poll
      ensures ok ==> NotedInPlace(C(), W())
      ensures !old(book.drained) && book.drained ==> book.pace.grace >= poll
      ensures old(Smooth()) ==> Quietly() && ok && Polled(t, poll)
      ensures old(Smooth()) ==> InPlaceSince(C(), W(), old(book.armed), old(now))
    {
      ghost var w0 := W();
      ok := ArmAll(mvs, t);
      if !ok {
        return;
      }
      ghost var w := W();
      ghost var first, polled;
      ok, first, polled := Settle(mvs, t, poll);
      ForwardTransitive(C(), w0, w, W());
      StillInPlace(C(), w, W(), w0.book.armed, old(now));
    }

    /** From the fixed boundary to the end of the backfill. */
    method FillTable(mvs: seq<MV>, t: nat, opts: Options, recs: seq<Record>) returns (ok: bool)
      requires Owner() && Boundary(log) == Some(t) && Loaded(mvs) && opts.lagPoll > 0
      requires log != [] && Last(log).hash == spec.hash && Completed(recs) == Completed(log)
      modifies this`db, this`log, this`now, this`script, this`book
      ensures Owner() && Forward(C(), old(W()), W())
      ensures Fill(C(), old(W()), W(), Completed(recs), Tuning(opts), ok)
      ensures ok ==> AllArmed(C(), db) && book.drained && EpochHas(log, LagDrained, Done) && NotedInPlace(C(), W())
      ensures !old(book.drained) && book.drained ==> book.pace.grace >= opts.lagPoll
      ensures old(Undisturbed()) ==> Quietly() && ok
      ensures old(Smooth()) ==> Polled(t, opts.lagPoll)
      ensures old(Smooth()) ==> InPlaceSince(C(), W(), old(book.armed), old(now))
      ensures old(Striking()) ==> Struck(old(W()), old(script), ok)
    {
      ghost var w0 := W();
      ok := ArmAndSettle(mvs, t, opts.lagPoll);
      if !ok {
        NotFilled(C(), w0, W(), Completed(recs), Tuning(opts));
        return;
      }
      ghost var w1 := W();
      ok := Backfill(mvs, t, opts, recs);
      ForwardTransitive(C(), w0, w1, W());
      assert Fill(C(), w1, W(), Completed(recs), Tuning(opts), ok);
      FilledLater(C(), w0, w1, W(), Completed(recs), Tuning(opts), ok);
      StillInPlace(C(), w1, W(), w0.book.armed, old(now));
    }

    /** From the fixed boundary to the validated record; filled says that the backfill was
        completed. */
    method FillAndValidate(mvs: seq<MV>, t: nat, opts: Options, recs: seq<Record>)
      returns (ok: bool, ghost checked: nat, ghost filled: bool)
      requires Owner() && Boundary(log) == Some(t) && Loaded(mvs) && opts.lagPoll > 0
      requires log != [] && Last(log).hash == spec.hash && Completed(recs) == Completed(log)
      modifies this`db, this`log, this`now, this`script, this`book
      ensures Owner() && Forward(C(), old(W()), W())
      ensures Fill(C(), old(W()), W(), Completed(recs), Tuning(opts), filled)
      ensures filled ==> AllArmed(C(), db) && book.drained && NotedInPlace(C(), W())
      ensures !old(book.drained) && book.drained ==> book.pace.grace >= opts.lagPoll
      ensures ok ==> filled && log != [] && Last(log).phase == Phase.Validated
      ensures ok && book.arrived == checked ==> AllAgree(db)
      ensures old(Undisturbed()) ==>
        Quietly() && filled && (ok <==> AllAgree(db))
      ensures old(Smooth()) ==> Polled(t, opts.lagPoll)
      ensures old(Smooth()) ==> InPlaceSince(C(), W(), old(book.armed), old(now))
      ensures old(Undisturbed()) && !ok ==> log != [] && Last(log).phase == ValidationFailed
      ensures old(Striking()) ==> Struck(old(W()), old(script), filled) && (!filled ==> !ok)
    {
      ghost var w0 := W();
      checked := 0;
      ok := FillTable(mvs, t, opts, recs);
      filled := ok;
      if !ok {
        return;
      }
      ghost var w := W();
      ok, checked := Conclude();
      ForwardTransitive(C(), w0, w, W());
      StillInPlace(C(), w, W(), w0.book.armed, old(now));
      StillFilled(C(), w0, w, W(), Completed(recs), Tuning(opts));
    }

    /** Checks, v2 table, boundary. */
    method Begin(opts: Options) returns (ok: bool, recs: seq<Record>, mvs: seq<MV>, t: nat)
      requires Ok() && opts.boundaryOffset > 0
      modifies this`db, this`log, this`now, this`script, this`book
      ensures Ok() && Began(C(), old(W()), W())
      ensures !old(Startable()) ==> !ok && Calm(old(W()), W())
      ensures ok ==> Owner() && Boundary(log) == Some(t) && Loaded(mvs)
      ensures ok ==> log != [] && Last(log).hash == spec.hash && Completed(recs) == Completed(log)
      ensures ok ==> spec.Valid() && book.build == Joined(C(), old(W()))
      ensures ok && Boundary(old(log)).None? && old(Smooth()) ==> t == FreshBoundary(old(now), opts.boundaryOffset)
      ensures old(Smooth()) ==> AtOnce()
      ensures old(Smooth() && Startable()) ==> ok
    {
      ghost var w0 := W();
      t := 0;
      ok, recs, mvs := Prepare();
      CalmBegan(C(), w0, W());
      if !ok {
        return;
      }
      ghost var w := W();
      ok := StartV2();
      BeganAfterCalm(C(), w0, w, W());
      if !ok {
        return;
      }
      w := W();
      ok, t := FixBoundary(recs, opts);
      StillBegan(C(), w0, w, W());
    }

    /** What a run comes to when nothing is struck, or nothing before a chunk record. */
    twostate predicate RunsSmoothly(options: Options, ok: bool, filled: bool)
      reads this
    {
      && (old(Smooth() && !Guarded(C(), log)) ==> Quietly())
      && (old(Undisturbed() && Startable()) ==> Quietly() && filled && (ok <==> AllAgree(db)))
      && (old(Undisturbed() && Startable()) && !ok ==> log != [] && Last(log).phase == ValidationFailed)
      && (old(Smooth() && Startable()) && Boundary(old(log)).None? ==>
            Boundary(log) == Some(FreshBoundary(old(now), options.WithDefaults().boundaryOffset)))
    }

    /** Lag-drain was recorded one poll after the boundary, or after now if that was later. */
    static ghost predicate PolledOnce(w: World, now: nat, poll: nat) {
      Bounded(w) && T(w) + w.book.pace.grace == Max(now, T(w)) + poll
    }

    /** The run; mid is where the boundary is fixed and the table is there, if it gets so far. */
    method Execute(options: Options)
      returns (ok: bool, ghost checked: nat, ghost filled: bool, ghost mid: World)
      requires Ok()
      modifies this`db, this`log, this`now, this`script, this`book
      ensures Ok() && Began(C(), old(W()), mid) && ((mid == W() && !filled) || Filled(mid, Tuning(options), filled))
      ensures (mid == W() && !filled) || mid.book.build == Joined(C(), old(W()))
      ensures !old(Startable()) ==> !ok && !filled && Calm(old(W()), W())
      ensures RunsSmoothly(options, ok, filled)
      ensures filled ==> Owner() && Bounded(W()) && AllArmed(C(), db) && spec.Valid() && NotedInPlace(C(), W())
      ensures HasV2(C(), W()) && book.drained && !(HasV2(C(), old(W())) && old(book.drained)) ==>
        book.pace.grace >= options.WithDefaults().lagPoll
      ensures ok ==> filled && log != [] && Last(log).phase == Phase.Validated
      ensures ok && book.arrived == checked ==> AllAgree(db)
      ensures old(Smooth() && Startable()) ==> NewInPlace(mid, old(now), options.WithDefaults().lagPoll)
      ensures old(Striking() && Startable()) ==> RunsStruck(old(W()), old(script), ok, filled)
    {
      var opts := options.WithDefaults();
      var recs, mvs, t;
      ok, recs, mvs, t := Begin(opts);
      checked, filled, mid := 0, false, W();
      if !ok {
        return;
      }
      ok, checked, filled := FillAndValidate(mvs, t, opts, recs);
      StruckSince(old(W()), mid, old(script), ok, filled, old(Striking()));
    }

    /** What a run comes to whose next chunk record is struck, and nothing before it. */
    ghost predicate RunsStruck(w0: World, moves: seq<Move>, ok: bool, filled: bool)
      reads this
    {
      && Owner() && Bounded(W()) && book.arrived == w0.book.arrived && (!filled ==> !ok)
      && StruckFrom(LedgerBefore(C(), w0), TornBefore(C(), w0), Completed(w0.log), moves, filled)
    }

    ghost predicate Filled(mid: World, cfg: Config, filled: bool)
      reads this
    {
      && HasV2(C(), mid) && Bounded(mid) && Inv(C(), mid) && Forward(C(), mid, W()) && Owner()
      && Fill(C(), mid, W(), Completed(mid.log), cfg, filled) && (filled ==> book.drained)
    }

    /** create, dual-write, lag-drain, backfill, validate.  Whatever the script does, the
        invariant holds when the run ends or dies.  filled says that the backfill was completed;
        Ran says what that means for the table. */
    method Run(options: Options) returns (ok: bool, ghost checked: nat, ghost filled: bool)
      requires Ok()
      modifies this`db, this`log, this`now, this`script, this`book
      ensures Ok() && old(log) <= log
      ensures !old(Startable()) ==> !ok && !filled && Calm(old(W()), W())
      ensures RunsSmoothly(options, ok, filled)
      ensures Boundary(old(log)).Some? ==> Boundary(log) == Boundary(old(log))
      ensures Completed(old(log)) <= Completed(log)
      ensures Ran(C(), old(W()), W(), Tuning(options), filled)
      ensures filled ==> Owner() && Bounded(W()) && AllArmed(C(), db) && spec.Valid() && NotedInPlace(C(), W())
      ensures HasV2(C(), W()) && book.drained && !(HasV2(C(), old(W())) && old(book.drained)) ==>
        book.pace.grace >= options.WithDefaults().lagPoll
      ensures ok ==> filled && log != [] && Last(log).phase == Phase.Validated
      ensures old(Repeatable(C(), W(), Tuning(options))) && filled && !book.late ==> book.ledger == old(book.ledger)
      ensures ok && book.arrived == checked ==> AllAgree(db)
      ensures old(Smooth() && Startable() && !HasV2(C(), W())) ==>
        book.armed == Some(old(now)) && (book.drained ==> PolledOnce(W(), old(now), options.WithDefaults().lagPoll))
      ensures old(Striking() && Startable()) ==> RunsStruck(old(W()), old(script), ok, filled)
    {
      ghost var w0, mid := W(), W();
      ok, checked, filled, mid := Execute(options);
      NewlyArmed(w0, mid, old(now), options.WithDefaults().lagPoll, old(Smooth() && Startable() && !HasV2(C(), W())));
      RunIsDone(w0, mid, Tuning(options), filled);
    }

    lemma RunIsDone(w0: World, mid: World, cfg: Config, filled: bool)
      requires Ok() && Began(C(), w0, mid) && ((mid == W() && !filled) || Filled(mid, cfg, filled))
      requires (mid == W() && !filled) || mid.book.build == Joined(C(), w0)
      ensures w0.log <= log && (Bounded(w0) ==> Boundary(log) == Boundary(w0.log))
      ensures Completed(w0.log) <= Completed(log)
      ensures Ran(C(), w0, W(), cfg, filled)
      ensures Repeatable(C(), w0, cfg) && filled && !book.late ==> book.ledger == w0.book.ledger
    {
      if mid == W() && !filled {
        DidNotFill(C(), w0, mid, cfg);
      } else {
        RunDone(C(), w0, mid, W(), cfg, filled);
      }
      RunRepeatsNothing(C(), w0, W(), cfg, filled);
    }

    lemma StruckSince(w0: World, w: World, moves: seq<Move>, ok: bool, filled: bool, struck: bool)
      requires Began(C(), w0, w) && (struck ==> HasV2(C(), w) && Struck(w, moves, filled))
      requires struck ==> Owner() && Bounded(W()) && w.book.arrived == w0.book.arrived && (!filled ==> !ok)
      ensures struck ==> RunsStruck(w0, moves, ok, filled)
    {
    }

    /** The copies of mid's table are in place from its own time on, or from now; and its lag was
        polled once. */
    ghost predicate NewInPlace(mid: World, at: nat, poll: nat)
      reads this
    {
      && HasV2(C(), mid) && spec.Valid() && Forward(C(), mid, W())
      && InPlaceSince(C(), W(), mid.book.armed, at)
      && Bounded(mid) && (!mid.book.drained && book.drained ==> T(mid) + book.pace.grace == Max(at, T(mid)) + poll)
    }

    /** What that means for a new table. */
    lemma NewlyArmed(w0: World, mid: World, at: nat, poll: nat, smooth: bool)
      requires Ok() && Began(C(), w0, mid)
      requires smooth ==> !HasV2(C(), w0) && NewInPlace(mid, at, poll) && mid.book.build == Joined(C(), w0)
      ensures smooth ==> book.armed == Some(at) && (book.drained ==> PolledOnce(W(), at, poll))
    {
      InvParts(C(), W());
    }
  }
}
