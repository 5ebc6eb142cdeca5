/** What holds on along one Run: relations between an earlier and a later world. */
module Progress {
  import opened Text
  import opened Warehouse
  import opened Journal
  import opened Limits
  import opened Chunks
  import opened Protocol
  import opened Statements
  import opened Accounting

  /** What stays when no insert arrives. */
  ghost predicate SameSources(w: World, w': World) {
    && w'.db.sources == w.db.sources && w'.book.late == w.book.late && w'.book.pace.ahead == w.book.pace.ahead
  }

  /** A view stays as it is, and a new one is the copy of a listed view. */
  ghost predicate ViewKept(c: Setting, w: World, w': World, n: string) {
    if n in w.db.views then n in w'.db.views && w'.db.views[n] == w.db.views[n]
    else n in w'.db.views ==> HasV2(c, w') && w'.db.views[n].target == c.V2() && CopyName(c.spec.mvs, n)
  }

  /** A table other than v2 loses nothing, and changes only by inserts. */
  ghost predicate OtherKept(c: Setting, w: World, w': World, t: string) {
    t in w.db.tables && t != c.V2() ==>
      && t in w'.db.tables && w.db.tables[t] <= w'.db.tables[t]
      && (w.book.arrived == w'.book.arrived ==> w'.db.tables[t] == w.db.tables[t])
  }

  /** From w to w' the rebuild only moved onward: no abort, nothing dropped. */
  ghost predicate Onward(c: Setting, w: World, w': World) {
    && w.log <= w'.log
    && (Bounded(w) ==> Boundary(w'.log) == Boundary(w.log))
    && (forall p, s :: EpochHas(w.log, p, s) ==> EpochHas(w'.log, p, s))
    && (w.log != [] && Last(w.log).hash == c.spec.hash ==> Last(w'.log).hash == c.spec.hash)
    && Completed(w.log) <= Completed(w'.log)
    && w'.db.tables.Keys == w.db.tables.Keys
    && w'.db.sources.Keys == w.db.sources.Keys && w'.db.columns == w.db.columns
    && w.db.views.Keys <= w'.db.views.Keys
    && (forall n :: ViewKept(c, w, w', n)) && (forall t :: OtherKept(c, w, w', t))
    && w'.book.build.(defs := w.Defs()) == w.book.build && Extends(w.Defs(), w'.Defs())
    && (w.book.armed.Some? && Extends(w'.Defs(), w.Defs()) ==> w'.book.armed == w.book.armed)
    && w'.book.stray == w.book.stray
    && w.book.ledger <= w'.book.ledger
    && w'.book.base == w.book.base
    && (w.book.drained ==> w'.book.drained && w'.book.pace.grace == w.book.pace.grace)
    && (w.book.late ==> w'.book.late)
    && (w.book.retuned ==> w'.book.retuned)
    && (w.book.tuning.Some? ==> w'.book.tuning == w.book.tuning)
    && w.book.pace.clock <= w'.book.pace.clock && w.book.pace.lag <= w'.book.pace.lag
    && (w.book.pace.ahead ==> w'.book.pace.ahead)
    && w.book.arrived <= w'.book.arrived
    && (w.book.arrived == w'.book.arrived ==> SameSources(w, w') && w'.book.pace.lag == w.book.pace.lag)
    && (forall m, e :: SettledAt(w, w', m, e))
  }

  /** Besides, the table is built from the same definitions. */
  ghost predicate Forward(c: Setting, w: World, w': World) {
    && Onward(c, w, w')
    && w'.book.build == w.book.build && w'.book.keyed == w.book.keyed
    && (Bounded(w) && (w.book.arrived == w'.book.arrived || AllCopied(w.Defs(), w.db.views)) ==>
          w'.book.missed == w.book.missed)
  }

  lemma ServerTransitive(c: Setting, w0: World, w1: World, w2: World)
    requires SameServer(c, w0, w1) && SameServer(c, w1, w2)
    requires w0.book.arrived <= w1.book.arrived <= w2.book.arrived
    ensures SameServer(c, w0, w2)
  {
    forall n ensures ViewKept(c, w0, w2, n) {
      assert ViewKept(c, w0, w1, n) && ViewKept(c, w1, w2, n);
    }
    OthersTransitive(c, w0, w1, w2);
  }

  lemma OthersTransitive(c: Setting, w0: World, w1: World, w2: World)
    requires forall t :: OtherKept(c, w0, w1, t)
    requires forall t :: OtherKept(c, w1, w2, t)
    requires w0.book.arrived <= w1.book.arrived <= w2.book.arrived
    ensures forall t :: OtherKept(c, w0, w2, t)
  {
    forall t ensures OtherKept(c, w0, w2, t) {
      assert OtherKept(c, w0, w1, t) && OtherKept(c, w1, w2, t);
    }
  }

  lemma OnwardTransitive(c: Setting, w0: World, w1: World, w2: World)
    requires Onward(c, w0, w1) && Onward(c, w1, w2)
    ensures Onward(c, w0, w2)
  {
    forall m, e ensures SettledAt(w0, w2, m, e) {
      assert SettledAt(w0, w1, m, e) && SettledAt(w1, w2, m, e);
    }
    forall n ensures ViewKept(c, w0, w2, n) {
      assert ViewKept(c, w0, w1, n) && ViewKept(c, w1, w2, n);
    }
    OthersTransitive(c, w0, w1, w2);
  }

  lemma ForwardTransitive(c: Setting, w0: World, w1: World, w2: World)
    requires Forward(c, w0, w1) && Forward(c, w1, w2)
    ensures Forward(c, w0, w2)
  {
    OnwardTransitive(c, w0, w1, w2);
    if AllCopied(w0.Defs(), w0.db.views) { assert AllCopied(w1.Defs(), w1.db.views); }
  }

  lemma CalmIsForward(c: Setting, w: World, w': World)
    requires Calm(w, w')
    ensures Forward(c, w, w')
  {
    forall t ensures OtherKept(c, w, w', t) { assert TableGrows(w, w', t); }
  }

  lemma ForwardReflexive(c: Setting, w: World)
    ensures Forward(c, w, w)
  {
    CalmReflexive(w);
    CalmIsForward(c, w, w);
  }

  lemma AppendIsForward(c: Setting, w: World, r: Record)
    requires r.phase != Aborted && r.hash == c.spec.hash
    ensures Forward(c, w, AfterAppend(c, w, r))
  {
    BoundaryAppend(w.log, r);
    CompletedAppend(w.log, r);
    forall p, s ensures EpochHas(w.log, p, s) ==> EpochHas(w.log + [r], p, s) {
      EpochAppend(w.log, r, p, s);
    }
  }

  lemma ArmIsOnward(c: Setting, w: World, m: string)
    requires HasV2(c, w) && Bounded(w) && c.Listed(m) && m in c.defs && InPlace(c, w)
    ensures Onward(c, w, AfterArm(c, w, m))
  {
  }

  lemma ArmIsForward(c: Setting, w: World, m: string)
    requires HasV2(c, w) && Bounded(w) && c.Listed(m) && m in c.defs && InPlace(c, w)
    ensures Forward(c, w, AfterArm(c, w, m))
  {
    ArmIsOnward(c, w, m);
  }

  /** The copies are in place since before w0 or since now; and if all of them are, that is noted. */
  ghost predicate ArmedSince(w0: World, w: World, noted: bool) {
    && (w.book.armed == w0.book.armed || w.book.armed == Some(w.book.pace.clock))
    && (noted && AllCopied(w.Defs(), w.db.views) ==> w.book.armed.Some?)
  }

  lemma ArmAfterCalm(c: Setting, w0: World, w: World, m: string)
    requires Calm(w0, w) && Inv(c, w) && HasV2(c, w) && Bounded(w) && c.Listed(m) && m in c.defs && Mine(c, w)
    ensures Inv(c, AfterArm(c, w, m)) && Mine(c, AfterArm(c, w, m)) && Forward(c, w0, AfterArm(c, w, m))
    ensures V2Name(m) in AfterArm(c, w, m).db.views && ArmedSince(w0, AfterArm(c, w, m), true)
  {
    ArmKeepsInv(c, w, m);
    InvParts(c, w);
    CalmIsForward(c, w0, w);
    ArmIsForward(c, w, m);
    ForwardTransitive(c, w0, w, AfterArm(c, w, m));
  }

  /** If v2 is built from the views that c lists and no others, its copies are noted as in
      place. */
  ghost predicate NotedInPlace(c: Setting, w: World) {
    c.spec.mvs != [] && ListsAll(c, w) ==> w.book.armed.Some?
  }

  /** They were in place before, or are since this time. */
  ghost predicate InPlaceSince(c: Setting, w: World, before: Option<nat>, at: nat) {
    c.spec.mvs != [] && ListsAll(c, w) ==> w.book.armed.Some? && (w.book.armed == before || w.book.armed.value == at)
  }

  lemma StillInPlace(c: Setting, w: World, w': World, before: Option<nat>, at: nat)
    requires Forward(c, w, w')
    ensures NotedInPlace(c, w) ==> NotedInPlace(c, w')
    ensures InPlaceSince(c, w, before, at) ==> InPlaceSince(c, w', before, at)
  {
  }

  lemma ChunkIsForward(c: Setting, w: World, k: Chunk)
    requires HasV2(c, w) && Bounded(w) && Grounded(w.Defs(), w.db, k.mv)
    ensures Forward(c, w, AfterChunk(c, w, k))
  {
  }

  lemma TuningIsForward(c: Setting, w: World, tuning: Config)
    ensures Forward(c, w, AfterTuning(w, tuning))
  {
  }

  // ---------- facts that last ----------

  lemma DayRowsLast(c: Setting, w: World, w': World, m: string, val: string)
    requires Onward(c, w, w') && Bounded(w) && w.book.drained && !w'.book.late && m in w.Defs()
    ensures Grounded(w.Defs(), w.db, m) == Grounded(w'.Defs(), w'.db, m)
    ensures DayRows(c, w', m, T(w), val) == DayRows(c, w, m, T(w), val)
  {
    var a, b := DayRows(c, w', m, T(w), val), DayRows(c, w, m, T(w), val);
    forall r: Row ensures a[r] == b[r] {
      assert SettledAt(w, w', m, r.event);
    }
  }

  lemma PlannedLasts(c: Setting, w: World, w': World, k: Chunk, cfg: Config)
    requires Onward(c, w, w') && w.book.drained && !w'.book.late && Planned(c, w, k, cfg)
    ensures Planned(c, w', k, cfg)
  {
    DayRowsLast(c, w, w', k.mv, k.val);
  }

  lemma UnitDoneLasts(c: Setting, w: World, w': World, m: string, val: string, cfg: Config)
    requires Onward(c, w, w') && Bounded(w) && m in w.Defs()
    requires w.book.drained && !w'.book.late && UnitDone(c, w, m, val, cfg)
    ensures UnitDone(c, w', m, val, cfg)
  {
    DayRowsLast(c, w, w', m, val);
  }

  lemma CoveredLasts(c: Setting, w: World, w': World, names: set<string>, cfg: Config)
    requires Onward(c, w, w') && Bounded(w) && names <= w.Defs().Keys
    requires w.book.drained && !w'.book.late && Covered(c, w, names, cfg)
    ensures Covered(c, w', names, cfg)
  {
    forall m, val | m in names ensures UnitDone(c, w', m, val, cfg) {
      assert UnitDone(c, w, m, val, cfg);
      UnitDoneLasts(c, w, w', m, val, cfg);
    }
  }

  lemma AddedAtLasts(c: Setting, w: World, w': World, k: Chunk, done: set<string>, cfg: Config)
    requires AddedAt(c, w, k, done, cfg) && Onward(c, w, w') && w.book.drained
    ensures AddedAt(c, w', k, done, cfg)
  {
    if !w'.book.late { PlannedLasts(c, w, w', k, cfg); }
  }

  /** A statement that neither inserts nor records a chunk. */
  lemma AddedLasts(c: Setting, w: World, w': World, before: seq<Chunk>, done: set<string>, cfg: Config)
    requires Added(c, w, before, done, cfg) && Onward(c, w, w') && w.book.drained
    requires w'.book.ledger == w.book.ledger && Completed(w'.log) == Completed(w.log)
    ensures Added(c, w', before, done, cfg)
    ensures AllRecorded(w, before) ==> AllRecorded(w', before)
  {
    forall k | k in w'.book.ledger[|before|..] ensures AddedAt(c, w', k, done, cfg) {
      AddedAtLasts(c, w, w', k, done, cfg);
    }
  }

  /** One more chunk, recorded or not. */
  lemma AddedOneMore(c: Setting, w: World, w': World, before: seq<Chunk>, done: set<string>, cfg: Config, k: Chunk)
    requires Added(c, w, before, done, cfg) && AllRecorded(w, before) && Onward(c, w, w') && w.book.drained
    requires w'.book.ledger == w.book.ledger + [k] && AddedAt(c, w', k, done, cfg)
    requires Completed(w'.log) <= Completed(w.log) + {k.Cursor()}
    requires c.Keyed() ==> k.Cursor() !in Completed(w.log) && SplitAlike(w.book.ledger[|before|..], k)
    ensures Added(c, w', before, done, cfg)
    ensures k.Cursor() in Completed(w'.log) ==> AllRecorded(w', before)
  {
    var ks, ks' := w.book.ledger[|before|..], w'.book.ledger[|before|..];
    assert ks' == ks + [k];
    forall x | x in ks' ensures AddedAt(c, w', x, done, cfg) {
      if x in ks { AddedAtLasts(c, w, w', x, done, cfg); }
    }
    if c.Keyed() {
      DistinctOneMore(ks, k, Completed(w.log));
      SplitOneMore(ks, k);
    }
    CursorOneMore(ks, k, done, Completed(w.log), Completed(w'.log));
  }

  lemma CursorOneMore(ks: seq<Chunk>, k: Chunk, done: set<string>, recorded: set<string>, recorded': set<string>)
    requires forall x :: x in recorded ==> x in done || HasCursor(ks, x)
    requires recorded' <= recorded + {k.Cursor()}
    ensures forall x :: x in recorded' ==> x in done || HasCursor(ks + [k], x)
  {
    forall x | x in recorded' ensures x in done || HasCursor(ks + [k], x) {
      if x == k.Cursor() {
        assert (ks + [k])[|ks|].Cursor() == x;
      } else if x !in done {
        var i :| 0 <= i < |ks| && ks[i].Cursor() == x;
        assert (ks + [k])[i].Cursor() == x;
      }
    }
  }

  /** Do the chunks of k's unit share its split? */
  predicate SplitAlike(ks: seq<Chunk>, k: Chunk) {
    forall x :: x in ks && x.mv == k.mv && x.val == k.val ==> x.n == k.n && x.expr == k.expr
  }

  lemma DistinctOneMore(ks: seq<Chunk>, k: Chunk, recorded: set<string>)
    requires DistinctCursors(ks) && k.Cursor() !in recorded
    requires forall x :: x in ks ==> x.Cursor() in recorded
    ensures DistinctCursors(ks + [k])
  {
  }

  lemma SplitOneMore(ks: seq<Chunk>, k: Chunk)
    requires OneSplit(ks) && SplitAlike(ks, k)
    ensures OneSplit(ks + [k])
  {
    var ks' := ks + [k];
    forall i, j | 0 <= i < j < |ks'| && ks'[i].mv == ks'[j].mv && ks'[i].val == ks'[j].val
      ensures ks'[i].n == ks'[j].n && ks'[i].expr == ks'[j].expr
    {
      if j == |ks| { assert ks[i] in ks; }
    }
  }

  // ---------- the stages of a run ----------

  /** Nothing was inserted or recorded as done in between. */
  ghost predicate SameChunks(w: World, w': World) {
    && w'.book.ledger == w.book.ledger && w'.book.torn == w.book.torn
    && Completed(w'.log) == Completed(w.log)
  }

  /** Nor was anything tuned. */
  ghost predicate SameFill(w: World, w': World) {
    SameChunks(w, w') && w'.book.tuning == w.book.tuning && w'.book.retuned == w.book.retuned
  }

  lemma ForwardAfterCalm(c: Setting, w0: World, w1: World, w2: World)
    requires Calm(w0, w1) && Forward(c, w1, w2)
    ensures Forward(c, w0, w2) && (SameFill(w1, w2) ==> SameFill(w0, w2))
  {
    CalmIsForward(c, w0, w1);
    ForwardTransitive(c, w0, w1, w2);
  }

  /** Besides, lag-drain was not recorded and without inserts the tables are the same. */
  ghost predicate OnlyNoted(w: World, w': World) {
    && w'.book.drained == w.book.drained && w'.book.armed == w.book.armed
    && w'.db.tables.Keys == w.db.tables.Keys
    && (w'.book.arrived == w.book.arrived ==> w'.db == w.db)
  }

  /** The next record of a run, if it was appended: what it may change. */
  ghost predicate Noted(w: World, w': World, r: Record) {
    && (w'.log == w.log || w'.log == w.log + [r])
    && (r.phase != Backfilled ==> SameFill(w, w'))
    && (r.phase != LagDrained ==> OnlyNoted(w, w'))
    && w'.book.ledger == w.book.ledger && w'.book.tuning == w.book.tuning && w'.book.retuned == w.book.retuned
    && w'.book.torn == (if CompletesChunk(r) && w'.log != w.log then w.book.torn - multiset{r.cursor} else w.book.torn)
    && w'.db.views == w.db.views
    && (!w.book.drained && w'.book.drained ==> Bounded(w') && T(w') + w'.book.pace.grace >= w.book.pace.clock)
  }

  lemma NextRecord(c: Setting, w: World, mid: World, w': World, r: Record)
    requires Calm(w, mid) && r.phase != Aborted && r.hash == c.spec.hash
    requires r.phase == LagDrained ==> Bounded(mid) && T(mid) <= mid.book.pace.clock
    requires w' == mid || w' == AfterAppend(c, mid, r)
    ensures Forward(c, w, w') && Noted(w, w', r)
  {
    CalmIsForward(c, w, mid);
    if w' != mid {
      BoundaryAppend(mid.log, r);
      CompletedAppend(mid.log, r);
      AppendIsForward(c, mid, r);
      ForwardTransitive(c, w, mid, w');
    }
  }

  /** v2 was created while the log showed these chunks as done, and nothing is in the book yet. */
  ghost predicate NewTable(w: World, done: set<string>) {
    && w.book.ledger == [] && w.book.base == done && w.book.torn == multiset{}
    && !w.book.drained && w.book.tuning.None? && !w.book.retuned && w.book.armed.None?
  }

  /** No object is gone, and none is new but v2 objects. */
  ghost predicate SameServer(c: Setting, w: World, w': World) {
    && w.db.tables.Keys <= w'.db.tables.Keys <= w.db.tables.Keys + {c.V2()}
    && w'.db.sources.Keys == w.db.sources.Keys && w'.db.columns == w.db.columns
    && w.db.views.Keys <= w'.db.views.Keys
    && (forall n :: ViewKept(c, w, w', n)) && (forall t :: OtherKept(c, w, w', t))
  }

  /** What has become of the table since w0 before anything is inserted: it is still the same,
      or it is new, and empty unless an insert arrived. */
  ghost predicate Began(c: Setting, w0: World, w: World) {
    && w0.log <= w.log && Completed(w.log) == Completed(w0.log)
    && (Bounded(w0) ==> Boundary(w.log) == Boundary(w0.log))
    && w0.book.arrived <= w.book.arrived
    && (w0.book.arrived == w.book.arrived ==>
          w.db.sources == w0.db.sources && w.book.pace.ahead == w0.book.pace.ahead)
    && SameServer(c, w0, w)
    && (if HasV2(c, w) then BuiltSince(c, w0, w) else w.book.build == w0.book.build)
    && (HasV2(c, w0) ==>
          && HasV2(c, w) && SameFill(w0, w) && w.book.base == w0.book.base && w.book.drained == w0.book.drained
          && (w.book.drained ==> w.book.pace.grace == w0.book.pace.grace)
          && (Bounded(w0) ==> Onward(c, w0, w)))
    && (!HasV2(c, w0) && HasV2(c, w) ==>
          && NewTable(w, Completed(w0.log))
          && (w0.book.arrived == w.book.arrived ==> w.db.tables[c.V2()] == multiset{} && w.book.pace.lag == 0))
  }

  /** Who has built the table that is there in w: the run that started in w0, on top of the
      table it found if that was being filled, or those before it. */
  ghost predicate BuiltSince(c: Setting, w0: World, w: World) {
    && (w.book.build == Joined(c, w0) || (HasV2(c, w0) && w.book.build == w0.book.build))
    && w.book.stray == (if HasV2(c, w0) then w0.book.stray else !CopiesFit(c, w0, c.defs))
    && (KeyedAfter(c, w0) ==> w.book.keyed)
  }

  lemma BuiltAfterCalm(c: Setting, w0: World, w1: World, w2: World)
    requires Calm(w0, w1) && HasV2(c, w2) && BuiltSince(c, w1, w2)
    ensures BuiltSince(c, w0, w2)
  {
    assert CopiesFit(c, w0, c.defs) == CopiesFit(c, w1, c.defs) by {
      forall m ensures FitsAt(c, w0, c.defs, m) == FitsAt(c, w1, c.defs, m) {}
    }
  }

  lemma CalmBegan(c: Setting, w: World, w': World)
    requires Calm(w, w')
    ensures Began(c, w, w')
  {
    CalmIsForward(c, w, w');
  }

  lemma BeganAfterCalm(c: Setting, w0: World, w1: World, w2: World)
    requires Calm(w0, w1) && Began(c, w1, w2)
    ensures Began(c, w0, w2)
  {
    CalmIsForward(c, w0, w1);
    ServerTransitive(c, w0, w1, w2);
    if HasV2(c, w0) && Bounded(w0) { OnwardTransitive(c, w0, w1, w2); }
    if HasV2(c, w2) { BuiltAfterCalm(c, w0, w1, w2); }
  }

  lemma CreateIsOnward(c: Setting, w: World)
    ensures HasV2(c, w) && Bounded(w) ==> Onward(c, w, AfterCreate(c, w))
    ensures BuiltSince(c, w, AfterCreate(c, w)) && SameServer(c, w, AfterCreate(c, w))
  {
  }

  lemma CreateBegan(c: Setting, w0: World, mid: World, w: World)
    requires Calm(w0, mid) && (w == mid || w == AfterCreate(c, mid))
    ensures Began(c, w0, w) && (w == AfterCreate(c, mid) ==> w.book.build == Joined(c, w0))
  {
    if w == mid {
      CalmBegan(c, w0, mid);
    } else {
      JustBegan(c, mid);
      BeganAfterCalm(c, w0, mid, w);
    }
  }

  lemma JustBegan(c: Setting, w: World)
    ensures Began(c, w, AfterCreate(c, w))
  {
    CreateIsOnward(c, w);
  }

  lemma StillBegan(c: Setting, w0: World, w: World, w': World)
    requires Began(c, w0, w) && HasV2(c, w) && Forward(c, w, w') && SameFill(w, w') && OnlyNoted(w, w')
    ensures Began(c, w0, w')
  {
    ServerTransitive(c, w0, w, w');
    if HasV2(c, w0) && Bounded(w0) { OnwardTransitive(c, w0, w, w'); }
  }

  /** At most one INSERT lost its record, and none if all went well. */
  ghost predicate TornBy(t0: multiset<string>, t: multiset<string>, ok: bool) {
    t == t0 || (!ok && exists x :: t == t0 + multiset{x})
  }

  /** What a run does to the table from w, where it has found done recorded. */
  ghost predicate Fill(c: Setting, w: World, w': World, done: set<string>, cfg: Config, filled: bool) {
    && Added(c, w', w.book.ledger, done, cfg) && TornBy(w.book.torn, w'.book.torn, filled)
    && (filled ==>
          && AllRecorded(w', w.book.ledger)
          && w'.book.tuning == AfterTuning(w, cfg).book.tuning && w'.book.retuned == AfterTuning(w, cfg).book.retuned
          && (!w'.book.late && Bounded(w') ==> Covered(c, w', Names(c), cfg)))
    && (w'.book.tuning == w.book.tuning || w'.book.tuning == AfterTuning(w, cfg).book.tuning)
    && (w'.book.retuned ==> AfterTuning(w, cfg).book.retuned)
  }

  lemma NotFilled(c: Setting, w: World, w': World, done: set<string>, cfg: Config)
    requires Forward(c, w, w') && SameFill(w, w') && done == Completed(w.log)
    ensures Fill(c, w, w', done, cfg, false)
  {
    assert w'.book.ledger[|w.book.ledger|..] == [];
  }

  /** A backfill after stages that filled nothing. */
  lemma FilledLater(c: Setting, w0: World, w: World, w': World, done: set<string>, cfg: Config, filled: bool)
    requires SameFill(w0, w) && Fill(c, w, w', done, cfg, filled)
    ensures Fill(c, w0, w', done, cfg, filled)
  {
  }

  lemma StillFilled(c: Setting, w0: World, w: World, w': World, done: set<string>, cfg: Config)
    requires Fill(c, w0, w, done, cfg, true) && Forward(c, w, w') && SameFill(w, w')
    requires Bounded(w) && w.book.drained && Names(c) <= w.Defs().Keys
    ensures Fill(c, w0, w', done, cfg, true)
  {
    AddedLasts(c, w, w', w0.book.ledger, done, cfg);
    if !w'.book.late { CoveredLasts(c, w, w', Names(c), cfg); }
  }

  /** The chunks, lost records and tuning a run starts from: those of the table it finds. */
  ghost function LedgerBefore(c: Setting, w: World): seq<Chunk> { if HasV2(c, w) then w.book.ledger else [] }

  ghost function TornBefore(c: Setting, w: World): multiset<string> {
    if HasV2(c, w) then w.book.torn else multiset{}
  }

  ghost function TuningBefore(c: Setting, w: World): Option<Config> {
    if HasV2(c, w) then w.book.tuning else None
  }

  /** The tuning of the table after a backfill with cfg: the first one stays. */
  ghost function TuningAfter(c: Setting, w: World, cfg: Config): Option<Config> {
    if HasV2(c, w) then AfterTuning(w, cfg).book.tuning else Some(cfg)
  }

  /** What a whole run from w0 to w does to the table that is there at its end. */
  ghost predicate RanOn(c: Setting, w0: World, w: World, cfg: Config, filled: bool) {
    && BuiltSince(c, w0, w)
    && Added(c, w, LedgerBefore(c, w0), Completed(w0.log), cfg)
    && TornBy(TornBefore(c, w0), w.book.torn, filled)
    && w.book.base == (if HasV2(c, w0) then w0.book.base else Completed(w0.log))
    && (w.book.retuned ==> HasV2(c, w0) && AfterTuning(w0, cfg).book.retuned)
    && (w.book.tuning == TuningBefore(c, w0) || w.book.tuning == TuningAfter(c, w0, cfg))
    && (filled ==> w.book.tuning == TuningAfter(c, w0, cfg) && w.book.build == Joined(c, w0))
    && (filled && Tracked(c, w) && w.book.keyed ==>
          Resumed(c, w, LedgerBefore(c, w0), Completed(w0.log), cfg))
    && (!HasV2(c, w0) && w.book.arrived == w0.book.arrived ==>
          && (Tracked(c, w) ==> AheadIsMissed(w))
          && !w.book.late && w.book.pace.lag == 0 && w.book.pace.ahead == w0.book.pace.ahead)
  }

  /** What a whole run from w0 to w does. */
  ghost predicate Ran(c: Setting, w0: World, w: World, cfg: Config, filled: bool) {
    && (HasV2(c, w0) && Bounded(w0) ==> Onward(c, w0, w))
    && (HasV2(c, w) ==> RanOn(c, w0, w, cfg, filled))
    && (HasV2(c, w0) || filled ==> HasV2(c, w))
    && (!HasV2(c, w) ==> Completed(w.log) == Completed(w0.log) && w.book.build == w0.book.build)
    && SameServer(c, w0, w) && (w.book.arrived == w0.book.arrived ==> w.db.sources == w0.db.sources)
  }

  /** Every event from T on is missed: no copy saw any of them. */
  ghost predicate AheadIsMissed(w: World) {
    forall m, e: Event ::
      Bounded(w) && m in w.Defs() && e.time >= T(w) ==> w.book.missed[Row(m, e)] == Seen(w, m, e)
  }

  lemma DidNotFill(c: Setting, w0: World, w: World, cfg: Config)
    requires Began(c, w0, w) && Inv(c, w)
    ensures Ran(c, w0, w, cfg, false)
  {
    assert w.book.ledger[|w.book.ledger|..] == [];
    if HasV2(c, w) && !HasV2(c, w0) && w.book.arrived == w0.book.arrived { NewTableMissesAhead(c, w0, w, w); }
  }

  /** A new table of which no insert has taken notice misses whatever lies ahead, and no more. */
  lemma NewTableMissesAhead(c: Setting, w0: World, w: World, w': World)
    requires Began(c, w0, w) && HasV2(c, w) && Inv(c, w) && (w' == w || (Bounded(w) && Forward(c, w, w')))
    requires !HasV2(c, w0) && w'.book.arrived == w0.book.arrived
    ensures Tracked(c, w') ==> AheadIsMissed(w')
    ensures !w'.book.late
    ensures w'.book.pace.lag == 0 && w'.book.pace.ahead == w0.book.pace.ahead
  {
    InvParts(c, w);
    forall m, e: Event | Tracked(c, w') && Bounded(w') && m in w'.Defs() && e.time >= T(w')
      ensures w'.book.missed[Row(m, e)] == Seen(w', m, e)
    {
      assert CaptureAt(c, w, m, e);
    }
  }

  lemma FillResumes(c: Setting, w: World, w': World, cfg: Config)
    requires Tracked(c, w) && Bounded(w) && Inv(c, w') && Forward(c, w, w') && Mine(c, w') && w'.book.drained
    requires w'.book.keyed
    requires Fill(c, w, w', Completed(w.log), cfg, true)
    ensures Resumed(c, w', w.book.ledger, Completed(w.log), cfg)
  {
  }

  lemma BuiltOn(c: Setting, w0: World, w: World, w': World)
    requires BuiltSince(c, w0, w) && Forward(c, w, w')
    ensures BuiltSince(c, w0, w')
  {
  }

  lemma RunDone(c: Setting, w0: World, w: World, w': World, cfg: Config, filled: bool)
    requires Began(c, w0, w) && HasV2(c, w) && Bounded(w) && Inv(c, w) && Inv(c, w')
    requires Forward(c, w, w') && Fill(c, w, w', Completed(w.log), cfg, filled)
    requires w.book.build == Joined(c, w0) && Mine(c, w') && (filled ==> w'.book.drained)
    ensures Ran(c, w0, w', cfg, filled)
  {
    ServerTransitive(c, w0, w, w');
    if HasV2(c, w0) && Bounded(w0) { OnwardTransitive(c, w0, w, w'); }
    FilledSince(c, w0, w, w', cfg, filled);
  }

  lemma FilledSince(c: Setting, w0: World, w: World, w': World, cfg: Config, filled: bool)
    requires Began(c, w0, w) && HasV2(c, w) && Bounded(w) && Inv(c, w) && Inv(c, w')
    requires Forward(c, w, w') && Fill(c, w, w', Completed(w.log), cfg, filled)
    requires w.book.build == Joined(c, w0) && Mine(c, w') && (filled ==> w'.book.drained)
    ensures RanOn(c, w0, w', cfg, filled)
  {
    BuiltOn(c, w0, w, w');
    TunedSince(c, w0, w, w', cfg, filled);
    if filled && Tracked(c, w) && w.book.keyed { FillResumes(c, w, w', cfg); }
    if !HasV2(c, w0) && w'.book.arrived == w0.book.arrived { NewTableMissesAhead(c, w0, w, w'); }
  }

  lemma TunedSince(c: Setting, w0: World, w: World, w': World, cfg: Config, filled: bool)
    requires Began(c, w0, w) && HasV2(c, w) && Forward(c, w, w') && Fill(c, w, w', Completed(w.log), cfg, filled)
    ensures w'.book.retuned ==> HasV2(c, w0) && AfterTuning(w0, cfg).book.retuned
    ensures w'.book.tuning == TuningBefore(c, w0) || w'.book.tuning == TuningAfter(c, w0, cfg)
    ensures filled ==> w'.book.tuning == TuningAfter(c, w0, cfg)
  {
  }

  // ---------- time ----------

  /** Sources that never lag more than the time lag-drain left after T bring no late row. */
  lemma PunctualIsNotLate(c: Setting, w: World)
    requires Inv(c, w) && w.book.pace.lag <= w.book.pace.grace
    ensures !w.book.late
  {
    InvParts(c, w);
  }

  // ---------- resuming a finished backfill ----------

  /** If every planned chunk was recorded, a later run that skips recorded chunks and keeps
      the tuning, and lists no further view, inserts nothing. */
  lemma RecordedPlanIsNotRepeated(c: Setting, w: World, w': World, before: seq<Chunk>, done: set<string>)
    requires Finished(c, w) && Onward(c, w, w') && !w'.book.late && Names(c) <= w.Defs().Keys
    requires before == w.book.ledger && done == Completed(w.log)
    requires Added(c, w', before, done, w.book.tuning.value)
    ensures w'.book.ledger == w.book.ledger
  {
    var ks := w'.book.ledger[|before|..];
    assert w'.book.ledger == before + ks;
    if ks != [] {
      var k := ks[0];
      assert k in ks && AddedAt(c, w', k, done, w.book.tuning.value);
      DayRowsLast(c, w, w', k.mv, k.val);
      PlannedIsRecorded(c, w, k);
    }
  }

  /** Nothing is left to do for c with this tuning. */
  ghost predicate Repeatable(c: Setting, w: World, cfg: Config) {
    Finished(c, w) && w.book.tuning == Some(cfg) && Names(c) <= w.Defs().Keys
  }

  lemma RunRepeatsNothing(c: Setting, w0: World, w: World, cfg: Config, filled: bool)
    requires Ran(c, w0, w, cfg, filled)
    ensures Repeatable(c, w0, cfg) && filled && !w.book.late ==> w.book.ledger == w0.book.ledger
  {
    if Repeatable(c, w0, cfg) && filled && !w.book.late {
      RecordedPlanIsNotRepeated(c, w0, w, w0.book.ledger, Completed(w0.log));
    }
  }

  /** A run only moves onward, so the table's earlier history stays what it was. */
  lemma OnwardKeepsHistory(c: Setting, w: World, w': World)
    requires Inv(c, w) && HasV2(c, w) && Onward(c, w, w') && Bounded(w) && !w'.book.late
    ensures SameHistory(c, w, w')
  {
    InvParts(c, w);
    if w.book.ledger != [] {
      forall m, val ensures SameDayAt(c, w, w', m, val) {
        if m in w.Defs() { DayRowsLast(c, w, w', m, val); }
      }
    }
  }

  // ---------- resuming with another tuning ----------

  /** A first run that tore no chunk leaves a clean table, wherever it ended. */
  lemma FirstRunIsClean(c: Setting, w0: World, w: World, cfg: Config, filled: bool)
    requires Ran(c, w0, w, cfg, filled) && !HasV2(c, w0) && Completed(w0.log) == {}
    requires Inv(c, w) && w.book.keyed && Tracked(c, w) && Bounded(w) && !w.book.late && w.book.torn == multiset{}
    ensures CleanSoFar(c, w, cfg)
  {
    assert w.book.ledger[0..] == w.book.ledger;
    forall k | k in w.book.ledger ensures Planned(c, w, k, cfg) {
      assert AddedAt(c, w, k, Completed(w0.log), cfg);
    }
  }

  /** A run with another tuning, or another list of views, on a clean table. */
  lemma RetunedRunIsExactIff(c: Setting, w: World, w': World, cfg: Config, cfg': Config)
    requires CleanSoFar(c, w, cfg) && KeyedAfter(c, w) && cfg.maxBuckets >= 1 && cfg'.maxBuckets >= 1
    requires Ran(c, w, w', cfg', true) && !w'.book.late
    ensures Exact(c, w') <==>
      w'.book.missed == multiset{} &&
      forall m, e: Event :: Historic(c, w', m, e) ==>
        (OwnChunk(c, w', m, e, cfg).Cursor() in Completed(w.log) <==>
         (c.Listed(m) ==> OwnChunk(c, w', m, e, cfg').Cursor() in Completed(w.log)))
  {
    OnwardKeepsHistory(c, w, w');
    RetunedIsExactIff(c, w, w', cfg, cfg');
  }
}
