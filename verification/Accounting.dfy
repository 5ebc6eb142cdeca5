/** What the v2 table holds after backfills: exact counts, when they are right, and which
    faults validation catches. */
module Accounting {
  import opened Text
  import opened Warehouse
  import opened Journal
  import opened Limits
  import opened Chunks
  import opened Protocol
  import opened Aggregates

  // ---------- when v2 is right ----------

  /** What v2 should hold: every source event once per view that the table is built from. */
  ghost function Due(c: Setting, w: World): multiset<Row> {
    Truth(c, w.Defs(), w.db, w.Defs().Keys, All)
  }

  /** The v2 table counts every source event exactly once per view, and nothing else. */
  ghost predicate Exact(c: Setting, w: World) {
    HasV2(c, w) && w.db.tables[c.V2()] == Due(c, w)
  }

  /** An event before T that view m should count. */
  ghost predicate Historic(c: Setting, w: World, m: string, e: Event) {
    Bounded(w) && e.time < T(w) && Seen(w, m, e) > 0
  }

  /** How many INSERTs into the present table copied the event. */
  ghost function CopyCount(c: Setting, w: World, m: string, e: Event): nat
    requires Bounded(w)
  {
    Copied(c.hash, w.book.ledger, m, T(w), e)
  }

  lemma HeldRow(c: Setting, w: World, r: Row)
    requires Inv(c, w) && Tracked(c, w)
    ensures r.mv !in w.Defs() ==> w.db.tables[c.V2()][r] == 0
    ensures w.db.tables[c.V2()][r] == Held(c, w, r.mv, r.event)
    ensures Due(c, w)[r] == if r.mv in w.Defs() then Seen(w, r.mv, r.event) else 0
  {
    InvParts(c, w);
    assert RowAt(c, w, r);
  }

  /** Without late rows v2 holds each event before T once per INSERT that copied it. */
  lemma BackfillCount(c: Setting, w: World, m: string, e: Event)
    requires Inv(c, w) && Tracked(c, w) && Bounded(w) && !w.book.late && m in w.Defs() && e.time < T(w)
    ensures Held(c, w, m, e) == Seen(w, m, e) * CopyCount(c, w, m, e)
  {
    InvParts(c, w);
    assert BackfillAt(c, w, m, e);
    forall i | 0 <= i < |w.book.ledger| && w.book.ledger[i].mv == m
      ensures multiset(w.book.found[i])[e] == Seen(w, m, e)
    {
      assert FoundAt(c, w, i);
    }
    TakenAlike(c.hash, w.book.ledger, w.book.found, m, T(w), e, Seen(w, m, e));
  }

  /** With late rows it holds at most that. */
  lemma BackfillAtMost(c: Setting, w: World, m: string, e: Event)
    requires Inv(c, w) && Tracked(c, w) && Bounded(w) && m in w.Defs() && e.time < T(w)
    ensures Held(c, w, m, e) <= Seen(w, m, e) * CopyCount(c, w, m, e)
  {
    InvParts(c, w);
    assert BackfillAt(c, w, m, e);
    forall i | 0 <= i < |w.book.ledger| && w.book.ledger[i].mv == m
      ensures multiset(w.book.found[i])[e] <= Seen(w, m, e)
    {
      assert FoundAt(c, w, i);
      var now := w.db.sources[w.Defs()[m].source];
      assert now == w.book.found[i] + now[|w.book.found[i]|..];
    }
    TakenAtMost(c.hash, w.book.ledger, w.book.found, m, T(w), e, Seen(w, m, e));
  }

  lemma TimesIsOne(a: nat, b: nat)
    requires a > 0 && a * b == a
    ensures b == 1
  {
    if b == 0 {
      TimesBit(a, 0);
    } else if b > 1 {
      TimesPlusOne(a, b - 1);
      assert b - 1 >= 1;
      TimesGrows(a, b - 1);
    }
  }

  lemma TimesGrows(a: nat, b: nat)
    requires b >= 1
    ensures a * b >= a
  {
  }

  lemma TimesAtMostOne(a: nat, b: nat)
    requires b <= 1
    ensures a * b <= a
  {
    TimesBit(a, b);
  }

  ghost predicate CopiedOnce(c: Setting, w: World)
    requires Bounded(w)
  {
    forall m, e: Event :: Historic(c, w, m, e) ==> CopyCount(c, w, m, e) == 1
  }

  lemma UnseenIsNotHeld(c: Setting, w: World, m: string, e: Event)
    requires Inv(c, w) && Tracked(c, w) && Bounded(w) && m in w.Defs() && Seen(w, m, e) == 0
    ensures Held(c, w, m, e) == 0
  {
    InvParts(c, w);
    if e.time < T(w) {
      BackfillAtMost(c, w, m, e);
      ZeroTimes(CopyCount(c, w, m, e));
    } else {
      assert CaptureAt(c, w, m, e);
    }
  }

  lemma ZeroTimes(b: nat)
    ensures 0 * b == 0
  {
  }

  lemma CopiedOnceGivesCount(c: Setting, w: World, m: string, e: Event)
    requires Inv(c, w) && Tracked(c, w) && Bounded(w) && !w.book.late && m in w.Defs()
    requires w.book.missed == multiset{} && CopiedOnce(c, w)
    ensures Held(c, w, m, e) == Seen(w, m, e)
  {
    InvParts(c, w);
    if Seen(w, m, e) == 0 {
      UnseenIsNotHeld(c, w, m, e);
    } else if e.time < T(w) {
      assert Historic(c, w, m, e);
      BackfillCount(c, w, m, e);
      TimesBit(Seen(w, m, e), 1);
    } else {
      assert CaptureAt(c, w, m, e);
    }
  }

  lemma ExactMissesNothing(c: Setting, w: World)
    requires Inv(c, w) && Tracked(c, w) && Bounded(w) && Exact(c, w)
    ensures w.book.missed == multiset{}
  {
    InvParts(c, w);
    forall r: Row
      ensures w.book.missed[r] == 0
    {
      HeldRow(c, w, r);
      assert RowAt(c, w, r) && CaptureAt(c, w, r.mv, r.event);
    }
  }

  /** The count behind the theorems below: v2 is right if and only if nothing from T on was
      missed and every historical event was copied by exactly one INSERT. */
  lemma ExactIffCopiedOnce(c: Setting, w: World)
    requires Inv(c, w) && Tracked(c, w) && Bounded(w) && !w.book.late
    ensures Exact(c, w) <==> w.book.missed == multiset{} && CopiedOnce(c, w)
  {
    InvParts(c, w);
    if w.book.missed == multiset{} && CopiedOnce(c, w) {
      forall r: Row
        ensures w.db.tables[c.V2()][r] == Due(c, w)[r]
      {
        HeldRow(c, w, r);
        if r.mv in w.Defs() { CopiedOnceGivesCount(c, w, r.mv, r.event); }
      }
    }
    if Exact(c, w) {
      ExactMissesNothing(c, w);
      forall m, e: Event | Historic(c, w, m, e)
        ensures CopyCount(c, w, m, e) == 1
      {
        HeldRow(c, w, Row(m, e));
        BackfillCount(c, w, m, e);
        TimesIsOne(Seen(w, m, e), CopyCount(c, w, m, e));
      }
    }
  }

  /** Two applied INSERTs that both copy an event spoil v2 for good. */
  lemma OverlappingChunksSpoil(c: Setting, w: World, m: string, e: Event, i: nat, j: nat)
    requires Inv(c, w) && Tracked(c, w) && !w.book.late && Historic(c, w, m, e)
    requires i < j < |w.book.ledger|
    requires Copies(c.hash, w.book.ledger[i], m, T(w), e)
    requires Copies(c.hash, w.book.ledger[j], m, T(w), e)
    ensures !Exact(c, w)
  {
    InvParts(c, w);
    CopiedTwice(c.hash, w.book.ledger, m, T(w), e, i, j);
    ExactIffCopiedOnce(c, w);
  }

  // ---------- the plan of a run ----------

  ghost predicate BucketsDone(log: seq<Record>, val: string, m: string, n: int) {
    forall b: nat :: b < n ==> BackfillCursor(val, m, n, b) in Completed(log)
  }

  /** Every sub-chunk of this chunk value of view m is recorded as done. */
  ghost predicate UnitDone(c: Setting, w: World, m: string, val: string, cfg: Config)
    requires Bounded(w)
  {
    |DayRows(c, w, m, T(w), val)| > 0 ==>
      BucketsDone(w.log, val, m, PlanN(c, w, m, T(w), val, cfg))
  }

  ghost predicate Covered(c: Setting, w: World, names: set<string>, cfg: Config)
    requires Bounded(w)
  {
    forall m, val :: m in names ==> UnitDone(c, w, m, val, cfg)
  }

  /** One of the chunks that a run with tuning cfg may insert when it found done recorded. */
  ghost predicate AddedAt(c: Setting, w: World, k: Chunk, done: set<string>, cfg: Config) {
    && c.Listed(k.mv) && k.mv in w.Defs() && k.Cursor() !in done && k.b < k.n <= cfg.maxBuckets
    && (!w.book.late ==> Planned(c, w, k, cfg))
  }

  /** Each chunk value of a view is split in one way. */
  predicate OneSplit(ks: seq<Chunk>) {
    forall i, j :: 0 <= i < j < |ks| && ks[i].mv == ks[j].mv && ks[i].val == ks[j].val ==>
      ks[i].n == ks[j].n && ks[i].expr == ks[j].expr
  }

  /** What a run has inserted after the chunks in before: chunks of its plan that were not
      done, each once; and only those were recorded. */
  ghost predicate Added(c: Setting, w: World, before: seq<Chunk>, done: set<string>, cfg: Config) {
    && before <= w.book.ledger && done <= Completed(w.log)
    && var ks := w.book.ledger[|before|..];
    && (forall k :: k in ks ==> AddedAt(c, w, k, done, cfg))
    && (c.Keyed() ==> DistinctCursors(ks) && OneSplit(ks))
    && (forall x :: x in Completed(w.log) ==> x in done || HasCursor(ks, x))
  }

  ghost predicate AllRecorded(w: World, before: seq<Chunk>)
    requires before <= w.book.ledger
  {
    forall k :: k in w.book.ledger[|before|..] ==> k.Cursor() in Completed(w.log)
  }

  /** The state after a backfill with tuning cfg that ran to its end, started on a table with
      the chunks in before and a log with the cursors in done. */
  ghost predicate Resumed(c: Setting, w: World, before: seq<Chunk>, done: set<string>, cfg: Config) {
    && Inv(c, w) && Mine(c, w) && w.book.keyed && Tracked(c, w) && Bounded(w) && w.book.drained
    && Added(c, w, before, done, cfg) && AllRecorded(w, before)
    && (!w.book.late ==> Covered(c, w, Names(c), cfg))
  }

  lemma SameCursorSameChunk(names: set<string>, k1: Chunk, k2: Chunk)
    requires Distinguished(names) && k1.mv in names && k2.mv in names && k1.Cursor() == k2.Cursor()
    ensures k1.val == k2.val && k1.mv == k2.mv && k1.n == k2.n && k1.b == k2.b
  {
    CursorInjective(k1.val, k1.mv, k1.n, k1.b, k2.val, k2.mv, k2.n, k2.b);
  }

  /** A completed run inserted exactly the chunks planned under its tuning whose cursor was not
      in the log, each once. */
  lemma SuffixIsThePlan(c: Setting, w: World, before: seq<Chunk>, done: set<string>, cfg: Config, k: Chunk)
    requires Resumed(c, w, before, done, cfg) && !w.book.late
    ensures k in w.book.ledger[|before|..] <==> c.Listed(k.mv) && Planned(c, w, k, cfg) && k.Cursor() !in done
    ensures DistinctCursors(w.book.ledger[|before|..])
  {
    InvParts(c, w);
    var ks := w.book.ledger[|before|..];
    if c.Listed(k.mv) && Planned(c, w, k, cfg) && k.Cursor() !in done {
      assert UnitDone(c, w, k.mv, k.val, cfg);
      assert k.Cursor() in Completed(w.log);
      var i :| 0 <= i < |ks| && ks[i].Cursor() == k.Cursor();
      assert ks[i] in ks && AddedAt(c, w, ks[i], done, cfg);
      SameCursorSameChunk(w.Defs().Keys, ks[i], k);
      assert ks[i] == k;
    }
    if k in ks {
      assert AddedAt(c, w, k, done, cfg);
    }
  }

  // ---------- each event has one chunk ----------

  lemma SeenDay(c: Setting, w: World, m: string, e: Event)
    requires Historic(c, w, m, e) && Grounded(w.Defs(), w.db, m)
    ensures |DayRows(c, w, m, T(w), e.chunk)| > 0
  {
    assert Row(m, e) in DayRows(c, w, m, T(w), e.chunk);
  }

  /** The chunk that copies the event under this tuning. */
  ghost function OwnChunk(c: Setting, w: World, m: string, e: Event, cfg: Config): Chunk
    requires Bounded(w) && cfg.maxBuckets >= 1
  {
    var n := PlanN(c, w, m, T(w), e.chunk, cfg);
    var expr := if m in w.Defs() then BucketExpr(w.Defs()[m], cfg.bucketKey) else "";
    Chunk(m, expr, e.chunk, n, c.hash(expr, e) % n)
  }

  /** Of the chunks planned under one tuning, exactly the event's own copies it. */
  lemma OnlyOwnChunkCopies(c: Setting, w: World, m: string, e: Event, k: Chunk, cfg: Config)
    requires Distinguished(w.Defs().Keys) && Grounded(w.Defs(), w.db, m) && cfg.maxBuckets >= 1
    requires Bounded(w) && e.time < T(w) && Planned(c, w, k, cfg)
    ensures Copies(c.hash, k, m, T(w), e) <==> k.Cursor() == OwnChunk(c, w, m, e, cfg).Cursor()
  {
    if Copies(c.hash, k, m, T(w), e) {
      CopyIsOwn(c, w, m, e, k, cfg);
    } else if k.Cursor() == OwnChunk(c, w, m, e, cfg).Cursor() {
      CursorIsOwn(c, w, m, e, k, cfg);
    }
  }

  lemma CopyIsOwn(c: Setting, w: World, m: string, e: Event, k: Chunk, cfg: Config)
    requires Bounded(w) && m in w.Defs() && cfg.maxBuckets >= 1
    requires Planned(c, w, k, cfg) && Copies(c.hash, k, m, T(w), e)
    ensures k == OwnChunk(c, w, m, e, cfg)
  {
    assert k.mv == m && k.val == e.chunk && k.n == PlanN(c, w, m, T(w), e.chunk, cfg);
  }

  lemma CursorIsOwn(c: Setting, w: World, m: string, e: Event, k: Chunk, cfg: Config)
    requires Distinguished(w.Defs().Keys) && Grounded(w.Defs(), w.db, m) && cfg.maxBuckets >= 1
    requires Bounded(w) && e.time < T(w) && Planned(c, w, k, cfg)
    requires k.Cursor() == OwnChunk(c, w, m, e, cfg).Cursor()
    ensures Copies(c.hash, k, m, T(w), e)
  {
    SameCursorSameChunk(w.Defs().Keys, k, OwnChunk(c, w, m, e, cfg));
  }

  lemma OwnIsPlanned(c: Setting, w: World, m: string, e: Event, cfg: Config)
    requires Historic(c, w, m, e) && Grounded(w.Defs(), w.db, m) && cfg.maxBuckets >= 1
    ensures Planned(c, w, OwnChunk(c, w, m, e, cfg), cfg)
  {
    SeenDay(c, w, m, e);
  }

  /** Is there a chunk for the event among those the run plans for the views it lists, not
      skipped as done? */
  ghost predicate HasTurn(c: Setting, w: World, m: string, e: Event, cfg: Config, done: set<string>)
    requires Bounded(w)
  {
    c.Listed(m) && cfg.maxBuckets >= 1 && OwnChunk(c, w, m, e, cfg).Cursor() !in done
  }

  /** A run with an unusable bucket limit inserts nothing. */
  lemma ChunksNeedBuckets(c: Setting, w: World, before: seq<Chunk>, done: set<string>, cfg: Config)
    requires Added(c, w, before, done, cfg)
    ensures w.book.ledger != before ==> cfg.maxBuckets >= 1
  {
    var ks := w.book.ledger[|before|..];
    assert w.book.ledger == before + ks;
    if ks != [] { assert ks[0] in ks && AddedAt(c, w, ks[0], done, cfg); }
  }

  /** How often a completed run copied the event: once, unless its own cursor under the run's
      tuning was taken for done. */
  lemma SuffixCopies(c: Setting, w: World, before: seq<Chunk>, done: set<string>, cfg: Config, m: string, e: Event)
    requires Resumed(c, w, before, done, cfg) && !w.book.late && Historic(c, w, m, e)
    ensures Copied(c.hash, w.book.ledger[|before|..], m, T(w), e) == if HasTurn(c, w, m, e, cfg, done) then 1 else 0
  {
    InvParts(c, w);
    var ks := w.book.ledger[|before|..];
    ChunksNeedBuckets(c, w, before, done, cfg);
    if cfg.maxBuckets >= 1 {
      var own := OwnChunk(c, w, m, e, cfg);
      forall i | 0 <= i < |ks|
        ensures Copies(c.hash, ks[i], m, T(w), e) <==> ks[i].Cursor() == own.Cursor()
      {
        assert ks[i] in ks && AddedAt(c, w, ks[i], done, cfg);
        OnlyOwnChunkCopies(c, w, m, e, ks[i], cfg);
      }
      CopiedIsRuns(c.hash, ks, m, T(w), e, own.Cursor());
      RunsOfDistinct(ks, own.Cursor());
      OwnIsPlanned(c, w, m, e, cfg);
      SuffixIsThePlan(c, w, before, done, cfg, own);
      if HasCursor(ks, own.Cursor()) {
        var i :| 0 <= i < |ks| && ks[i].Cursor() == own.Cursor();
        assert ks[i] in ks && AddedAt(c, w, ks[i], done, cfg);
      }
    }
  }

  // ---------- exactly once, over any number of runs ----------

  /** What the event's count amounts to: copies made before the run, plus one if the run's plan
      has a chunk for it that the log did not show as done. */
  ghost predicate OnceInAll(c: Setting, w: World, before: seq<Chunk>, done: set<string>, cfg: Config)
    requires Bounded(w)
  {
    forall m, e: Event :: Historic(c, w, m, e) ==>
      Copied(c.hash, before, m, T(w), e) + (if HasTurn(c, w, m, e, cfg, done) then 1 else 0) == 1
  }

  /** Exactly once, whatever the earlier runs did and whichever tuning they used: after a
      completed run v2 is right if and only if nothing from T on was missed and each earlier
      event was either copied once before and is now taken for done, or neither.  All of the
      second half but the final counts is known before the run. */
  lemma ResumeIsExactIff(c: Setting, w: World, before: seq<Chunk>, done: set<string>, cfg: Config)
    requires Resumed(c, w, before, done, cfg) && !w.book.late
    ensures Exact(c, w) <==> w.book.missed == multiset{} && OnceInAll(c, w, before, done, cfg)
  {
    InvParts(c, w);
    ExactIffCopiedOnce(c, w);
    assert w.book.ledger == before + w.book.ledger[|before|..];
    forall m, e: Event | Historic(c, w, m, e)
      ensures CopyCount(c, w, m, e) ==
              Copied(c.hash, before, m, T(w), e) + (if HasTurn(c, w, m, e, cfg, done) then 1 else 0)
    {
      CopiedConcat(c.hash, before, w.book.ledger[|before|..], m, T(w), e);
      SuffixCopies(c, w, before, done, cfg, m, e);
    }
  }

  /** The documented case: a table and a log without chunks, and a usable bucket limit. */
  lemma FirstRunIsExactIff(c: Setting, w: World, cfg: Config)
    requires Resumed(c, w, [], {}, cfg) && !w.book.late && cfg.maxBuckets >= 1 && ListsAll(c, w)
    ensures Exact(c, w) <==> w.book.missed == multiset{}
  {
    InvParts(c, w);
    ResumeIsExactIff(c, w, [], {}, cfg);
  }

  /** A table built by one completed run is never over-counted, however late rows come. */
  lemma OneRunCopiesAtMostOnce(c: Setting, w: World, done: set<string>, cfg: Config)
    requires Resumed(c, w, [], done, cfg)
    ensures CopiedAtMostOnce(c, w)
  {
    InvParts(c, w);
    var ks := w.book.ledger;
    assert ks[0..] == ks;
    forall m, e: Event | Historic(c, w, m, e)
      ensures CopyCount(c, w, m, e) <= 1
    {
      SplitCopiesOnce(c, ks, m, T(w), e);
    }
  }

  lemma {:induction false} SplitCopiesOnce(c: Setting, ks: seq<Chunk>, m: string, t: nat, e: Event)
    requires DistinctCursors(ks) && OneSplit(ks)
    ensures Copied(c.hash, ks, m, t, e) <= 1
  {
    if ks != [] {
      var n := |ks| - 1;
      SplitCopiesOnce(c, ks[..n], m, t, e);
      if Copies(c.hash, ks[n], m, t, e) {
        forall i | 0 <= i < n
          ensures !Copies(c.hash, ks[..n][i], m, t, e)
        {
          assert ks[i].Cursor() != ks[n].Cursor();
        }
        CopiedByNone(c.hash, ks[..n], m, t, e);
      }
    }
  }

  // ---------- resuming with another tuning, or another list of views ----------

  /** A table filled so far, completely or not, by chunks of one plan, without a fault. */
  ghost predicate CleanSoFar(c: Setting, w: World, cfg: Config) {
    && Inv(c, w) && w.book.keyed && Tracked(c, w) && Bounded(w)
    && w.book.torn == multiset{} && w.book.base == {}
    && forall k :: k in w.book.ledger ==> Planned(c, w, k, cfg)
  }

  /** The rest of the events before T and the definitions are what they were; there may be more
      of the latter. */
  ghost predicate SameHistory(c: Setting, w: World, w': World) {
    && Extends(w.Defs(), w'.Defs()) && Bounded(w) && Bounded(w') && T(w') == T(w)
    && (w.book.ledger != [] ==> forall m, val :: SameDayAt(c, w, w', m, val))
  }

  ghost predicate SameDayAt(c: Setting, w: World, w': World, m: string, val: string) {
    m in w.Defs() && Bounded(w) ==>
      && (Grounded(w.Defs(), w.db, m) ==> Grounded(w'.Defs(), w'.db, m))
      && DayRows(c, w', m, T(w), val) == DayRows(c, w, m, T(w), val)
  }

  lemma PlannedInBoth(c: Setting, w: World, w': World, k: Chunk, cfg: Config)
    requires SameHistory(c, w, w') && w.book.ledger != [] && Planned(c, w, k, cfg)
    ensures Planned(c, w', k, cfg)
  {
    assert SameDayAt(c, w, w', k.mv, k.val);
  }

  /** On a clean table an event was copied once if its own cursor is in the log, else never. */
  lemma CleanCopies(c: Setting, w: World, w': World, cfg: Config, m: string, e: Event)
    requires CleanSoFar(c, w, cfg) && SameHistory(c, w, w') && cfg.maxBuckets >= 1
    requires Distinguished(w'.Defs().Keys) && Grounded(w'.Defs(), w'.db, m) && e.time < T(w')
    ensures Copied(c.hash, w.book.ledger, m, T(w'), e)
         == if OwnChunk(c, w', m, e, cfg).Cursor() in Completed(w.log) then 1 else 0
  {
    InvParts(c, w);
    var ks, own := w.book.ledger, OwnChunk(c, w', m, e, cfg);
    forall i | 0 <= i < |ks|
      ensures Copies(c.hash, ks[i], m, T(w'), e) <==> ks[i].Cursor() == own.Cursor()
    {
      assert ks[i] in ks && Planned(c, w, ks[i], cfg);
      PlannedInBoth(c, w, w', ks[i], cfg);
      OnlyOwnChunkCopies(c, w', m, e, ks[i], cfg);
    }
    CopiedIsRuns(c.hash, ks, m, T(w'), e, own.Cursor());
    assert CursorAt(c, w, own.Cursor());
  }

  /** Resuming a clean table under another tuning or another list: v2 comes out right if and only
      if nothing was missed and each historical event's own cursor under the old tuning is in the
      log at the resume exactly if the one under the new tuning is or its view is no longer
      listed. */
  lemma RetunedIsExactIff(c: Setting, w: World, w': World, cfg: Config, cfg': Config)
    requires CleanSoFar(c, w, cfg) && SameHistory(c, w, w') && cfg.maxBuckets >= 1 && cfg'.maxBuckets >= 1
    requires Resumed(c, w', w.book.ledger, Completed(w.log), cfg') && !w'.book.late
    ensures Exact(c, w') <==>
      w'.book.missed == multiset{} &&
      forall m, e: Event :: Historic(c, w', m, e) ==>
        (OwnChunk(c, w', m, e, cfg).Cursor() in Completed(w.log) <==>
         (c.Listed(m) ==> OwnChunk(c, w', m, e, cfg').Cursor() in Completed(w.log)))
  {
    InvParts(c, w');
    ResumeIsExactIff(c, w', w.book.ledger, Completed(w.log), cfg');
    forall m, e: Event | Historic(c, w', m, e)
      ensures Copied(c.hash, w.book.ledger, m, T(w'), e)
           == if OwnChunk(c, w', m, e, cfg).Cursor() in Completed(w.log) then 1 else 0
    {
      CleanCopies(c, w, w', cfg, m, e);
    }
  }

  lemma RetunedCopies(c: Setting, w: World, w': World, cfg: Config, cfg': Config, m: string, e: Event)
    requires CleanSoFar(c, w, cfg) && SameHistory(c, w, w') && cfg.maxBuckets >= 1 && cfg'.maxBuckets >= 1
    requires Resumed(c, w', w.book.ledger, Completed(w.log), cfg') && !w'.book.late && Historic(c, w', m, e)
    ensures CopyCount(c, w', m, e) ==
      (if OwnChunk(c, w', m, e, cfg).Cursor() in Completed(w.log) then 1 else 0) +
      (if c.Listed(m) ==> OwnChunk(c, w', m, e, cfg').Cursor() in Completed(w.log) then 0 else 1)
  {
    InvParts(c, w');
    var before := w.book.ledger;
    assert w'.book.ledger == before + w'.book.ledger[|before|..];
    CopiedConcat(c.hash, before, w'.book.ledger[|before|..], m, T(w'), e);
    SuffixCopies(c, w', before, Completed(w.log), cfg', m, e);
    CleanCopies(c, w, w', cfg, m, e);
  }

  /** How often a resumed run leaves a historical event counted: once if both tunings or neither
      take its chunk for done, twice if only the old one does, never if only the new one does.
      The chunks of a view that is no longer listed pass for done. */
  lemma RetunedCount(c: Setting, w: World, w': World, cfg: Config, cfg': Config, m: string, e: Event)
    requires CleanSoFar(c, w, cfg) && SameHistory(c, w, w') && cfg.maxBuckets >= 1 && cfg'.maxBuckets >= 1
    requires Resumed(c, w', w.book.ledger, Completed(w.log), cfg') && !w'.book.late && Historic(c, w', m, e)
    ensures
      var was := OwnChunk(c, w', m, e, cfg).Cursor() in Completed(w.log);
      var will := c.Listed(m) ==> OwnChunk(c, w', m, e, cfg').Cursor() in Completed(w.log);
      Held(c, w', m, e) == if was == will then Seen(w', m, e) else if was then 2 * Seen(w', m, e) else 0
  {
    RetunedCopies(c, w, w', cfg, cfg', m, e);
    BackfillCount(c, w', m, e);
    ZeroOneTwo(Seen(w', m, e), CopyCount(c, w', m, e));
  }

  lemma ZeroOneTwo(a: nat, b: nat)
    requires b <= 2
    ensures a * b == if b == 0 then 0 else if b == 1 then a else 2 * a
  {
  }

  /** A changed bucket key: an event whose old bucket is done and whose new one is not is counted
      twice, and the other way round it is never counted. */
  lemma ChangedKeyRepeatsAndLoses(c: Setting, w: World, w': World, cfg: Config, key: string, m: string, e: Event)
    requires CleanSoFar(c, w, cfg) && SameHistory(c, w, w') && cfg.maxBuckets >= 1
    requires Resumed(c, w', w.book.ledger, Completed(w.log), cfg.(bucketKey := key)) && !w'.book.late
    requires Historic(c, w', m, e) && c.Listed(m)
    ensures m in w'.Defs()
    ensures
      var was := InDoneBucket(c, w', Completed(w.log), m, e, cfg, cfg.bucketKey);
      var will := InDoneBucket(c, w', Completed(w.log), m, e, cfg, key);
      && (was && !will ==> Held(c, w', m, e) == 2 * Seen(w', m, e) && !Exact(c, w'))
      && (!was && will ==> Held(c, w', m, e) == 0 && !Exact(c, w'))
  {
    InvParts(c, w');
    RetunedCount(c, w, w', cfg, cfg.(bucketKey := key), m, e);
    HeldRow(c, w', Row(m, e));
  }

  ghost predicate UnitUntouched(w: World, m: string, val: string) {
    forall k :: k in w.book.ledger ==> k.mv != m || k.val != val
  }

  /** Both tunings split this chunk value of view m alike. */
  ghost predicate SameSplit(c: Setting, w: World, m: string, val: string, cfg: Config, cfg': Config)
    requires Bounded(w)
  {
    && PlanN(c, w, m, T(w), val, cfg) == PlanN(c, w, m, T(w), val, cfg')
    && (m in w.Defs() ==> BucketExpr(w.Defs()[m], cfg.bucketKey) == BucketExpr(w.Defs()[m], cfg'.bucketKey))
  }

  lemma CleanCursorIsInserted(c: Setting, w: World, k: Chunk) returns (i: nat)
    requires Inv(c, w) && w.book.keyed && HasV2(c, w) && w.book.base == {} && w.book.torn == multiset{}
    requires k.Cursor() in Completed(w.log)
    ensures i < |w.book.ledger| && w.book.ledger[i].Cursor() == k.Cursor()
  {
    InvParts(c, w);
    assert CursorAt(c, w, k.Cursor());
    RunsPositive(w.book.ledger, k.Cursor());
    i :| 0 <= i < |w.book.ledger| && w.book.ledger[i].Cursor() == k.Cursor();
  }

  lemma UntouchedIsNotDone(c: Setting, w: World, names: set<string>, cfg: Config, k: Chunk)
    requires CleanSoFar(c, w, cfg) && UnitUntouched(w, k.mv, k.val)
    requires Distinguished(names) && w.Defs().Keys <= names && k.mv in names
    ensures k.Cursor() !in Completed(w.log)
  {
    if k.Cursor() in Completed(w.log) {
      var i := CleanCursorIsInserted(c, w, k);
      assert w.book.ledger[i] in w.book.ledger && Planned(c, w, w.book.ledger[i], cfg);
      SameCursorSameChunk(names, w.book.ledger[i], k);
    }
  }

  /** What an operator can look up before resuming: if of each chunk value nothing is inserted
      yet, or the new tuning splits it as before, the resume is as good as without a change. */
  lemma SafeRetuning(c: Setting, w: World, w': World, cfg: Config, cfg': Config)
    requires CleanSoFar(c, w, cfg) && SameHistory(c, w, w') && cfg.maxBuckets >= 1 && cfg'.maxBuckets >= 1
    requires Resumed(c, w', w.book.ledger, Completed(w.log), cfg') && !w'.book.late && ListsAll(c, w')
    requires forall m, val :: m in w'.Defs() ==> UnitUntouched(w, m, val) || SameSplit(c, w', m, val, cfg, cfg')
    ensures Exact(c, w') <==> w'.book.missed == multiset{}
  {
    InvParts(c, w');
    RetunedIsExactIff(c, w, w', cfg, cfg');
    forall m, e: Event | Historic(c, w', m, e)
      ensures OwnChunk(c, w', m, e, cfg).Cursor() in Completed(w.log) <==>
              OwnChunk(c, w', m, e, cfg').Cursor() in Completed(w.log)
    {
      if UnitUntouched(w, m, e.chunk) {
        UntouchedIsNotDone(c, w, w'.Defs().Keys, cfg, OwnChunk(c, w', m, e, cfg));
        UntouchedIsNotDone(c, w, w'.Defs().Keys, cfg, OwnChunk(c, w', m, e, cfg'));
      } else {
        assert SameSplit(c, w', m, e.chunk, cfg, cfg');
      }
    }
  }

  /** A changed bucket count is fatal as soon as one of the chunk value's rows is inserted: that
      row is inserted again. */
  lemma ChangedCountSpoils(c: Setting, w: World, w': World, cfg: Config, cfg': Config, m: string, e: Event)
    requires CleanSoFar(c, w, cfg) && SameHistory(c, w, w') && cfg.maxBuckets >= 1 && cfg'.maxBuckets >= 1
    requires Resumed(c, w', w.book.ledger, Completed(w.log), cfg') && !w'.book.late
    requires Historic(c, w', m, e) && c.Listed(m)
    ensures
      var inserted := OwnChunk(c, w', m, e, cfg).Cursor() in Completed(w.log);
      var changed := PlanN(c, w', m, T(w'), e.chunk, cfg) != PlanN(c, w', m, T(w'), e.chunk, cfg');
      inserted && changed ==> Held(c, w', m, e) == 2 * Seen(w', m, e) && !Exact(c, w')
  {
    InvParts(c, w');
    RetunedCount(c, w, w', cfg, cfg', m, e);
    HeldRow(c, w', Row(m, e));
    var k := OwnChunk(c, w', m, e, cfg');
    if k.Cursor() in Completed(w.log) {
      var i := CleanCursorIsInserted(c, w, k);
      var old' := w.book.ledger[i];
      assert old' in w.book.ledger && Planned(c, w, old', cfg);
      PlannedInBoth(c, w, w', old', cfg);
      SameCursorSameChunk(w'.Defs().Keys, old', k);
    }
  }

  /** A changed bucket key keeps every cursor and moves the events between the buckets: right only
      if no event moves between a bucket that is done and one that is not. */
  lemma RekeyedIsExactIff(c: Setting, w: World, w': World, cfg: Config, key: string)
    requires CleanSoFar(c, w, cfg) && SameHistory(c, w, w') && cfg.maxBuckets >= 1 && ListsAll(c, w')
    requires Resumed(c, w', w.book.ledger, Completed(w.log), cfg.(bucketKey := key)) && !w'.book.late
    ensures Exact(c, w') <==>
      w'.book.missed == multiset{} &&
      forall m, e: Event :: Historic(c, w', m, e) && m in w'.Defs() ==>
        (InDoneBucket(c, w', Completed(w.log), m, e, cfg, cfg.bucketKey) <==>
         InDoneBucket(c, w', Completed(w.log), m, e, cfg, key))
  {
    RetunedIsExactIff(c, w, w', cfg, cfg.(bucketKey := key));
    forall m, e: Event | Historic(c, w', m, e)
      ensures m in w'.Defs() && c.Listed(m)
      ensures InDoneBucket(c, w', Completed(w.log), m, e, cfg, cfg.bucketKey) <==>
              OwnChunk(c, w', m, e, cfg).Cursor() in Completed(w.log)
      ensures InDoneBucket(c, w', Completed(w.log), m, e, cfg, key) <==>
              OwnChunk(c, w', m, e, cfg.(bucketKey := key)).Cursor() in Completed(w.log)
    {
    }
  }

  /** Is the bucket that this key puts the event in recorded as done? */
  ghost predicate InDoneBucket(c: Setting, w: World, done: set<string>, m: string, e: Event, cfg: Config, key: string)
    requires Bounded(w) && m in w.Defs() && cfg.maxBuckets >= 1
  {
    var n := PlanN(c, w, m, T(w), e.chunk, cfg);
    BackfillCursor(e.chunk, m, n, c.hash(BucketExpr(w.Defs()[m], key), e) % n) in done
  }

  // ---------- a completed backfill under one tuning ----------

  /** No late row, and one tuning throughout with a usable bucket limit. */
  ghost predicate Steady(w: World) {
    && !w.book.late && !w.book.retuned
    && w.book.tuning.Some? && w.book.tuning.value.maxBuckets >= 1
  }

  /** The state a completed backfill leaves. */
  ghost predicate Finished(c: Setting, w: World) {
    && Inv(c, w) && w.book.keyed && Tracked(c, w) && Bounded(w) && w.book.drained && Steady(w)
    && Covered(c, w, w.Defs().Keys, w.book.tuning.value)
  }

  /** The chunk that copies the event, under the table's tuning. */
  ghost function TunedChunk(c: Setting, w: World, m: string, e: Event): Chunk
    requires Bounded(w) && Steady(w)
  {
    OwnChunk(c, w, m, e, w.book.tuning.value)
  }

  /** How often the event's chunk was inserted into this v2 table: once unless its record
      predates the table, and once more for each INSERT whose record was lost. */
  ghost function Times(c: Setting, w: World, m: string, e: Event): nat
    requires Bounded(w) && Steady(w)
  {
    var cursor := TunedChunk(c, w, m, e).Cursor();
    (if cursor in w.book.base then 0 else 1) + w.book.torn[cursor]
  }

  lemma FinishedCopies(c: Setting, w: World, m: string, e: Event)
    requires Finished(c, w) && Historic(c, w, m, e)
    ensures CopyCount(c, w, m, e) == Times(c, w, m, e)
  {
    InvParts(c, w);
    var own := TunedChunk(c, w, m, e);
    var ledger := w.book.ledger;
    forall i | 0 <= i < |ledger|
      ensures Copies(c.hash, ledger[i], m, T(w), e) <==> ledger[i].Cursor() == own.Cursor()
    {
      assert ledger[i] in ledger && Planned(c, w, ledger[i], w.book.tuning.value);
      OnlyOwnChunkCopies(c, w, m, e, ledger[i], w.book.tuning.value);
    }
    CopiedIsRuns(c.hash, ledger, m, T(w), e, own.Cursor());
    OwnIsPlanned(c, w, m, e, w.book.tuning.value);
    PlannedIsRecorded(c, w, own);
    assert CursorAt(c, w, own.Cursor());
  }

  /** Exact accounting before T. */
  lemma HistoryCount(c: Setting, w: World, m: string, e: Event)
    requires Finished(c, w) && Historic(c, w, m, e)
    ensures Held(c, w, m, e) == Seen(w, m, e) * Times(c, w, m, e)
  {
    InvParts(c, w);
    FinishedCopies(c, w, m, e);
    BackfillCount(c, w, m, e);
  }

  ghost predicate OnceEach(c: Setting, w: World)
    requires Bounded(w) && Steady(w)
  {
    forall m, e: Event :: Historic(c, w, m, e) ==> Times(c, w, m, e) == 1
  }

  /** After a completed backfill under one tuning v2 is right if and only if no event from T on
      was missed and every historical event's chunk was inserted into this table exactly once. */
  lemma ExactlyOnce(c: Setting, w: World)
    requires Finished(c, w)
    ensures Exact(c, w) <==> w.book.missed == multiset{} && OnceEach(c, w)
  {
    InvParts(c, w);
    ExactIffCopiedOnce(c, w);
    forall m, e: Event | Historic(c, w, m, e)
      ensures CopyCount(c, w, m, e) == Times(c, w, m, e)
    {
      FinishedCopies(c, w, m, e);
    }
  }

  /** Copies armed in time, no lost record, no chunk carried over. */
  lemma FaultFreeIsExact(c: Setting, w: World)
    requires Finished(c, w)
    requires w.book.missed == multiset{} && w.book.torn == multiset{} && w.book.base == {}
    ensures Exact(c, w)
  {
    InvParts(c, w);
    ExactlyOnce(c, w);
  }

  /** A chunk recorded before the table was created is skipped for good: its events are
      absent unless a repeated INSERT happens to bring them back. */
  lemma CarriedOverChunkIsLost(c: Setting, w: World, m: string, e: Event)
    requires Finished(c, w) && Historic(c, w, m, e)
    requires TunedChunk(c, w, m, e).Cursor() in w.book.base && TunedChunk(c, w, m, e).Cursor() !in w.book.torn
    ensures Held(c, w, m, e) == 0 && !Exact(c, w)
  {
    InvParts(c, w);
    assert Times(c, w, m, e) == 0;
    ExactlyOnce(c, w);
    HistoryCount(c, w, m, e);
    TimesBit(Seen(w, m, e), Times(c, w, m, e));
  }

  /** A chunk of the plan of a finished backfill is already recorded. */
  lemma PlannedIsRecorded(c: Setting, w: World, k: Chunk)
    requires Finished(c, w) && Planned(c, w, k, w.book.tuning.value)
    ensures k.Cursor() in Completed(w.log)
  {
    InvParts(c, w);
    assert UnitDone(c, w, k.mv, k.val, w.book.tuning.value);
  }

  /** The state after a completed run that kept the table's tuning is a finished one. */
  lemma ResumedIsFinished(c: Setting, w: World, before: seq<Chunk>, done: set<string>, cfg: Config)
    requires Resumed(c, w, before, done, cfg) && !w.book.late && !w.book.retuned
    requires w.book.tuning == Some(cfg) && cfg.maxBuckets >= 1 && ListsAll(c, w)
    ensures Finished(c, w)
  {
    InvParts(c, w);
  }

  // ---------- validation catches one-sided faults ----------

  ghost predicate CopiedAtMostOnce(c: Setting, w: World)
    requires Bounded(w)
  {
    forall m, e: Event :: Historic(c, w, m, e) ==> CopyCount(c, w, m, e) <= 1
  }

  ghost predicate CopiedAtLeastOnce(c: Setting, w: World)
    requires Bounded(w)
  {
    forall m, e: Event :: Historic(c, w, m, e) ==> CopyCount(c, w, m, e) >= 1
  }

  lemma LosesAt(c: Setting, w: World, m: string, e: Event)
    requires Inv(c, w) && Tracked(c, w) && Bounded(w) && CopiedAtMostOnce(c, w) && m in w.Defs()
    ensures Held(c, w, m, e) <= Seen(w, m, e)
  {
    InvParts(c, w);
    if e.time >= T(w) {
      assert CaptureAt(c, w, m, e);
    } else if Seen(w, m, e) == 0 {
      UnseenIsNotHeld(c, w, m, e);
    } else {
      assert Historic(c, w, m, e);
      BackfillAtMost(c, w, m, e);
      TimesAtMostOne(Seen(w, m, e), CopyCount(c, w, m, e));
    }
  }

  /** Only losses (missed rows, late rows, skipped chunks): v2 never counts too much. */
  lemma LossesOnly(c: Setting, w: World)
    requires Inv(c, w) && Tracked(c, w) && Bounded(w) && CopiedAtMostOnce(c, w)
    ensures w.db.tables[c.V2()] <= Due(c, w)
  {
    InvParts(c, w);
    forall r: Row
      ensures w.db.tables[c.V2()][r] <= Due(c, w)[r]
    {
      HeldRow(c, w, r);
      if r.mv in w.Defs() { LosesAt(c, w, r.mv, r.event); }
    }
  }

  lemma RepeatsAt(c: Setting, w: World, m: string, e: Event)
    requires Inv(c, w) && Tracked(c, w) && Bounded(w) && !w.book.late && m in w.Defs()
    requires w.book.missed == multiset{} && CopiedAtLeastOnce(c, w)
    ensures Seen(w, m, e) <= Held(c, w, m, e)
  {
    InvParts(c, w);
    if e.time >= T(w) {
      assert CaptureAt(c, w, m, e);
    } else if Seen(w, m, e) > 0 {
      assert Historic(c, w, m, e);
      BackfillCount(c, w, m, e);
      TimesGrows(Seen(w, m, e), CopyCount(c, w, m, e));
    }
  }

  /** Only repeats: v2 never counts too little. */
  lemma RepeatsOnly(c: Setting, w: World)
    requires Inv(c, w) && Tracked(c, w) && Bounded(w) && !w.book.late
    requires w.book.missed == multiset{} && CopiedAtLeastOnce(c, w)
    ensures Due(c, w) <= w.db.tables[c.V2()]
  {
    InvParts(c, w);
    forall r: Row
      ensures Due(c, w)[r] <= w.db.tables[c.V2()][r]
    {
      HeldRow(c, w, r);
      if r.mv in w.Defs() { RepeatsAt(c, w, r.mv, r.event); }
    }
  }

  /** Under one tuning, without a lost record there are only losses, and without a carried-over
      chunk only repeats (besides missed rows). */
  lemma FaultsBySide(c: Setting, w: World)
    requires Finished(c, w)
    ensures w.book.torn == multiset{} ==> CopiedAtMostOnce(c, w)
    ensures w.book.base == {} ==> CopiedAtLeastOnce(c, w)
  {
    InvParts(c, w);
    forall m, e: Event | Historic(c, w, m, e)
      ensures CopyCount(c, w, m, e) == Times(c, w, m, e)
    {
      FinishedCopies(c, w, m, e);
    }
  }

  /** expr is rendered from the sum of a strictly positive measure, and the rendering
      loses nothing. */
  ghost predicate Measures(eval: (string, multiset<Row>) -> string, expr: string, f: Row -> nat, show: nat -> string) {
    && Positive(f)
    && (forall a, b :: show(a) == show(b) ==> a == b)
    && (forall rows :: eval(expr, rows) == show(Sum(rows, f)))
  }

  /** If all faults are of one kind and a positive measure agrees with a correct old table,
      there were no faults at all. */
  lemma OneSidedFaultsAreCaught(c: Setting, w: World, old': multiset<Row>,
                                eval: (string, multiset<Row>) -> string, expr: string,
                                f: Row -> nat, show: nat -> string)
    requires Inv(c, w) && Tracked(c, w) && Bounded(w)
    requires CopiedAtMostOnce(c, w) || (!w.book.late && w.book.missed == multiset{} && CopiedAtLeastOnce(c, w))
    requires old' == Due(c, w)
    requires Measures(eval, expr, f, show)
    requires eval(expr, old') == eval(expr, w.db.tables[c.V2()])
    ensures Exact(c, w)
  {
    InvParts(c, w);
    assert Sum(old', f) == Sum(w.db.tables[c.V2()], f);
    if CopiedAtMostOnce(c, w) {
      LossesOnly(c, w);
      EqualSumsEqualBags(w.db.tables[c.V2()], old', f);
    } else {
      RepeatsOnly(c, w);
      EqualSumsEqualBags(old', w.db.tables[c.V2()], f);
    }
  }

  /** Faults of both kinds can cancel: a table with one row lost and another of the same measure
      repeated agrees with the correct one in that measure, and is wrong. */
  lemma {:induction false} OpposedFaultsCancel(right: multiset<Row>, lost: Row, again: Row, f: Row -> nat)
    requires lost in right && lost != again && f(lost) == f(again)
    ensures var wrong := right - multiset{lost} + multiset{again};
            wrong != right && Sum(wrong, f) == Sum(right, f)
  {
    var rest := right - multiset{lost};
    var wrong := rest + multiset{again};
    SumSplit(right, f, lost);
    SumSplit(wrong, f, again);
    assert wrong - multiset{again} == rest;
    assert wrong[lost] < right[lost];
  }
}
