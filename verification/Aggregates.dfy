/** GROUP BY with a summed measure, and merging of partial aggregates. */
module Aggregates {
  // Splitting the history into chunks does not change what it aggregates to.

  import opened Warehouse
  import opened Chunks

  // ---------- a summed measure ----------

  ghost function Sum(rows: multiset<Row>, f: Row -> nat): nat {
    if rows == multiset{} then 0
    else
      var r :| r in rows;
      f(r) + Sum(rows - multiset{r}, f)
  }

  lemma {:induction false} SumSplit(rows: multiset<Row>, f: Row -> nat, r: Row)
    requires r in rows
    ensures Sum(rows, f) == f(r) + Sum(rows - multiset{r}, f)
    decreases |rows|
  {
    var x :| x in rows && Sum(rows, f) == f(x) + Sum(rows - multiset{x}, f);
    if x != r {
      SumSplit(rows - multiset{x}, f, r);
      SumSplit(rows - multiset{r}, f, x);
      assert rows - multiset{x} - multiset{r} == rows - multiset{r} - multiset{x};
    }
  }

  lemma {:induction false} SumUnion(a: multiset<Row>, b: multiset<Row>, f: Row -> nat)
    ensures Sum(a + b, f) == Sum(a, f) + Sum(b, f)
    decreases |b|
  {
    if b == multiset{} {
      assert a + b == a;
    } else {
      var r :| r in b;
      SumSplit(a + b, f, r);
      SumSplit(b, f, r);
      assert a + b - multiset{r} == a + (b - multiset{r});
      SumUnion(a, b - multiset{r}, f);
    }
  }

  ghost predicate Positive(f: Row -> nat) {
    forall r :: f(r) > 0
  }

  lemma SumZero(rows: multiset<Row>, f: Row -> nat)
    requires Positive(f) && Sum(rows, f) == 0
    ensures rows == multiset{}
  {
    if r :| r in rows {
      SumSplit(rows, f, r);
    }
  }

  /** A strictly positive measure tells a bag from any proper part of it. */
  lemma EqualSumsEqualBags(part: multiset<Row>, whole: multiset<Row>, f: Row -> nat)
    requires part <= whole && Positive(f) && Sum(part, f) == Sum(whole, f)
    ensures part == whole
  {
    var rest := whole - part;
    assert part + rest == whole;
    SumUnion(part, rest, f);
    SumZero(rest, f);
  }

  // ---------- GROUP BY and merging ----------

  function Add(state: map<string, nat>, k: string, v: nat): map<string, nat> {
    state[k := (if k in state then state[k] else 0) + v]
  }

  ghost function GroupBy(rows: multiset<Row>, key: Row -> string, f: Row -> nat): map<string, nat> {
    if rows == multiset{} then map[]
    else
      var r :| r in rows;
      Add(GroupBy(rows - multiset{r}, key, f), key(r), f(r))
  }

  function Merge(a: map<string, nat>, b: map<string, nat>): map<string, nat> {
    map k | k in a.Keys + b.Keys :: (if k in a then a[k] else 0) + (if k in b then b[k] else 0)
  }

  lemma AddCommutes(state: map<string, nat>, k1: string, v1: nat, k2: string, v2: nat)
    ensures Add(Add(state, k1, v1), k2, v2) == Add(Add(state, k2, v2), k1, v1)
  {
  }

  lemma {:induction false} GroupBySplit(rows: multiset<Row>, key: Row -> string, f: Row -> nat, r: Row)
    requires r in rows
    ensures GroupBy(rows, key, f) == Add(GroupBy(rows - multiset{r}, key, f), key(r), f(r))
    decreases |rows|
  {
    var x :| x in rows && GroupBy(rows, key, f) == Add(GroupBy(rows - multiset{x}, key, f), key(x), f(x));
    if x != r {
      var rest := rows - multiset{x} - multiset{r};
      GroupBySplit(rows - multiset{x}, key, f, r);
      GroupBySplit(rows - multiset{r}, key, f, x);
      assert rest == rows - multiset{r} - multiset{x};
      AddCommutes(GroupBy(rest, key, f), key(x), f(x), key(r), f(r));
    }
  }

  lemma MergeAdd(a: map<string, nat>, b: map<string, nat>, k: string, v: nat)
    ensures Merge(a, Add(b, k, v)) == Add(Merge(a, b), k, v)
  {
  }

  /** Merging two partial aggregates is aggregating the union. */
  lemma {:induction false} GroupByUnion(a: multiset<Row>, b: multiset<Row>, key: Row -> string, f: Row -> nat)
    ensures GroupBy(a + b, key, f) == Merge(GroupBy(a, key, f), GroupBy(b, key, f))
    decreases |b|
  {
    if b == multiset{} {
      assert a + b == a;
    } else {
      var r :| r in b;
      GroupBySplit(a + b, key, f, r);
      GroupBySplit(b, key, f, r);
      assert a + b - multiset{r} == a + (b - multiset{r});
      GroupByUnion(a, b - multiset{r}, key, f);
      MergeAdd(GroupBy(a, key, f), GroupBy(b - multiset{r}, key, f), key(r), f(r));
    }
  }

  // ---------- totals ----------

  ghost function Total(state: map<string, nat>): nat {
    if state == map[] then 0
    else
      var k :| k in state;
      state[k] + Total(state - {k})
  }

  lemma {:induction false} TotalSplit(state: map<string, nat>, k: string)
    requires k in state
    ensures Total(state) == state[k] + Total(state - {k})
    decreases |state|
  {
    var x :| x in state && Total(state) == state[x] + Total(state - {x});
    if x != k {
      TotalSplit(state - {x}, k);
      TotalSplit(state - {k}, x);
      assert state - {x} - {k} == state - {k} - {x};
    }
  }

  lemma TotalAdd(state: map<string, nat>, k: string, v: nat)
    ensures Total(Add(state, k, v)) == Total(state) + v
  {
    var after := Add(state, k, v);
    TotalSplit(after, k);
    assert after - {k} == state - {k};
    if k in state {
      TotalSplit(state, k);
    } else {
      assert state - {k} == state;
    }
  }

  /** Grouping never changes the grand total, so a finer or different key keeps it. */
  lemma {:induction false} TotalOfGroups(rows: multiset<Row>, key: Row -> string, f: Row -> nat)
    ensures Total(GroupBy(rows, key, f)) == Sum(rows, f)
    decreases |rows|
  {
    if rows != multiset{} {
      var r :| r in rows;
      GroupBySplit(rows, key, f, r);
      SumSplit(rows, f, r);
      TotalOfGroups(rows - multiset{r}, key, f);
      TotalAdd(GroupBy(rows - multiset{r}, key, f), key(r), f(r));
    }
  }

  // ---------- chunks partition the history ----------

  /** Rows written by a list of chunk INSERTs over one source. */
  function ChunkRows(h: Hash, events: seq<Event>, t: nat, ks: seq<Chunk>): multiset<Row> {
    if ks == [] then multiset{}
    else
      var k := ks[|ks| - 1];
      ChunkRows(h, events, t, ks[..|ks| - 1]) + Select(h, k.mv, events, k.Rows(t))
  }

  /** Partial aggregates of the chunks, merged in the order they ran. */
  ghost function MergedChunks(h: Hash, events: seq<Event>, t: nat, ks: seq<Chunk>,
                              key: Row -> string, f: Row -> nat): map<string, nat>
  {
    if ks == [] then map[]
    else
      var k := ks[|ks| - 1];
      Merge(MergedChunks(h, events, t, ks[..|ks| - 1], key, f),
            GroupBy(Select(h, k.mv, events, k.Rows(t)), key, f))
  }

  lemma {:induction false} MergedIsGrouped(h: Hash, events: seq<Event>, t: nat, ks: seq<Chunk>,
                                           key: Row -> string, f: Row -> nat)
    ensures MergedChunks(h, events, t, ks, key, f) == GroupBy(ChunkRows(h, events, t, ks), key, f)
  {
    if ks != [] {
      var k := ks[|ks| - 1];
      MergedIsGrouped(h, events, t, ks[..|ks| - 1], key, f);
      GroupByUnion(ChunkRows(h, events, t, ks[..|ks| - 1]), Select(h, k.mv, events, k.Rows(t)), key, f);
    }
  }

  lemma LastChunkAdds(h: Hash, events: seq<Event>, t: nat, ks: seq<Chunk>, r: Row)
    requires ks != []
    ensures ChunkRows(h, events, t, ks)[r] ==
            ChunkRows(h, events, t, ks[..|ks| - 1])[r] +
            (if Copies(h, ks[|ks| - 1], r.mv, t, r.event) then multiset(events)[r.event] else 0)
  {
  }

  lemma LastChunkCopies(h: Hash, t: nat, ks: seq<Chunk>, r: Row)
    requires ks != []
    ensures Copied(h, ks, r.mv, t, r.event) ==
            Copied(h, ks[..|ks| - 1], r.mv, t, r.event) +
            (if Copies(h, ks[|ks| - 1], r.mv, t, r.event) then 1 else 0)
  {
  }

  lemma TimesOneMore(rows: nat, rows': nat, a: nat, copies: nat, copies': nat, more: bool)
    requires rows == a * copies
    requires rows' == rows + (if more then a else 0) && copies' == copies + (if more then 1 else 0)
    ensures rows' == a * copies'
  {
    TimesPlusOne(a, copies);
  }

  ghost predicate CountsCopies(h: Hash, events: seq<Event>, t: nat, ks: seq<Chunk>, r: Row) {
    ChunkRows(h, events, t, ks)[r] == multiset(events)[r.event] * Copied(h, ks, r.mv, t, r.event)
  }

  lemma LastChunkCounts(h: Hash, events: seq<Event>, t: nat, ks: seq<Chunk>, r: Row)
    requires ks != [] && CountsCopies(h, events, t, ks[..|ks| - 1], r)
    ensures CountsCopies(h, events, t, ks, r)
  {
    var rest := ks[..|ks| - 1];
    LastChunkAdds(h, events, t, ks, r);
    LastChunkCopies(h, t, ks, r);
    TimesOneMore(ChunkRows(h, events, t, rest)[r], ChunkRows(h, events, t, ks)[r], multiset(events)[r.event],
                 Copied(h, rest, r.mv, t, r.event), Copied(h, ks, r.mv, t, r.event),
                 Copies(h, ks[|ks| - 1], r.mv, t, r.event));
  }

  lemma {:induction false} ChunkRowsCount(h: Hash, events: seq<Event>, t: nat, ks: seq<Chunk>, r: Row)
    ensures CountsCopies(h, events, t, ks, r)
  {
    if ks == [] {
      TimesBit(multiset(events)[r.event], 0);
    } else {
      ChunkRowsCount(h, events, t, ks[..|ks| - 1], r);
      LastChunkCounts(h, events, t, ks, r);
    }
  }

  /** ks runs every bucket of every chunk value of one view once, in any order. */
  ghost predicate FullPlan(ks: seq<Chunk>, mv: string, expr: string, n: map<string, nat>) {
    && (forall i, j :: 0 <= i < j < |ks| ==> ks[i] != ks[j])
    && (forall k :: k in ks <==>
          k.mv == mv && k.expr == expr && k.val in n && k.n == n[k.val] && k.b < k.n)
  }

  lemma {:induction false} CopiedByNone(h: Hash, ks: seq<Chunk>, mv: string, t: nat, e: Event)
    requires forall i :: 0 <= i < |ks| ==> !Copies(h, ks[i], mv, t, e)
    ensures Copied(h, ks, mv, t, e) == 0
  {
    if ks != [] {
      CopiedByNone(h, ks[..|ks| - 1], mv, t, e);
    }
  }

  lemma {:induction false} CopiedByOne(h: Hash, ks: seq<Chunk>, i: nat, mv: string, t: nat, e: Event)
    requires i < |ks|
    requires forall j :: 0 <= j < |ks| ==> (Copies(h, ks[j], mv, t, e) <==> j == i)
    ensures Copied(h, ks, mv, t, e) == 1
  {
    if i == |ks| - 1 {
      CopiedByNone(h, ks[..i], mv, t, e);
    } else {
      CopiedByOne(h, ks[..|ks| - 1], i, mv, t, e);
    }
  }

  /** Which chunks of a full plan copy an event: its own bucket, and only before t. */
  lemma CopiedByFullPlan(h: Hash, t: nat, ks: seq<Chunk>, mv: string, expr: string, n: map<string, nat>,
                         x: string, e: Event)
    requires FullPlan(ks, mv, expr, n)
    ensures x != mv || e.time >= t ==> Copied(h, ks, x, t, e) == 0
    ensures x == mv && e.time < t && e.chunk in n && n[e.chunk] > 0 ==> Copied(h, ks, x, t, e) == 1
  {
    if x != mv || e.time >= t {
      forall j | 0 <= j < |ks| ensures !Copies(h, ks[j], x, t, e) { assert ks[j] in ks; }
      CopiedByNone(h, ks, x, t, e);
    } else if e.chunk in n && n[e.chunk] > 0 {
      var own := Chunk(mv, expr, e.chunk, n[e.chunk], h(expr, e) % n[e.chunk]);
      assert own in ks;
      var i :| 0 <= i < |ks| && ks[i] == own;
      forall j | 0 <= j < |ks| ensures Copies(h, ks[j], mv, t, e) <==> j == i {
        assert ks[j] in ks;
      }
      CopiedByOne(h, ks, i, mv, t, e);
    }
  }

  /** The chunk predicates are disjoint and cover every row before t: together the chunks
      write exactly what one un-chunked INSERT would have written. */
  lemma ChunksPartition(h: Hash, events: seq<Event>, t: nat, ks: seq<Chunk>,
                        mv: string, expr: string, n: map<string, nat>)
    requires FullPlan(ks, mv, expr, n)
    requires forall e :: e in events && e.time < t ==> e.chunk in n && n[e.chunk] > 0
    ensures ChunkRows(h, events, t, ks) == Select(h, mv, events, Before(t))
  {
    var all := Select(h, mv, events, Before(t));
    forall r: Row
      ensures ChunkRows(h, events, t, ks)[r] == all[r]
    {
      ChunkRowsCount(h, events, t, ks, r);
      CopiedByFullPlan(h, t, ks, mv, expr, n, r.mv, r.event);
      var a := multiset(events)[r.event];
      TimesBit(a, 0);
      TimesBit(a, 1);
      if a > 0 {
        assert r.event in events;
      }
    }
  }

  /** Aggregating chunk by chunk and merging equals aggregating the history at once,
      whatever order the chunks ran in. */
  lemma ChunkedGroupBy(h: Hash, events: seq<Event>, t: nat, ks: seq<Chunk>,
                       mv: string, expr: string, n: map<string, nat>, key: Row -> string, f: Row -> nat)
    requires FullPlan(ks, mv, expr, n)
    requires forall e :: e in events && e.time < t ==> e.chunk in n && n[e.chunk] > 0
    ensures MergedChunks(h, events, t, ks, key, f) == GroupBy(Select(h, mv, events, Before(t)), key, f)
  {
    MergedIsGrouped(h, events, t, ks, key, f);
    ChunksPartition(h, events, t, ks, mv, expr, n);
  }
}
