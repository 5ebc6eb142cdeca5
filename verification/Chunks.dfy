/** One backfill unit: one bucket of one chunk value through one view, and its cursor. */
module Chunks {
  import opened Text
  import opened Warehouse

  datatype Chunk = Chunk(mv: string, expr: string, val: string, n: nat, b: nat) {
    function Cursor(): string {
      BackfillCursor(val, mv, n, b)
    }

    function Rows(t: nat): Filter {
      Slice(t, val, expr, n, b)
    }
  }

  function BackfillCursor(val: string, mv: string, n: nat, b: nat): string {
    val + "|" + mv + "|N" + Dec(n) + "|b" + Dec(b)
  }

  /** The detail text recorded with a finished chunk. */
  function ChunkDetail(rows: nat, n: nat): string
    requires n > 0
  {
    "~" + Dec(rows / n) + " rows"
  }

  /** It names an even share: no more than the chunk value has, and less than one row per chunk
      is left over. */
  lemma DetailIsShare(rows: nat, n: nat) returns (share: nat)
    requires n > 0
    ensures ChunkDetail(rows, n) == "~" + Dec(share) + " rows" && share * n <= rows < share * n + n
  {
    share := rows / n;
    assert rows == n * (rows / n) + rows % n;
  }

  /** The expression that splits a chunk; the GROUP BY keys unless overridden. */
  function BucketExpr(m: MV, override: string): string {
    if override != "" then override else "cityHash64(" + m.groupBy + ")"
  }

  // ---------- cursors identify chunks ----------

  lemma BarInside(x: string, y: string, k: int)
    requires |x| < k < |x| + 1 + |y| && (x + "|" + y)[k] == '|'
    ensures '|' in y
  {
    assert (x + "|" + y)[k] == y[k - |x| - 1];
  }

  /** A string is cut at its last bar in one way only. */
  lemma LastBar(x1: string, y1: string, x2: string, y2: string)
    requires x1 + "|" + y1 == x2 + "|" + y2
    requires '|' !in y1 && '|' !in y2
    ensures x1 == x2 && y1 == y2
  {
    var s := x1 + "|" + y1;
    assert s[|x1|] == '|' && s[|x2|] == '|';
    if |x1| < |x2| {
      BarInside(x1, y1, |x2|);
    } else if |x2| < |x1| {
      BarInside(x2, y2, |x1|);
    } else {
      assert s[..|x1|] == x1 && s[..|x2|] == x2;
      assert s[|x1| + 1..] == y1 && s[|x2| + 1..] == y2;
    }
  }

  function Tagged(letter: char, n: nat): (s: string)
    ensures letter != '|' ==> '|' !in s
  {
    [letter] + Dec(n)
  }

  lemma TaggedInjective(letter: char, a: nat, b: nat)
    requires Tagged(letter, a) == Tagged(letter, b)
    ensures a == b
  {
    assert Tagged(letter, a)[1..] == Dec(a) && Tagged(letter, b)[1..] == Dec(b);
    DecInjective(a, b);
  }

  lemma CursorAsParts(val: string, mv: string, n: nat, b: nat)
    ensures BackfillCursor(val, mv, n, b)
         == ((val + "|" + mv) + "|" + Tagged('N', n)) + "|" + Tagged('b', b)
  {
    assert "|N" + Dec(n) == "|" + Tagged('N', n);
    assert "|b" + Dec(b) == "|" + Tagged('b', b);
    var head := val + "|" + mv;
    assert head + "|N" + Dec(n) == head + ("|N" + Dec(n));
    var cut := head + "|N" + Dec(n);
    assert cut + "|b" + Dec(b) == cut + ("|b" + Dec(b));
  }

  lemma CursorParts(v1: string, m1: string, n1: nat, b1: nat, v2: string, m2: string, n2: nat, b2: nat)
    requires BackfillCursor(v1, m1, n1, b1) == BackfillCursor(v2, m2, n2, b2)
    ensures v1 + "|" + m1 == v2 + "|" + m2 && n1 == n2 && b1 == b2
  {
    CursorAsParts(v1, m1, n1, b1);
    CursorAsParts(v2, m2, n2, b2);
    var a1, a2 := v1 + "|" + m1, v2 + "|" + m2;
    LastBar(a1 + "|" + Tagged('N', n1), Tagged('b', b1), a2 + "|" + Tagged('N', n2), Tagged('b', b2));
    LastBar(a1, Tagged('N', n1), a2, Tagged('N', n2));
    TaggedInjective('N', n1, n2);
    TaggedInjective('b', b1, b2);
  }

  /** Is the shorter name a bar-separated ending of the longer one? */
  predicate Confusable(longer: string, shorter: string) {
    HasSuffix(longer, "|" + shorter)
  }

  lemma LongerNameEnds(v1: string, m1: string, v2: string, m2: string)
    requires v1 + "|" + m1 == v2 + "|" + m2 && |m1| > |m2|
    ensures Confusable(m1, m2)
  {
    var s := v1 + "|" + m1;
    assert |v2| > |v1|;
    assert m1[|m1| - |m2| - 1..] == s[|v2|..] == "|" + m2;
  }

  lemma LabelInjective(v1: string, m1: string, v2: string, m2: string)
    requires v1 + "|" + m1 == v2 + "|" + m2
    requires !Confusable(m1, m2) && !Confusable(m2, m1)
    ensures v1 == v2 && m1 == m2
  {
    if |m1| > |m2| {
      LongerNameEnds(v1, m1, v2, m2);
    } else if |m2| > |m1| {
      LongerNameEnds(v2, m2, v1, m1);
    } else {
      var s := v1 + "|" + m1;
      assert s[..|v1|] == v1 && s[..|v2|] == v2;
      assert s[|v1| + 1..] == m1 && s[|v2| + 1..] == m2;
    }
  }

  /** Whatever the chunk values contain, cursors of unconfusable names never collide. */
  lemma CursorInjective(v1: string, m1: string, n1: nat, b1: nat, v2: string, m2: string, n2: nat, b2: nat)
    requires BackfillCursor(v1, m1, n1, b1) == BackfillCursor(v2, m2, n2, b2)
    requires !Confusable(m1, m2) && !Confusable(m2, m1)
    ensures v1 == v2 && m1 == m2 && n1 == n2 && b1 == b2
  {
    CursorParts(v1, m1, n1, b1, v2, m2, n2, b2);
    LabelInjective(v1, m1, v2, m2);
  }

  /** A cursor says everything about a chunk but the bucket expression: a chunk split by
      another expression passes for the same one. */
  lemma SameCursorIff(k1: Chunk, k2: Chunk)
    requires !Confusable(k1.mv, k2.mv) && !Confusable(k2.mv, k1.mv)
    ensures k1.Cursor() == k2.Cursor() <==> k1.(expr := k2.expr) == k2
  {
    if k1.Cursor() == k2.Cursor() {
      CursorInjective(k1.val, k1.mv, k1.n, k1.b, k2.val, k2.mv, k2.n, k2.b);
    }
  }

  /** The same for the names the protocol is documented for. */
  lemma BarFreeNamesAreSafe(m1: string, m2: string)
    requires '|' !in m1
    ensures !Confusable(m1, m2)
  {
    assert ("|" + m2)[0] == '|';
    if |m2| < |m1| {
      assert m1[|m1| - |m2| - 1..][0] == m1[|m1| - |m2| - 1];
    }
  }

  /** Chunks of two different views can share a cursor, for some chunk values, exactly when they
      have the same count and bucket and one view's name is confusable for the other's. */
  lemma CursorsCollideIff(m1: string, n1: nat, b1: nat, m2: string, n2: nat, b2: nat)
    requires m1 != m2
    ensures (exists v1, v2 :: BackfillCursor(v1, m1, n1, b1) == BackfillCursor(v2, m2, n2, b2))
        <==> n1 == n2 && b1 == b2 && (Confusable(m1, m2) || Confusable(m2, m1))
  {
    if v1, v2 :| BackfillCursor(v1, m1, n1, b1) == BackfillCursor(v2, m2, n2, b2) {
      CursorParts(v1, m1, n1, b1, v2, m2, n2, b2);
      DifferentLabels(v1, m1, v2, m2);
    }
    if Confusable(m1, m2) {
      CollidingValues(m1, m2, n1, b1);
    } else if Confusable(m2, m1) {
      CollidingValues(m2, m1, n1, b1);
    }
  }

  lemma DifferentLabels(v1: string, m1: string, v2: string, m2: string)
    requires v1 + "|" + m1 == v2 + "|" + m2 && m1 != m2
    ensures Confusable(m1, m2) || Confusable(m2, m1)
  {
    if !Confusable(m1, m2) && !Confusable(m2, m1) { LabelInjective(v1, m1, v2, m2); }
  }

  lemma CollidingValues(m1: string, m2: string, n: nat, b: nat)
    requires Confusable(m1, m2)
    ensures BackfillCursor("", m1, n, b)
         == BackfillCursor("|" + m1[..|m1| - |m2| - 1], m2, n, b)
  {
    var x := m1[..|m1| - |m2| - 1];
    assert m1 == x + ("|" + m2);
    assert "" + "|" + m1 == ("|" + x) + "|" + m2;
  }

  // ---------- how often an event is backfilled ----------

  /** Does this chunk's INSERT copy the event? */
  predicate Copies(h: Hash, k: Chunk, mv: string, t: nat, e: Event) {
    k.mv == mv && Passes(h, k.Rows(t), e)
  }

  /** How many of the INSERTs in ledger copy the event. */
  function Copied(h: Hash, ledger: seq<Chunk>, mv: string, t: nat, e: Event): nat {
    if ledger == [] then 0
    else
      Copied(h, ledger[..|ledger| - 1], mv, t, e) +
      (if Copies(h, ledger[|ledger| - 1], mv, t, e) then 1 else 0)
  }

  lemma TimesBit(a: nat, b: nat)
    requires b <= 1
    ensures a * b == if b == 1 then a else 0
  {
  }

  lemma TimesPlusOne(a: nat, b: nat)
    ensures a * (b + 1) == a * b + a
  {
  }

  lemma {:induction false} CopiedTwice(h: Hash, ledger: seq<Chunk>, mv: string, t: nat, e: Event, i: nat, j: nat)
    requires i < j < |ledger| && Copies(h, ledger[i], mv, t, e) && Copies(h, ledger[j], mv, t, e)
    ensures Copied(h, ledger, mv, t, e) >= 2
  {
    var n := |ledger| - 1;
    if j < n {
      CopiedTwice(h, ledger[..n], mv, t, e, i, j);
    } else {
      CopiedAtLeastOnce(h, ledger[..n], mv, t, e, i);
    }
  }

  lemma {:induction false} CopiedAtLeastOnce(h: Hash, ledger: seq<Chunk>, mv: string, t: nat, e: Event, i: nat)
    requires i < |ledger| && Copies(h, ledger[i], mv, t, e)
    ensures Copied(h, ledger, mv, t, e) >= 1
  {
    var n := |ledger| - 1;
    if i < n { CopiedAtLeastOnce(h, ledger[..n], mv, t, e, i); }
  }

  /** How many of the INSERTs in ledger carry this cursor. */
  function Runs(ledger: seq<Chunk>, cursor: string): nat {
    if ledger == [] then 0
    else
      Runs(ledger[..|ledger| - 1], cursor) + (if ledger[|ledger| - 1].Cursor() == cursor then 1 else 0)
  }

  lemma RunsAppend(ledger: seq<Chunk>, k: Chunk, cursor: string)
    ensures Runs(ledger + [k], cursor) == Runs(ledger, cursor) + (if k.Cursor() == cursor then 1 else 0)
  {
    assert (ledger + [k])[..|ledger|] == ledger;
  }

  /** If exactly the chunks with this cursor copy the event, counting either is the same. */
  lemma {:induction false} CopiedIsRuns(h: Hash, ledger: seq<Chunk>, mv: string, t: nat, e: Event, cursor: string)
    requires forall i :: 0 <= i < |ledger| ==> (Copies(h, ledger[i], mv, t, e) <==> ledger[i].Cursor() == cursor)
    ensures Copied(h, ledger, mv, t, e) == Runs(ledger, cursor)
  {
    if ledger != [] {
      CopiedIsRuns(h, ledger[..|ledger| - 1], mv, t, e, cursor);
    }
  }

  lemma {:induction false} CopiedConcat(h: Hash, a: seq<Chunk>, b: seq<Chunk>, mv: string, t: nat, e: Event)
    ensures Copied(h, a + b, mv, t, e) == Copied(h, a, mv, t, e) + Copied(h, b, mv, t, e)
  {
    if b == [] {
      assert a + b == a;
    } else {
      var n := |b| - 1;
      assert (a + b)[..|a| + n] == a + b[..n];
      CopiedConcat(h, a, b[..n], mv, t, e);
    }
  }

  predicate DistinctCursors(ks: seq<Chunk>) {
    forall i, j :: 0 <= i < j < |ks| ==> ks[i].Cursor() != ks[j].Cursor()
  }

  predicate HasCursor(ks: seq<Chunk>, cursor: string) {
    exists i :: 0 <= i < |ks| && ks[i].Cursor() == cursor
  }

  lemma CursorInPrefix(ks: seq<Chunk>, cursor: string)
    requires ks != []
    ensures HasCursor(ks, cursor) <==> HasCursor(ks[..|ks| - 1], cursor) || ks[|ks| - 1].Cursor() == cursor
  {
    var n := |ks| - 1;
    if i :| 0 <= i < |ks| && ks[i].Cursor() == cursor {
      if i < n { assert ks[..n][i].Cursor() == cursor; }
    }
    if i :| 0 <= i < n && ks[..n][i].Cursor() == cursor { assert ks[i].Cursor() == cursor; }
  }

  lemma {:induction false} RunsOfDistinct(ks: seq<Chunk>, cursor: string)
    requires DistinctCursors(ks)
    ensures Runs(ks, cursor) == if HasCursor(ks, cursor) then 1 else 0
  {
    if ks != [] {
      RunsOfDistinct(ks[..|ks| - 1], cursor);
      CursorInPrefix(ks, cursor);
    }
  }

  lemma {:induction false} RunsPositive(ks: seq<Chunk>, cursor: string)
    ensures Runs(ks, cursor) > 0 <==> HasCursor(ks, cursor)
  {
    if ks != [] {
      RunsPositive(ks[..|ks| - 1], cursor);
      CursorInPrefix(ks, cursor);
    }
  }

  // ---------- what the INSERTs found ----------

  /** How often the INSERTs in ledger copied the event, when each found what the source held
      at its time. */
  function Taken(h: Hash, ledger: seq<Chunk>, found: seq<seq<Event>>, mv: string, t: nat, e: Event): nat
    requires |found| == |ledger|
  {
    if ledger == [] then 0
    else
      var n := |ledger| - 1;
      Taken(h, ledger[..n], found[..n], mv, t, e) +
      (if Copies(h, ledger[n], mv, t, e) then multiset(found[n])[e] else 0)
  }

  lemma TakenAppend(h: Hash, ledger: seq<Chunk>, found: seq<seq<Event>>, k: Chunk, batch: seq<Event>,
                    mv: string, t: nat, e: Event)
    requires |found| == |ledger|
    ensures Taken(h, ledger + [k], found + [batch], mv, t, e)
         == Taken(h, ledger, found, mv, t, e) + (if Copies(h, k, mv, t, e) then multiset(batch)[e] else 0)
  {
    assert (ledger + [k])[..|ledger|] == ledger && (found + [batch])[..|found|] == found;
  }

  /** If every copying INSERT found the event a times, a times the number of INSERTs. */
  lemma {:induction false} TakenAlike(h: Hash, ledger: seq<Chunk>, found: seq<seq<Event>>,
                                      mv: string, t: nat, e: Event, a: nat)
    requires |found| == |ledger|
    requires forall i :: 0 <= i < |ledger| && ledger[i].mv == mv ==> multiset(found[i])[e] == a
    ensures Taken(h, ledger, found, mv, t, e) == a * Copied(h, ledger, mv, t, e)
  {
    if ledger == [] {
      TimesBit(a, 0);
    } else {
      var n := |ledger| - 1;
      TakenAlike(h, ledger[..n], found[..n], mv, t, e, a);
      TimesPlusOne(a, Copied(h, ledger[..n], mv, t, e));
    }
  }

  /** If no INSERT found the event more than a times, at most a times the number of INSERTs. */
  lemma {:induction false} TakenAtMost(h: Hash, ledger: seq<Chunk>, found: seq<seq<Event>>,
                                       mv: string, t: nat, e: Event, a: nat)
    requires |found| == |ledger|
    requires forall i :: 0 <= i < |ledger| && ledger[i].mv == mv ==> multiset(found[i])[e] <= a
    ensures Taken(h, ledger, found, mv, t, e) <= a * Copied(h, ledger, mv, t, e)
  {
    if ledger == [] {
      TimesBit(a, 0);
    } else {
      var n := |ledger| - 1;
      TakenAtMost(h, ledger[..n], found[..n], mv, t, e, a);
      TimesPlusOne(a, Copied(h, ledger[..n], mv, t, e));
    }
  }
}
