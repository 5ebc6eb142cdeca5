/** The log kept in a table and read back sorted by (ts, seq). */
module StateStore {
  // Rows lie in no particular order; the server stamps ts and every store counts its own seq.

  import opened Journal
  import opened Outcomes

  datatype Stored = Stored(ts: nat, seqNo: nat, op: string, rec: Record)

  /** One append that reached the table, and the store that made it. */
  datatype Entry = Entry(store: nat, row: Stored)

  // ---------- ORDER BY ts, seq ----------

  predicate KeyLess(a: Stored, b: Stored) {
    a.ts < b.ts || (a.ts == b.ts && a.seqNo < b.seqNo)
  }

  predicate Sorted(rows: seq<Stored>) {
    forall i, j :: 0 <= i < j < |rows| ==> !KeyLess(rows[j], rows[i])
  }

  ghost predicate SortedReading(rows: seq<Stored>, table: multiset<Stored>) {
    Sorted(rows) && multiset(rows) == table
  }

  /** r put before the first row with a larger key. */
  function InsertSorted(rows: seq<Stored>, r: Stored): (out: seq<Stored>) {
    if rows == [] then [r]
    else if KeyLess(r, rows[0]) then [r] + rows
    else [rows[0]] + InsertSorted(rows[1..], r)
  }

  lemma {:induction false} InsertSortedBag(rows: seq<Stored>, r: Stored)
    ensures multiset(InsertSorted(rows, r)) == multiset(rows) + multiset{r}
  {
    if rows != [] {
      assert rows == [rows[0]] + rows[1..];
      InsertSortedBag(rows[1..], r);
    }
  }

  lemma {:induction false} InsertSortedSorts(rows: seq<Stored>, r: Stored)
    requires Sorted(rows)
    ensures Sorted(InsertSorted(rows, r))
  {
    if rows != [] && !KeyLess(r, rows[0]) {
      var rest := InsertSorted(rows[1..], r);
      InsertSortedSorts(rows[1..], r);
      InsertSortedBag(rows[1..], r);
      forall i | 0 <= i < |rest|
        ensures !KeyLess(rest[i], rows[0])
      {
        assert rest[i] in multiset(rest);
      }
    }
  }

  function Sort(rows: seq<Stored>): (out: seq<Stored>)
    ensures SortedReading(out, multiset(rows))
  {
    if rows == [] then []
    else
      assert rows == rows[..|rows| - 1] + [rows[|rows| - 1]];
      InsertSortedBag(Sort(rows[..|rows| - 1]), rows[|rows| - 1]);
      InsertSortedSorts(Sort(rows[..|rows| - 1]), rows[|rows| - 1]);
      InsertSorted(Sort(rows[..|rows| - 1]), rows[|rows| - 1])
  }

  /** Appends whose keys rise, or that are indistinguishable. */
  ghost predicate InOrder(rows: seq<Stored>) {
    forall i, j :: 0 <= i < j < |rows| ==> KeyLess(rows[i], rows[j]) || rows[i] == rows[j]
  }

  /** The first row of any sorted reading is the first append. */
  lemma FirstReadsBack(out: seq<Stored>, rows: seq<Stored>)
    requires SortedReading(out, multiset(rows)) && InOrder(rows) && rows != []
    ensures out != [] && out[0] == rows[0]
  {
    assert |multiset(out)| == |rows|;
    assert out[0] in multiset(rows) && rows[0] in multiset(out);
    var i :| 0 <= i < |rows| && rows[i] == out[0];
    var j :| 0 <= j < |out| && out[j] == rows[0];
  }

  lemma DropFirst(a: seq<Stored>, b: seq<Stored>)
    requires a != [] && b != [] && a[0] == b[0] && multiset(a) == multiset(b)
    ensures multiset(a[1..]) == multiset(b[1..])
  {
    assert a == [a[0]] + a[1..] && b == [b[0]] + b[1..];
    assert multiset(a[1..]) == multiset(a) - multiset{a[0]};
    assert multiset(b[1..]) == multiset(b) - multiset{b[0]};
  }

  lemma {:induction false} InOrderReadsBack(out: seq<Stored>, rows: seq<Stored>)
    requires SortedReading(out, multiset(rows)) && InOrder(rows)
    ensures out == rows
  {
    if rows == [] {
      assert |multiset(out)| == 0;
    } else {
      FirstReadsBack(out, rows);
      DropFirst(out, rows);
      InOrderReadsBack(out[1..], rows[1..]);
      assert out == [out[0]] + out[1..] && rows == [rows[0]] + rows[1..];
    }
  }

  lemma SwapKeepsSorted(rows: seq<Stored>, i: nat, j: nat)
    requires i < j < |rows| && Sorted(rows) && !KeyLess(rows[i], rows[j])
    ensures Sorted(rows[i := rows[j]][j := rows[i]])
  {
    var out := rows[i := rows[j]][j := rows[i]];
    assert !KeyLess(rows[j], rows[i]);
    forall a, b | 0 <= a < b < |out|
      ensures !KeyLess(out[b], out[a])
    {
      assert !KeyLess(rows[b], rows[a]);
    }
  }

  /** Appends that are not in order can be read back differently. */
  lemma OutOfOrderMisreads(rows: seq<Stored>) returns (out: seq<Stored>)
    requires !InOrder(rows)
    ensures SortedReading(out, multiset(rows)) && out != rows
  {
    if Sorted(rows) {
      var i, j :| 0 <= i < j < |rows| && !KeyLess(rows[i], rows[j]) && rows[i] != rows[j];
      out := rows[i := rows[j]][j := rows[i]];
      SwapKeepsSorted(rows, i, j);
      assert out[i] == rows[j];
    } else {
      out := Sort(rows);
    }
  }

  /** Reading back by (ts, seq) gives the append order for every physical layout if and only
      if the keys rise along the appends (or the rows are identical). */
  lemma ReadsBackIff(rows: seq<Stored>)
    ensures (forall out :: SortedReading(out, multiset(rows)) ==> out == rows) <==> InOrder(rows)
  {
    if InOrder(rows) {
      forall out | SortedReading(out, multiset(rows)) ensures out == rows {
        InOrderReadsBack(out, rows);
      }
    } else {
      var _ := OutOfOrderMisreads(rows);
    }
  }

  // ---------- one operation's records ----------

  function OfOp(rows: seq<Stored>, op: string): seq<Stored> {
    if rows == [] then []
    else
      var last := rows[|rows| - 1];
      OfOp(rows[..|rows| - 1], op) + (if last.op == op then [last] else [])
  }

  lemma {:induction false} OfOpCount(rows: seq<Stored>, op: string, x: Stored)
    ensures multiset(OfOp(rows, op))[x] == if x.op == op then multiset(rows)[x] else 0
  {
    if rows != [] {
      var n := |rows| - 1;
      assert rows == rows[..n] + [rows[n]];
      OfOpCount(rows[..n], op, x);
    }
  }

  lemma OfOpSameBag(a: seq<Stored>, b: seq<Stored>, op: string)
    requires multiset(a) == multiset(b)
    ensures multiset(OfOp(a, op)) == multiset(OfOp(b, op))
  {
    forall x: Stored
      ensures multiset(OfOp(a, op))[x] == multiset(OfOp(b, op))[x]
    {
      OfOpCount(a, op, x);
      OfOpCount(b, op, x);
    }
  }

  /** A subsequence of rows in order is in order: every pair of op's rows is a pair of rows. */
  lemma {:induction false} OfOpInOrder(rows: seq<Stored>, op: string)
    requires InOrder(rows)
    ensures InOrder(OfOp(rows, op))
    ensures forall x :: x in OfOp(rows, op) ==> x in rows
  {
    if rows != [] {
      var n := |rows| - 1;
      var init, out := OfOp(rows[..n], op), OfOp(rows, op);
      OfOpInOrder(rows[..n], op);
      forall i, j | 0 <= i < j < |out|
        ensures KeyLess(out[i], out[j]) || out[i] == out[j]
      {
        if j == |init| {
          assert out[i] in rows[..n] && out[j] == rows[n];
          var k :| 0 <= k < n && rows[k] == out[i];
        }
      }
    }
  }

  function Payload(rows: seq<Stored>): (recs: seq<Record>)
    ensures |recs| == |rows|
    ensures forall i :: 0 <= i < |rows| ==> recs[i] == rows[i].rec
  {
    seq(|rows|, i requires 0 <= i < |rows| => rows[i].rec)
  }

  ghost function Rows(history: seq<Entry>): (rows: seq<Stored>)
    ensures |rows| == |history|
    ensures forall i :: 0 <= i < |rows| ==> rows[i] == history[i].row
  {
    seq(|history|, i requires 0 <= i < |history| => history[i].row)
  }

  /** The log the orchestrator assumes: op's records in append order. */
  ghost function LogOf(history: seq<Entry>, op: string): seq<Record> {
    Payload(OfOp(Rows(history), op))
  }

  lemma LogOfAppend(history: seq<Entry>, e: Entry, op: string)
    ensures LogOf(history + [e], op) ==
            if e.row.op == op then LogOf(history, op) + [e.row.rec] else LogOf(history, op)
  {
    assert Rows(history + [e])[..|history|] == Rows(history);
  }

  /** The operation's log got one more record, and no other log changed. */
  ghost predicate OneLogGrew(history: seq<Entry>, history': seq<Entry>, op: string, r: Record) {
    forall x :: LogOf(history', x) == LogOf(history, x) + (if x == op then [r] else [])
  }

  /** The entry was added and one operation's log got its record, or nothing happened. */
  ghost predicate AddedOrNot(history: seq<Entry>, history': seq<Entry>, e: Entry) {
    history' == history || (history' == history + [e] && OneLogGrew(history, history', e.row.op, e.row.rec))
  }

  lemma PlacedAnywhere(rows: seq<Stored>, at: nat, row: Stored)
    requires at <= |rows|
    ensures multiset(rows[..at] + [row] + rows[at..]) == multiset(rows) + multiset{row}
  {
    assert rows == rows[..at] + rows[at..];
  }

  lemma RowsAppend(history: seq<Entry>, e: Entry)
    ensures Rows(history + [e]) == Rows(history) + [e.row]
  {
  }

  // ---------- what orders the appends ----------

  /** Kept by the code: each store's seq rises along its appends. */
  ghost predicate SeqsRise(history: seq<Entry>) {
    forall i, j :: 0 <= i < j < |history| && history[i].store == history[j].store ==>
      history[i].row.seqNo < history[j].row.seqNo
  }

  /** Left to the server clock: never back within a store, strictly later across stores. */
  ghost predicate ClockRises(history: seq<Entry>) {
    forall i, j :: 0 <= i < j < |history| ==>
      if history[i].store == history[j].store then history[i].row.ts <= history[j].row.ts
      else history[i].row.ts < history[j].row.ts
  }

  lemma ClockGivesOrder(history: seq<Entry>)
    requires SeqsRise(history) && ClockRises(history)
    ensures InOrder(Rows(history))
  {
    var rows := Rows(history);
    forall i, j | 0 <= i < j < |rows|
      ensures KeyLess(rows[i], rows[j])
    {
      assert rows[i] == history[i].row && rows[j] == history[j].row;
    }
  }

  /** However the rows lie, sorting one operation's rows gives its log. */
  lemma SortedRowsAreTheLog(found: seq<Stored>, rows: seq<Stored>, history: seq<Entry>, op: string)
    requires SortedReading(found, multiset(OfOp(rows, op))) && multiset(rows) == multiset(Rows(history))
    requires SeqsRise(history) && ClockRises(history)
    ensures Payload(found) == LogOf(history, op)
  {
    OfOpSameBag(rows, Rows(history), op);
    ClockGivesOrder(history);
    OfOpInOrder(Rows(history), op);
    InOrderReadsBack(found, OfOp(Rows(history), op));
  }

  method Scan(found: seq<Stored>) returns (recs: seq<Record>)
    ensures recs == Payload(found)
  {
    recs := [];
    var i := 0;
    while i < |found|
      invariant 0 <= i <= |found| && recs == Payload(found[..i])
    {
      recs := recs + [found[i].rec];
      i := i + 1;
    }
    assert found[..i] == found;
  }

  /** seq restarts in each store, so equal stamps across two stores rewind the log. */
  lemma EqualStampsRewind(r1: Record, r2: Record, op: string)
    requires r1 != r2
    ensures
      var history := [Entry(0, Stored(5, 1, op, r1)), Entry(0, Stored(5, 2, op, r1)), Entry(1, Stored(5, 1, op, r2))];
      SeqsRise(history) && !InOrder(Rows(history))
  {
    var history := [Entry(0, Stored(5, 1, op, r1)), Entry(0, Stored(5, 2, op, r1)), Entry(1, Stored(5, 1, op, r2))];
    var rows := Rows(history);
    assert !KeyLess(rows[1], rows[2]) && rows[1] != rows[2];
  }

  // ---------- the table and the stores ----------

  /** The state table on the server.  The script gives, per statement, its outcome, the clock,
      and where the row happens to be put. */
  class StateTable {
    var present: bool
    var conforms: bool  // does a caller-owned table meet the column contract?
    var rows: seq<Stored>
    var now: nat
    var script: seq<(Outcome, nat, nat)>
    ghost var history: seq<Entry>
    ghost var stores: nat

    ghost predicate Valid()
      reads this
    {
      && multiset(rows) == multiset(Rows(history))
      && SeqsRise(history)
      && forall e :: e in history ==> e.store < stores
    }

    constructor (script: seq<(Outcome, nat, nat)>)
      ensures Valid() && history == [] && this.script == script && !present && conforms
    {
      present, conforms, rows, now, history, stores := false, true, [], 0, [], 0;
      this.script := script;
    }

    /** Every statement from here on succeeds. */
    ghost predicate Smooth()
      reads this`script
    {
      forall i :: 0 <= i < |script| ==> script[i].0.Applied?
    }

    method Next() returns (outcome: Outcome, place: nat)
      modifies this`script, this`now
      ensures old(Smooth()) ==> Smooth() && outcome.Applied?
      ensures old(now) <= now
    {
      if script == [] {
        return Applied, 0;
      }
      var step := script[0];
      script := script[1..];
      now := now + step.1;
      return step.0, step.2;
    }
  }

  class SQLStore {
    const conn: StateTable
    var ensured: bool
    var external: bool
    var seqNo: nat
    ghost const id: nat

    ghost predicate Valid()
      reads this, conn
    {
      && conn.Valid() && id < conn.stores
      && (forall e :: e in conn.history && e.store == id ==> e.row.seqNo <= seqNo)
      && (ensured ==> conn.present)
    }

    constructor (conn: StateTable)
      requires conn.Valid()
      modifies conn`stores
      ensures Valid() && this.conn == conn && seqNo == 0 && conn.history == old(conn.history)
      ensures !ensured && !external
      ensures id == old(conn.stores) && conn.stores == old(conn.stores) + 1
    {
      this.conn, ensured, external, seqNo := conn, false, false, 0;
      id := conn.stores;
      new;
      conn.stores := conn.stores + 1;
    }

    /** Will a statement of this store find a table it can use? */
    ghost predicate Usable()
      reads this, conn
    {
      ensured || (external ==> conn.present && conn.conforms)
    }

    /** A table declared the caller's is not used unless it was found to meet the contract. */
    ghost predicate Vetted()
      reads this, conn
    {
      external && ensured ==> conn.conforms
    }

    /** Chained to the constructor, as it is meant, this keeps the table vetted; declared when the
        store is already in use, the table is not looked at any more. */
    method UseExistingTable()
      requires Valid()
      modifies this`external
      ensures Valid() && external && (Vetted() <==> old(!ensured) || conn.conforms)
    {
      external := true;
    }

    /** Create the table, or check a caller-owned one; the work is done once, after it first
        succeeds. */
    method Ensure() returns (ok: bool)
      requires Valid()
      modifies this`ensured, conn`script, conn`now, conn`present
      ensures Valid() && (ok <==> ensured) && (old(ensured) ==> ensured && conn.script == old(conn.script))
      ensures external || old(ensured) ==> conn.present == old(conn.present)
      ensures old(Vetted()) ==> Vetted()
      ensures old(conn.Smooth()) ==> conn.Smooth() && (old(Usable()) ==> ok && conn.present)
    {
      if ensured {
        return true;
      }
      var outcome, _ := conn.Next();
      if external {
        ok := outcome.Applied? && conn.present && conn.conforms;
      } else {
        if !outcome.Lost? {
          conn.present := true;
        }
        ok := outcome.Applied?;
      }
      if ok {
        ensured := true;
      }
    }

    method Append(op: string, r: Record) returns (ok: bool)
      requires Valid()
      modifies this`ensured, this`seqNo, conn`script, conn`now, conn`present, conn`rows, conn`history
      ensures Valid() && (external ==> conn.present == old(conn.present))
      ensures old(Vetted()) ==> Vetted() && (external && conn.history != old(conn.history) ==> conn.conforms)
      ensures seqNo == old(seqNo) + (if ensured then 1 else 0)
      ensures AddedOrNot(old(conn.history), conn.history, Entry(id, Stored(conn.now, seqNo, op, r)))
      ensures if ensured then ok ==> conn.history != old(conn.history) else !ok && conn.history == old(conn.history)
      ensures old(conn.Smooth()) ==> conn.Smooth() && (ok <==> old(Usable())) && (!external ==> ok)
    {
      ok := Ensure();
      if !ok {
        return;
      }
      ok := Insert(op, r);
    }

    /** The INSERT; seq rises even if it fails. */
    method Insert(op: string, r: Record) returns (ok: bool)
      requires Valid() && ensured
      modifies this`seqNo, conn`script, conn`now, conn`rows, conn`history
      ensures Valid() && seqNo == old(seqNo) + 1
      ensures AddedOrNot(old(conn.history), conn.history, Entry(id, Stored(conn.now, seqNo, op, r)))
      ensures ok ==> conn.history != old(conn.history)
      ensures old(conn.Smooth()) ==> conn.Smooth() && ok
    {
      seqNo := seqNo + 1;
      var outcome, place := conn.Next();
      if outcome.Lost? {
        return false;
      }
      var at := if place <= |conn.rows| then place else |conn.rows|;
      Place(Stored(conn.now, seqNo, op, r), at);
      ok := outcome.Applied?;
    }

    method Place(row: Stored, at: nat)
      requires conn.Valid() && id < conn.stores && at <= |conn.rows|
      requires forall e :: e in conn.history && e.store == id ==> e.row.seqNo < row.seqNo
      modifies conn`rows, conn`history
      ensures conn.Valid() && conn.history == old(conn.history) + [Entry(id, row)]
      ensures OneLogGrew(old(conn.history), conn.history, row.op, row.rec)
    {
      ghost var before, entry := conn.history, Entry(id, row);
      PlacedAnywhere(conn.rows, at, row);
      RowsAppend(before, entry);
      forall x
        ensures LogOf(before + [entry], x) == LogOf(before, x) + (if x == row.op then [row.rec] else [])
      {
        LogOfAppend(before, entry, x);
      }
      conn.rows := conn.rows[..at] + [row] + conn.rows[at..];
      conn.history := before + [entry];
    }

    /** SELECT ... WHERE op_id = op ORDER BY ts, seq, scanned row by row. */
    method Records(op: string) returns (ok: bool, recs: seq<Record>)
      requires Valid()
      modifies this`ensured, conn`script, conn`now, conn`present
      ensures Valid() && conn.history == old(conn.history)
      ensures old(Vetted()) ==> Vetted() && (external && ok ==> conn.conforms)
      ensures ok && ClockRises(conn.history) ==> recs == LogOf(conn.history, op)
      ensures old(conn.Smooth()) ==> conn.Smooth() && (ok <==> old(Usable()))
    {
      recs := [];
      ok := Ensure();
      if !ok {
        return;
      }
      var outcome, _ := conn.Next();
      if !outcome.Applied? {
        return false, [];
      }
      recs := Select(op);
    }

    method Select(op: string) returns (recs: seq<Record>)
      requires Valid()
      ensures ClockRises(conn.history) ==> recs == LogOf(conn.history, op)
    {
      var found := Sort(OfOp(conn.rows, op));
      recs := Scan(found);
      if ClockRises(conn.history) {
        SortedRowsAreTheLog(found, conn.rows, conn.history, op);
      }
    }
  }

  datatype StoreCall = Declare | Append(op: string, rec: Record) | Read(op: string)

  /** Any calls on one store, used says whether an append or a read succeeded.  On a table declared
      the caller's in time, none does unless the table meets the contract, however often it is
      tried; and however many calls failed, the store goes on with its own table as soon as
      statements succeed again. */
  method Drive(store: SQLStore, calls: seq<StoreCall>) returns (used: bool)
    requires store.Valid()
    modifies store, store.conn
    ensures store.Valid() && store.conn.conforms == old(store.conn.conforms)
    ensures old(store.external && store.Vetted()) ==> store.external && store.Vetted()
    ensures old(store.external && store.Vetted() && !store.conn.conforms) ==>
      !used && store.conn.history == old(store.conn.history)
    ensures old(store.conn.Smooth() && !store.external) && Declare !in calls && calls != [] ==> used
    ensures store.conn.Smooth() && !store.external ==> store.Usable()
  {
    used := false;
    var i := 0;
    while i < |calls|
      invariant 0 <= i <= |calls| && store.Valid() && store.conn.conforms == old(store.conn.conforms)
      invariant old(store.external && store.Vetted()) ==> store.external && store.Vetted()
      invariant old(store.external && store.Vetted() && !store.conn.conforms) ==>
        !used && store.conn.history == old(store.conn.history)
      invariant old(store.conn.Smooth() && !store.external) && Declare !in calls ==>
        store.conn.Smooth() && !store.external && (i > 0 ==> used)
    {
      var ok := false;
      match calls[i] {
        case Declare => store.UseExistingTable();
        case Append(op, r) => ok := store.Append(op, r);
        case Read(op) => var recs; ok, recs := store.Records(op);
      }
      used := used || ok;
      i := i + 1;
    }
  }

  /** A store already in use does not look at the table any more: one that does not meet the
      contract takes records after it was declared the caller's. */
  method DeclaredLate(op: string, r: Record) returns (store: SQLStore, first: bool, second: bool)
    ensures first && second && store.Valid() && store.external && !store.conn.conforms && |store.conn.history| == 2
  {
    var conn := new StateTable([]);
    conn.present, conn.conforms := true, false;
    store := new SQLStore(conn);
    assert conn.Smooth();
    first := store.Append(op, r);
    store.UseExistingTable();
    second := store.Append(op, r);
  }

  /** What one store does: on a table of its own or the caller's, append some records. */
  datatype Session = Session(external: bool, recs: seq<Record>)

  /** Any number of stores, one after another, each appending what it likes: the table stays
      readable in append order, whatever was lost and wherever rows were put. */
  method Sessions(conn: StateTable, op: string, sessions: seq<Session>)
    requires conn.Valid()
    modifies conn
    ensures conn.Valid()
    ensures ClockRises(conn.history) ==>
      forall out, x :: SortedReading(out, multiset(OfOp(conn.rows, x))) ==> Payload(out) == LogOf(conn.history, x)
  {
    var i := 0;
    while i < |sessions|
      invariant conn.Valid()
    {
      var store := new SQLStore(conn);
      if sessions[i].external {
        store.UseExistingTable();
      }
      var j := 0;
      while j < |sessions[i].recs|
        invariant store.Valid() && store.conn == conn
      {
        var _ := store.Append(op, sessions[i].recs[j]);
        j := j + 1;
      }
      i := i + 1;
    }
    if ClockRises(conn.history) {
      forall out, x | SortedReading(out, multiset(OfOp(conn.rows, x)))
        ensures Payload(out) == LogOf(conn.history, x)
      {
        SortedRowsAreTheLog(out, conn.rows, conn.history, x);
      }
    }
  }
}
