/** The append-only progress log of one rebuild, and what is read out of it. */
module Journal {
  import opened Text

  datatype Phase =
    | Created | DualWrite | LagDrained | Backfilled | Validated | ValidationFailed | CutOver | Aborted

  datatype Status = Done | BoundarySet | Failed

  datatype Record = Record(hash: string, phase: Phase, status: Status, cursor: string, detail: string)

  const SECOND: nat := 1_000_000_000

  function Last(log: seq<Record>): Record
    requires log != []
  {
    log[|log| - 1]
  }

  // ---------- the boundary T ----------

  /** The detail text of the record that persists boundary t (whole seconds). */
  function BoundaryDetail(t: nat): string {
    "T=" + Dec(t / SECOND)
  }

  function ParseBoundary(detail: string): Option<nat> {
    if HasPrefix(detail, "T=") then
      match ParseDec(detail[2..])
      case None => None
      case Some(s) => Some(SECOND * s)
    else None
  }

  function TruncateToSecond(t: nat): nat {
    t - t % SECOND
  }

  /** A truncated boundary reads back as itself. */
  lemma BoundaryReadsBack(t: nat)
    ensures ParseBoundary(BoundaryDetail(TruncateToSecond(t))) == Some(TruncateToSecond(t))
  {
    var u := TruncateToSecond(t);
    ParseDecDec(u / SECOND);
    assert BoundaryDetail(u)[2..] == Dec(u / SECOND);
    assert BoundaryDetail(u)[..2] == "T=";
    TruncationIsWhole(t);
  }

  lemma TruncationIsWhole(t: nat)
    ensures SECOND * (TruncateToSecond(t) / SECOND) == TruncateToSecond(t)
  {
    assert t == SECOND * (t / SECOND) + t % SECOND;
  }

  /** The boundary in force after log: the first one recorded since the last abort. */
  function Boundary(log: seq<Record>): Option<nat> {
    if log == [] then None
    else if Last(log).phase == Aborted then None
    else
      var before := Boundary(log[..|log| - 1]);
      if before.Some? then before else ParseBoundary(Last(log).detail)
  }

  lemma BoundaryAppend(log: seq<Record>, r: Record)
    ensures Boundary(log + [r]) ==
            if r.phase == Aborted then None
            else if Boundary(log).Some? then Boundary(log) else ParseBoundary(r.detail)
  {
    assert (log + [r])[..|log|] == log;
  }

  lemma {:induction false} NoBoundaryBeforeAbort(log: seq<Record>, k: nat)
    requires k < |log| && log[k].phase == Aborted
    requires forall i :: k < i < |log| ==> log[i].phase != Aborted && ParseBoundary(log[i].detail).None?
    ensures Boundary(log).None?
  {
    if k < |log| - 1 {
      NoBoundaryBeforeAbort(log[..|log| - 1], k);
    }
  }

  lemma {:induction false} NoBoundaryAtAll(log: seq<Record>)
    requires forall i :: 0 <= i < |log| ==> log[i].phase != Aborted && ParseBoundary(log[i].detail).None?
    ensures Boundary(log).None?
  {
    if log != [] {
      NoBoundaryAtAll(log[..|log| - 1]);
    }
  }

  lemma {:induction false} FirstBoundaryWins(log: seq<Record>, lo: nat, k: nat)
    requires lo <= k < |log|
    requires lo == 0 || log[lo - 1].phase == Aborted
    requires forall i :: lo <= i < |log| ==> log[i].phase != Aborted
    requires forall i :: lo <= i < k ==> ParseBoundary(log[i].detail).None?
    requires ParseBoundary(log[k].detail).Some?
    ensures Boundary(log) == ParseBoundary(log[k].detail)
  {
    var n := |log| - 1;
    if k < n {
      FirstBoundaryWins(log[..n], lo, k);
    } else if lo == 0 {
      NoBoundaryAtAll(log[..n]);
    } else {
      NoBoundaryBeforeAbort(log[..n], lo - 1);
    }
  }

  /** No abort from record k on. */
  ghost predicate Since(log: seq<Record>, k: nat) {
    k < |log| && forall j :: k <= j < |log| ==> log[j].phase != Aborted
  }

  /** Record k is the first after the last abort to carry a boundary. */
  ghost predicate InForce(log: seq<Record>, k: nat) {
    Since(log, k) && ParseBoundary(log[k].detail).Some? &&
    forall j: nat :: j < k && Since(log, j) ==> ParseBoundary(log[j].detail).None?
  }

  /** Two passes: find the last abort, then the first parsable boundary after it. */
  method BoundaryFrom(recs: seq<Record>) returns (t: nat, isNew: bool)
    ensures Boundary(recs) == if isNew then None else Some(t)
    ensures isNew ==> forall k: nat :: Since(recs, k) ==> ParseBoundary(recs[k].detail).None?
    ensures !isNew ==> exists k: nat :: InForce(recs, k) && ParseBoundary(recs[k].detail) == Some(t)
  {
    var next := 0;
    var i := 0;
    while i < |recs|
      invariant 0 <= next <= i <= |recs|
      invariant next > 0 ==> recs[next - 1].phase == Aborted
      invariant forall j :: next <= j < i ==> recs[j].phase != Aborted
    {
      if recs[i].phase == Aborted {
        next := i + 1;
      }
      i := i + 1;
    }
    i := next;
    while i < |recs|
      invariant next <= i <= |recs|
      invariant forall j :: next <= j < i ==> ParseBoundary(recs[j].detail).None?
    {
      var parsed := ParseBoundary(recs[i].detail);
      if parsed.Some? {
        FirstBoundaryWins(recs, next, i);
        assert InForce(recs, i);
        return parsed.value, false;
      }
      i := i + 1;
    }
    if next == 0 {
      NoBoundaryAtAll(recs);
    } else {
      NoBoundaryBeforeAbort(recs, next - 1);
    }
    return 0, true;
  }

  // ---------- completed chunks ----------

  predicate CompletesChunk(r: Record) {
    r.phase == Backfilled && r.status == Done
  }

  /** Cursors of every chunk ever recorded as done, aborted epochs included. */
  function Completed(log: seq<Record>): set<string> {
    set r | r in log && CompletesChunk(r) :: r.cursor
  }

  lemma CompletedAppend(log: seq<Record>, r: Record)
    ensures Completed(log + [r]) == if CompletesChunk(r) then Completed(log) + {r.cursor} else Completed(log)
  {
    forall x {:trigger x in Completed(log + [r])}
      ensures x in Completed(log + [r]) <==> x in Completed(log) || (CompletesChunk(r) && x == r.cursor)
    {
      if x in Completed(log) {
        var y :| y in log && CompletesChunk(y) && y.cursor == x;
        assert y in log + [r];
      }
      if CompletesChunk(r) && r.cursor == x {
        assert r in log + [r];
      }
    }
  }

  method CompletedChunks(recs: seq<Record>) returns (done: set<string>)
    ensures done == Completed(recs)
    ensures forall x :: x in done <==>
      exists i :: 0 <= i < |recs| && recs[i].cursor == x && recs[i].phase == Backfilled && recs[i].status == Done
  {
    done := {};
    var i := 0;
    while i < |recs|
      invariant 0 <= i <= |recs|
      invariant done == Completed(recs[..i])
    {
      assert recs[..i + 1] == recs[..i] + [recs[i]];
      CompletedAppend(recs[..i], recs[i]);
      if CompletesChunk(recs[i]) {
        done := done + {recs[i].cursor};
      }
      i := i + 1;
    }
    assert recs[..i] == recs;
    forall x ensures x in done <==>
      exists k :: 0 <= k < |recs| && recs[k].cursor == x && recs[k].phase == Backfilled && recs[k].status == Done
    {
      CompletedIs(recs, x);
    }
  }

  lemma CompletedIs(log: seq<Record>, x: string)
    ensures x in Completed(log) <==>
      exists k :: 0 <= k < |log| && log[k].cursor == x && log[k].phase == Backfilled && log[k].status == Done
  {
    if x in Completed(log) {
      var r :| r in log && CompletesChunk(r) && r.cursor == x;
      var k :| 0 <= k < |log| && log[k] == r;
    }
    if k :| 0 <= k < |log| && log[k].cursor == x && log[k].phase == Backfilled && log[k].status == Done {
      assert log[k] in log && CompletesChunk(log[k]);
    }
  }

  // ---------- the shape of a log ----------

  /** Has the epoch since the last abort a record of this phase and status? */
  predicate EpochHas(log: seq<Record>, phase: Phase, status: Status) {
    log != [] && Last(log).phase != Aborted &&
    ((Last(log).phase == phase && Last(log).status == status) || EpochHas(log[..|log| - 1], phase, status))
  }

  /** May r be appended to log? */
  predicate Fits(log: seq<Record>, r: Record) {
    && r.hash != ""
    && (r.phase == CutOver ==> log != [] && Last(log).phase == Validated)
    && (r.phase == Aborted ==> log == [] || Last(log).phase != CutOver)
    && (log != [] && r.hash != Last(log).hash ==> r.phase == Aborted || r.phase == CutOver)
    && (r.phase == Validated ==> EpochHas(log, DualWrite, BoundarySet) && EpochHas(log, LagDrained, Done))
    && (r.status == BoundarySet ==>
          r.phase == DualWrite && Boundary(log).None? && ParseBoundary(r.detail).Some?)
    && (r.phase != Aborted && Boundary(log).None? && ParseBoundary(r.detail).Some? ==> r.status == BoundarySet)
  }

  /** Every record was admissible when it was appended. */
  predicate WellShaped(log: seq<Record>) {
    log == [] || (WellShaped(log[..|log| - 1]) && Fits(log[..|log| - 1], Last(log)))
  }

  lemma ShapeAppend(log: seq<Record>, r: Record)
    requires WellShaped(log) && Fits(log, r)
    ensures WellShaped(log + [r])
  {
    assert (log + [r])[..|log|] == log;
  }

  lemma {:induction false} ShapeAt(log: seq<Record>, i: nat)
    requires WellShaped(log) && i < |log|
    ensures Fits(log[..i], log[i])
  {
    if i < |log| - 1 {
      ShapeAt(log[..|log| - 1], i);
      assert log[..|log| - 1][..i] == log[..i];
    }
  }

  lemma {:induction false} EpochWitness(log: seq<Record>, phase: Phase, status: Status) returns (k: nat)
    requires EpochHas(log, phase, status)
    ensures k < |log| && log[k].phase == phase && log[k].status == status
    ensures forall j :: k <= j < |log| ==> log[j].phase != Aborted
  {
    var n := |log| - 1;
    if log[n].phase == phase && log[n].status == status {
      k := n;
    } else {
      k := EpochWitness(log[..n], phase, status);
    }
  }

  lemma {:induction false} BoundarySetGivesBoundary(log: seq<Record>, i: nat)
    requires WellShaped(log) && i < |log| && log[i].status == BoundarySet
    requires forall k :: i < k < |log| ==> log[k].phase != Aborted
    ensures Boundary(log).Some?
  {
    var n := |log| - 1;
    if i < n {
      BoundarySetGivesBoundary(log[..n], i);
    } else {
      ShapeAt(log, i);
    }
  }

  /** A boundary in force comes from this epoch's boundary record. */
  lemma {:induction false} BoundaryIsRecorded(log: seq<Record>)
    requires WellShaped(log) && Boundary(log).Some?
    ensures EpochHas(log, DualWrite, BoundarySet)
  {
    var init := log[..|log| - 1];
    if Boundary(init).Some? {
      BoundaryIsRecorded(init);
    }
  }

  lemma EpochAppend(log: seq<Record>, r: Record, phase: Phase, status: Status)
    requires r.phase != Aborted
    ensures EpochHas(log + [r], phase, status) <==>
            (r.phase == phase && r.status == status) || EpochHas(log, phase, status)
  {
    assert (log + [r])[..|log|] == log;
  }

  /** Is k before i, in the same epoch, with this phase? */
  ghost predicate Earlier(log: seq<Record>, k: nat, i: nat, phase: Phase) {
    k < i <= |log| && log[k].phase == phase && forall j :: k <= j < i ==> log[j].phase != Aborted
  }

  /** What the shape means, record by record. */
  lemma {:induction false} ShapeByIndex(log: seq<Record>, i: nat)
    requires WellShaped(log) && i < |log|
    ensures log[i].phase == CutOver ==> i > 0 && log[i - 1].phase == Validated
    ensures log[i].phase == Aborted && i > 0 ==> log[i - 1].phase != CutOver
    ensures i > 0 && log[i].hash != log[i - 1].hash ==> log[i].phase == Aborted || log[i].phase == CutOver
    ensures log[i].phase == Validated ==>
      && (exists b: nat :: Earlier(log, b, i, DualWrite) && log[b].status == BoundarySet)
      && (exists d: nat :: Earlier(log, d, i, LagDrained))
  {
    ShapeAt(log, i);
    if log[i].phase == Validated {
      var b := EpochWitness(log[..i], DualWrite, BoundarySet);
      assert Earlier(log, b, i, DualWrite);
      var d := EpochWitness(log[..i], LagDrained, Done);
      assert Earlier(log, d, i, LagDrained);
    }
  }

  /** Between two boundary records there is always an abort. */
  lemma OneBoundaryPerEpoch(log: seq<Record>, i: nat, j: nat)
    requires WellShaped(log) && i < j < |log|
    requires log[i].status == BoundarySet && log[j].status == BoundarySet
    ensures exists k :: i < k < j && log[k].phase == Aborted
  {
    ShapeAt(log, j);
    if forall k :: i < k < j ==> log[k].phase != Aborted {
      ShapePrefix(log, j);
      BoundarySetGivesBoundary(log[..j], i);
    }
  }

  lemma {:induction false} ShapePrefix(log: seq<Record>, j: nat)
    requires WellShaped(log) && j <= |log|
    ensures WellShaped(log[..j])
  {
    if j < |log| {
      ShapePrefix(log[..|log| - 1], j);
      assert log[..|log| - 1][..j] == log[..j];
    } else {
      assert log[..j] == log;
    }
  }
}
