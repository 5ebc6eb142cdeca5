/** Backfill tuning: defaults, overrides, and the number of sub-chunks per chunk. */
module Limits {

  /** The part of the tuning that decides which chunks there are. */
  datatype Config = Config(targetRows: nat, maxBuckets: int, bucketKey: string) {

    /** Zero means unset: unset fields get the defaults, set ones are kept. */
    function WithDefaults(): (c: Config)
      ensures targetRows != 0 ==> c.targetRows == targetRows
      ensures maxBuckets != 0 ==> c.maxBuckets == maxBuckets
      ensures c.targetRows > 0 && c.maxBuckets != 0 && c.bucketKey == bucketKey
      ensures targetRows > 0 && maxBuckets != 0 ==> c == this
    {
      Config(
        if targetRows == 0 then 50_000_000 else targetRows,
        if maxBuckets == 0 then 256 else maxBuckets,
        bucketKey)
    }

    function Merge(over: Config): (c: Config)
      ensures over.targetRows > 0 ==> c.targetRows == over.targetRows
      ensures over.maxBuckets > 0 ==> c.maxBuckets == over.maxBuckets
      ensures over.bucketKey != "" ==> c.bucketKey == over.bucketKey
      ensures over.targetRows == 0 ==> c.targetRows == targetRows
      ensures over.maxBuckets <= 0 ==> c.maxBuckets == maxBuckets
      ensures over.bucketKey == "" ==> c.bucketKey == bucketKey
    {
      Config(
        if over.targetRows > 0 then over.targetRows else targetRows,
        if over.maxBuckets > 0 then over.maxBuckets else maxBuckets,
        if over.bucketKey != "" then over.bucketKey else bucketKey)
    }
  }

  /** The tuning a run uses: the caller's fields over the spec's over the defaults. */
  function Effective(spec: Config, over: Config): Config {
    spec.Merge(over).WithDefaults()
  }

  /** The first value that is set, if any. */
  function FirstSet(values: seq<int>): int {
    if values == [] then 0 else if values[0] != 0 then values[0] else FirstSet(values[1..])
  }

  /** Of the caller, the spec and the defaults the first that sets a field decides; a caller's
      negative limit counts as unset. */
  lemma EffectiveIsFirstSet(spec: Config, over: Config)
    ensures Effective(spec, over).targetRows == FirstSet([over.targetRows, spec.targetRows, 50_000_000])
    ensures Effective(spec, over).maxBuckets == FirstSet([Max(over.maxBuckets, 0), spec.maxBuckets, 256])
    ensures Effective(spec, over).bucketKey == if over.bucketKey != "" then over.bucketKey else spec.bucketKey
  {
    FirstOfThree(over.targetRows, spec.targetRows, 50_000_000);
    FirstOfThree(Max(over.maxBuckets, 0), spec.maxBuckets, 256);
  }

  lemma FirstOfThree(a: int, b: int, d: int)
    ensures FirstSet([a, b, d]) == if a != 0 then a else if b != 0 then b else d
  {
    assert [a, b, d][1..] == [b, d] && [b, d][1..] == [d] && [d][1..] == [];
    assert FirstSet([d]) == d && FirstSet([b, d]) == if b != 0 then b else d;
  }

  /** The effective tuning can be given back as the override, or the defaults be filled in
      early, without changing it; and only the spec can make the bucket limit negative. */
  lemma EffectiveIsStable(spec: Config, over: Config)
    requires over.maxBuckets >= 0
    ensures Effective(spec, Effective(spec, over)) == Effective(spec, over)
    ensures Effective(spec.WithDefaults(), over) == Effective(spec, over)
    ensures Effective(spec, over).maxBuckets < 1 <==> over.maxBuckets == 0 && spec.maxBuckets < 0
  {
  }

  const TWO_63: nat := 0x8000_0000_0000_0000
  const TWO_64: nat := 0x1_0000_0000_0000_0000

  /** Conversion of an unsigned 64-bit value to a signed one: the top bit is the sign. */
  function ToInt64(q: nat): int {
    var w := q % TWO_64;
    if w < TWO_63 then w else w - TWO_64
  }

  function Max(a: int, b: int): int { if a < b then b else a }

  function Min(a: int, b: int): int { if a < b then a else b }

  /** The sub-chunk count, computed without the overflow of rows + target - 1. */
  function Buckets(rows: nat, target: nat, maxBuckets: int): (n: int)
    ensures maxBuckets >= 1 ==> 1 <= n <= maxBuckets
    ensures maxBuckets < 1 && target > 0 ==> n == maxBuckets
  {
    if target == 0 then 1
    else
      var q := rows / target;
      var q' := if rows % target != 0 then q + 1 else q;
      Min(maxBuckets, Max(1, ToInt64(q')))
  }

  lemma CeilingInRange(rows: nat, target: nat)
    requires target > 0
    ensures rows / target <= rows
    ensures rows % target != 0 ==> rows / target + 1 <= rows
  {
    var q, r := rows / target, rows % target;
    assert rows == q * target + r;
    MulMonotone(q, 1, target);
  }

  /** n is the least number of chunks of target rows that holds them all. */
  predicate IsCeiling(rows: nat, target: nat, n: nat) {
    target * n >= rows && (n > 0 ==> target * (n - 1) < rows)
  }

  lemma CeilingIsUnique(rows: nat, target: nat, a: nat, b: nat)
    requires target > 0 && IsCeiling(rows, target, a) && IsCeiling(rows, target, b)
    ensures a == b
  {
    if a < b {
      MulMonotone(target, a, b - 1);
    } else if b < a {
      MulMonotone(target, b, a - 1);
    }
  }

  lemma QuotientIsCeiling(rows: nat, target: nat)
    requires target > 0
    ensures IsCeiling(rows, target, if rows % target != 0 then rows / target + 1 else rows / target)
  {
    var q, r := rows / target, rows % target;
    assert rows == target * q + r;
    assert target * (q + 1) == target * q + target;
    if q > 0 {
      assert target * (q - 1) == target * q - target;
    }
  }

  /** The count is the ceiling of rows / target clamped to [1, maxBuckets]; the one way
      out is a quotient that does not fit a signed 64-bit integer. */
  lemma BucketsIsClampedCeiling(rows: nat, target: nat, maxBuckets: int, ceiling: nat)
    requires rows < TWO_64 && target > 0
    requires IsCeiling(rows, target, ceiling)
    ensures Buckets(rows, target, maxBuckets) == Min(maxBuckets, Max(1, ceiling))
        <==> ceiling < TWO_63 || maxBuckets <= 1
  {
    var q := if rows % target != 0 then rows / target + 1 else rows / target;
    QuotientIsCeiling(rows, target);
    CeilingIsUnique(rows, target, ceiling, q);
    CeilingInRange(rows, target);
    SignBit(q);
  }

  /** What a run makes of a chunk value with some rows: the least number of chunks within the row
      target in force, or the limit in force if that is less; without any tuning, of 50 million
      rows and 256 chunks. */
  lemma RunSplits(spec: Config, over: Config, target: nat, limit: int, rows: nat, least: nat)
    requires target == FirstSet([over.targetRows, spec.targetRows, 50_000_000])
    requires limit == FirstSet([Max(over.maxBuckets, 0), spec.maxBuckets, 256]) && limit >= 1
    requires 0 < rows < TWO_64 && IsCeiling(rows, target, least) && least < TWO_63
    ensures Buckets(rows, Effective(spec, over).targetRows, Effective(spec, over).maxBuckets) == Min(least, limit)
  {
    EffectiveIsFirstSet(spec, over);
    var tuning := Effective(spec, over);
    BucketsIsClampedCeiling(rows, tuning.targetRows, tuning.maxBuckets, least);
  }

  predicate Untuned(config: Config) { config == Config(0, 0, "") }

  lemma UntunedSplits(spec: Config, over: Config, rows: nat, least: nat)
    requires Untuned(spec) && Untuned(over) && 0 < rows < TWO_64 && IsCeiling(rows, 50_000_000, least)
    ensures Buckets(rows, Effective(spec, over).targetRows, Effective(spec, over).maxBuckets) == Min(least, 256)
  {
    FirstOfThree(0, 0, 50_000_000);
    FirstOfThree(0, 0, 256);
    QuotientIsCeiling(rows, 50_000_000);
    var q := if rows % 50_000_000 != 0 then rows / 50_000_000 + 1 else rows / 50_000_000;
    CeilingIsUnique(rows, 50_000_000, least, q);
    RunSplits(spec, over, 50_000_000, 256, rows, least);
  }

  lemma SignBit(q: nat)
    requires q < TWO_64
    ensures if q < TWO_63 then ToInt64(q) == q else ToInt64(q) < 0
  {
    assert q % TWO_64 == q;
  }

  lemma MulMonotone(t: nat, a: nat, b: nat)
    requires a <= b
    ensures t * a <= t * b
  {
    assert t * b == t * a + t * (b - a);
  }
}
