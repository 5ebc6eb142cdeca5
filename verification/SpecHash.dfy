/** The content hash that guards a resumed run: what is fed to the hash, and when it is
    current. */
module SpecHash {
  import opened Text
  import opened Ordering

  const NUL: char := '\0'

  // ---------- what is hashed ----------

  function Entries(ks: seq<string>, defs: map<string, string>): seq<string>
    requires forall k :: k in ks ==> k in defs
  {
    if ks == [] then []
    else Entries(ks[..|ks| - 1], defs) + [ks[|ks| - 1], defs[ks[|ks| - 1]]]
  }

  /** What the hash starts from: the raw file of a loaded spec, or name and target of one built
      by a program. */
  datatype Base = Loaded(raw: string) | Built(name: string, target: string) {
    function Parts(): seq<string> {
      match this
      case Loaded(raw) => [raw]
      case Built(name, target) => [name, target]
    }

    function Bytes(): string {
      match this
      case Loaded(raw) => raw
      case Built(name, target) => name + [NUL] + target
    }
  }

  /** The bytes fed to the hash. */
  function Preimage(base: string, ddl: string, defs: map<string, string>): string {
    Join([base, ddl] + Entries(SortedKeys(defs.Keys), defs), NUL)
  }

  /** All content, in one canonical list. */
  function Content(base: Base, ddl: string, defs: map<string, string>): seq<string> {
    base.Parts() + [ddl] + Entries(SortedKeys(defs.Keys), defs)
  }

  lemma JoinHead(a: string, rest: seq<string>)
    requires rest != []
    ensures Join([a] + rest, NUL) == a + [NUL] + Join(rest, NUL)
  {
    assert ([a] + rest)[1..] == rest;
  }

  /** A first piece that holds a separator counts as two. */
  lemma JoinTwo(a: string, b: string, rest: seq<string>)
    requires rest != []
    ensures Join([a + [NUL] + b] + rest, NUL) == Join([a, b] + rest, NUL)
  {
    JoinHead(a + [NUL] + b, rest);
    JoinHead(b, rest);
    JoinHead(a, [b] + rest);
    assert [a] + ([b] + rest) == [a, b] + rest;
    Regroup(a, b, Join(rest, NUL));
  }

  lemma Regroup(a: string, b: string, tail: string)
    ensures a + [NUL] + b + [NUL] + tail == a + [NUL] + (b + [NUL] + tail)
  {
  }

  lemma PreimageIsContent(base: Base, ddl: string, defs: map<string, string>)
    ensures Preimage(base.Bytes(), ddl, defs) == Join(Content(base, ddl, defs), NUL)
  {
    var entries := Entries(SortedKeys(defs.Keys), defs);
    assert [base.Bytes(), ddl] + entries == [base.Bytes()] + ([ddl] + entries);
    assert base.Parts() + [ddl] + entries == base.Parts() + ([ddl] + entries);
    if base.Built? { JoinTwo(base.name, base.target, [ddl] + entries); }
  }

  predicate NulFree(s: string) { NUL !in s }

  ghost predicate AllNulFree(base: Base, ddl: string, defs: map<string, string>) {
    && (forall i :: 0 <= i < |base.Parts()| ==> NulFree(base.Parts()[i])) && NulFree(ddl)
    && forall k :: k in defs ==> NulFree(k) && NulFree(defs[k])
  }

  lemma {:induction false} EntriesNulFree(ks: seq<string>, defs: map<string, string>)
    requires forall k :: k in ks ==> k in defs && NulFree(k) && NulFree(defs[k])
    ensures |Entries(ks, defs)| == 2 * |ks|
    ensures forall i :: 0 <= i < |Entries(ks, defs)| ==> NulFree(Entries(ks, defs)[i])
  {
    if ks != [] {
      EntriesNulFree(ks[..|ks| - 1], defs);
    }
  }

  lemma {:induction false} EntriesAt(ks: seq<string>, defs: map<string, string>, i: nat)
    requires i < |ks| && forall k :: k in ks ==> k in defs
    ensures |Entries(ks, defs)| == 2 * |ks|
    ensures Entries(ks, defs)[2 * i] == ks[i] && Entries(ks, defs)[2 * i + 1] == defs[ks[i]]
  {
    var n := |ks| - 1;
    if n > 0 {
      EntriesAt(ks[..n], defs, if i < n then i else 0);
    }
  }

  lemma ContentSplits(base: Base, ddl: string, defs: map<string, string>)
    requires AllNulFree(base, ddl, defs)
    ensures Split(Preimage(base.Bytes(), ddl, defs), NUL) == Content(base, ddl, defs)
    ensures |Content(base, ddl, defs)| == |base.Parts()| + 1 + 2 * |SortedKeys(defs.Keys)|
  {
    EntriesNulFree(SortedKeys(defs.Keys), defs);
    PreimageIsContent(base, ddl, defs);
    SplitJoin(Content(base, ddl, defs), NUL);
  }

  lemma EntriesDetermine(defs: map<string, string>, defs': map<string, string>)
    requires Entries(SortedKeys(defs.Keys), defs) == Entries(SortedKeys(defs'.Keys), defs')
    ensures forall k :: k in defs ==> k in defs' && defs'[k] == defs[k]
  {
    var ks, ks' := SortedKeys(defs.Keys), SortedKeys(defs'.Keys);
    forall k | k in defs
      ensures k in defs' && defs'[k] == defs[k]
    {
      var i :| 0 <= i < |ks| && ks[i] == k;
      EntriesAt(ks, defs, i);
      if ks' != [] { EntriesAt(ks', defs', 0); }
      EntriesAt(ks', defs', i);
      assert ks'[i] in ks';
    }
  }

  lemma SameThird(p: seq<string>, d: string, e: seq<string>, p': seq<string>, d': string, e': seq<string>)
    requires |p| == |p'| && p + [d] + e == p' + [d'] + e'
    ensures p == p' && d == d' && e == e'
  {
    var n, a, b := |p|, p + [d] + e, p' + [d'] + e';
    assert a[..n] == p && b[..n] == p';
    assert a[n] == d && b[n] == d';
    assert a[n + 1..] == e && b[n + 1..] == e';
  }

  lemma SameParts(base: Base, base': Base)
    requires base.Parts() == base'.Parts()
    ensures base == base'
  {
    assert base.Parts()[0] == base'.Parts()[0];
    if base.Built? && base'.Built? { assert base.Parts()[1] == base'.Parts()[1]; }
  }

  /** One of two bases has one part and the other two, so they agree in parity or not at all. */
  lemma SameLength(base: Base, base': Base, k: nat, k': nat)
    requires |base.Parts()| + 1 + 2 * k == |base'.Parts()| + 1 + 2 * k'
    ensures |base.Parts()| == |base'.Parts()|
  {
  }

  /** The hashed text determines the base, the table definition and every view definition; a
      loaded spec never has the text of a built one. */
  lemma PreimageInjective(base: Base, ddl: string, defs: map<string, string>,
                          base': Base, ddl': string, defs': map<string, string>)
    requires AllNulFree(base, ddl, defs) && AllNulFree(base', ddl', defs')
    requires Preimage(base.Bytes(), ddl, defs) == Preimage(base'.Bytes(), ddl', defs')
    ensures base == base' && ddl == ddl' && defs == defs'
  {
    ContentSplits(base, ddl, defs);
    ContentSplits(base', ddl', defs');
    SameLength(base, base', |SortedKeys(defs.Keys)|, |SortedKeys(defs'.Keys)|);
    SameThird(base.Parts(), ddl, Entries(SortedKeys(defs.Keys), defs),
              base'.Parts(), ddl', Entries(SortedKeys(defs'.Keys), defs'));
    SameParts(base, base');
    EntriesDetermine(defs, defs');
    EntriesDetermine(defs', defs);
  }

  /** With a collision-free hash the guard notices a change exactly when there is one. */
  lemma ChangeIsNoticed(sha: string -> string, base: Base, ddl: string, defs: map<string, string>,
                        base': Base, ddl': string, defs': map<string, string>)
    requires forall a, b :: sha(a) == sha(b) ==> a == b
    requires AllNulFree(base, ddl, defs) && AllNulFree(base', ddl', defs')
    ensures sha(Preimage(base.Bytes(), ddl, defs)) == sha(Preimage(base'.Bytes(), ddl', defs'))
        <==> base == base' && ddl == ddl' && defs == defs'
  {
    if sha(Preimage(base.Bytes(), ddl, defs)) == sha(Preimage(base'.Bytes(), ddl', defs')) {
      PreimageInjective(base, ddl, defs, base', ddl', defs');
    }
  }

  // ---------- the spec ----------

  class Spec {
    var name: string
    var targetTable: string
    var newDDL: string
    var newMVs: map<string, string>
    var hash: string
    const sha: string -> string

    constructor (name: string, targetTable: string, sha: string -> string)
      ensures this.name == name && this.targetTable == targetTable && this.sha == sha
      ensures newDDL == "" && newMVs == map[] && hash == ""
    {
      this.name, this.targetTable, this.sha := name, targetTable, sha;
      newDDL, newMVs, hash := "", map[], "";
    }

    /** A spec read from files: the hash starts from the raw text. */
    constructor Load(raw: string, name: string, targetTable: string, ddl: string, mvs: map<string, string>,
                     sha: string -> string)
      ensures this.name == name && this.targetTable == targetTable && this.sha == sha
      ensures newDDL == ddl && newMVs == mvs && hash == sha(Preimage(Loaded(raw).Bytes(), ddl, mvs))
    {
      this.name, this.targetTable, this.sha := name, targetTable, sha;
      newDDL, newMVs, hash := ddl, mvs, "";
      new;
      hash := SumHash(raw);
    }

    /** The hash is that of the current content. */
    ghost predicate Current()
      reads this
    {
      hash == sha(Preimage(Built(name, targetTable).Bytes(), newDDL, newMVs))
    }

    method SumHash(base: string) returns (digest: string)
      ensures digest == sha(Preimage(base, newDDL, newMVs))
    {
      var fed := base + [NUL] + newDDL;
      var names := SortedKeys(newMVs.Keys);
      ghost var head := [base, newDDL];
      JoinMore([base], newDDL);
      assert head == [base] + [newDDL];
      assert names[..0] == [] && head + Entries(names[..0], newMVs) == head;
      var i := 0;
      while i < |names|
        invariant 0 <= i <= |names|
        invariant fed == Join(head + Entries(names[..i], newMVs), NUL)
      {
        assert names[i] in names;
        FeedMore(head, names, i, newMVs);
        fed := fed + [NUL] + names[i] + [NUL] + newMVs[names[i]];
        i := i + 1;
      }
      assert names[..i] == names;
      digest := sha(fed);
    }

    method SetNewDDL(ddl: string)
      modifies this`newDDL, this`hash
      ensures newDDL == ddl && Current()
    {
      newDDL := ddl;
      hash := SumHash(name + [NUL] + targetTable);
    }

    method SetMVDDL(mv: string, ddl: string)
      modifies this`newMVs, this`hash
      ensures newMVs == old(newMVs)[mv := ddl] && Current()
    {
      newMVs := newMVs[mv := ddl];
      hash := SumHash(name + [NUL] + targetTable);
    }
  }

  /** Two specs with current hashes: equal hashes mean that name, target and all definitions are. */
  lemma CurrentHashTells(s: Spec, s': Spec)
    requires s.Current() && s'.Current() && s.sha == s'.sha && forall a, b :: s.sha(a) == s.sha(b) ==> a == b
    requires AllNulFree(Built(s.name, s.targetTable), s.newDDL, s.newMVs)
    requires AllNulFree(Built(s'.name, s'.targetTable), s'.newDDL, s'.newMVs)
    ensures s.hash == s'.hash <==>
      s.name == s'.name && s.targetTable == s'.targetTable && s.newDDL == s'.newDDL && s.newMVs == s'.newMVs
  {
    ChangeIsNoticed(s.sha, Built(s.name, s.targetTable), s.newDDL, s.newMVs,
                    Built(s'.name, s'.targetTable), s'.newDDL, s'.newMVs);
  }

  lemma {:induction false} JoinMore(parts: seq<string>, x: string)
    requires parts != []
    ensures Join(parts + [x], NUL) == Join(parts, NUL) + [NUL] + x
  {
    if |parts| > 1 {
      JoinMore(parts[1..], x);
      assert (parts + [x])[1..] == parts[1..] + [x];
    } else {
      assert (parts + [x])[1..] == [x];
    }
  }

  /** Feeding one more name and definition. */
  lemma FeedMore(head: seq<string>, names: seq<string>, i: nat, defs: map<string, string>)
    requires head != [] && i < |names| && forall k :: k in names ==> k in defs
    ensures
      Join(head + Entries(names[..i + 1], defs), NUL)
      == Join(head + Entries(names[..i], defs), NUL) + [NUL] + names[i] + [NUL] + defs[names[i]]
  {
    assert names[..i + 1][..i] == names[..i];
    var before := head + Entries(names[..i], defs);
    JoinMore(before, names[i]);
    JoinMore(before + [names[i]], defs[names[i]]);
    assert head + Entries(names[..i + 1], defs) == before + [names[i]] + [defs[names[i]]];
  }

  // ---------- sequences of setter calls ----------

  datatype Setter = NewDDL(ddl: string) | MVDDL(mv: string, def: string)

  /** Table definition and view definitions after some calls. */
  function Settled(ddl: string, defs: map<string, string>, calls: seq<Setter>): (string, map<string, string>) {
    if calls == [] then (ddl, defs)
    else
      var r := Settled(ddl, defs, calls[..|calls| - 1]);
      match calls[|calls| - 1]
      case NewDDL(d) => (d, r.1)
      case MVDDL(mv, d) => (r.0, r.1[mv := d])
  }

  method Configure(s: Spec, calls: seq<Setter>)
    modifies s
    ensures s.name == old(s.name) && s.targetTable == old(s.targetTable)
    ensures (s.newDDL, s.newMVs) == Settled(old(s.newDDL), old(s.newMVs), calls)
    ensures calls != [] ==> s.Current()
  {
    var i := 0;
    while i < |calls|
      invariant 0 <= i <= |calls|
      invariant s.name == old(s.name) && s.targetTable == old(s.targetTable)
      invariant (s.newDDL, s.newMVs) == Settled(old(s.newDDL), old(s.newMVs), calls[..i])
      invariant i > 0 ==> s.Current()
    {
      assert calls[..i + 1][..i] == calls[..i];
      match calls[i] {
        case NewDDL(d) => s.SetNewDDL(d);
        case MVDDL(mv, d) => s.SetMVDDL(mv, d);
      }
      i := i + 1;
    }
    assert calls[..i] == calls;
  }

  ghost predicate DistinctMVs(calls: seq<Setter>) {
    (forall i :: 0 <= i < |calls| ==> calls[i].MVDDL?) &&
    forall i, j :: 0 <= i < j < |calls| ==> calls[i].mv != calls[j].mv
  }

  lemma {:induction false} SettledByMembership(ddl: string, defs: map<string, string>, calls: seq<Setter>)
    requires DistinctMVs(calls)
    ensures Settled(ddl, defs, calls).0 == ddl
    ensures forall c :: c in calls ==> c.mv in Settled(ddl, defs, calls).1 && Settled(ddl, defs, calls).1[c.mv] == c.def
    ensures forall k :: (forall c :: c in calls ==> c.mv != k) ==>
      (k in Settled(ddl, defs, calls).1 <==> k in defs) && (k in defs ==> Settled(ddl, defs, calls).1[k] == defs[k])
  {
    if calls != [] {
      var n := |calls| - 1;
      assert calls == calls[..n] + [calls[n]];
      SettledByMembership(ddl, defs, calls[..n]);
    }
  }

  /** The order in which view definitions are supplied does not matter. */
  lemma SettersCommute(ddl: string, defs: map<string, string>, calls: seq<Setter>, calls': seq<Setter>)
    requires DistinctMVs(calls) && DistinctMVs(calls')
    requires forall c :: c in calls <==> c in calls'
    ensures Settled(ddl, defs, calls) == Settled(ddl, defs, calls')
  {
    SettledByMembership(ddl, defs, calls);
    SettledByMembership(ddl, defs, calls');
    var a, b := Settled(ddl, defs, calls).1, Settled(ddl, defs, calls').1;
    forall k
      ensures (k in a <==> k in b) && (k in a ==> a[k] == b[k])
    {
      if c :| c in calls && c.mv == k {
        assert c in calls';
      } else {
        assert forall c :: c in calls' ==> c in calls && c.mv != k;
      }
    }
    assert a == b;
  }
}
