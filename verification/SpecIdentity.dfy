/** What the spec's hash tells the rebuild: the link from the hashed content to the guard of a
    run and to the definitions a table is built from. */
module SpecIdentity {
  import opened Text
  import opened Warehouse
  import opened Journal
  import opened Protocol
  import opened Statements
  import opened Operations
  import H = SpecHash

  /** The part of a spec that is hashed; mvs holds the texts of supplied view definitions. */
  datatype Source = Source(base: H.Base, ddl: string, mvs: map<string, string>) {
    function Digest(sha: string -> string): string {
      sha(H.Preimage(base.Bytes(), ddl, mvs))
    }

    ghost predicate NulFree() { H.AllNulFree(base, ddl, mvs) }
  }

  /** s is what the source says, and carries its digest. */
  ghost predicate MadeFrom(s: Spec, x: Source, sha: string -> string, parse: string -> NewDef) {
    && s.hash == x.Digest(sha) && s.newDDL == x.ddl
    && s.newMVs == map m | m in x.mvs :: parse(x.mvs[m])
  }

  ghost predicate CollisionFree(sha: string -> string) {
    forall a, b :: sha(a) == sha(b) ==> a == b
  }

  /** Equal hashes come from equal sources, and so with equal definitions. */
  lemma EqualHashEqualSource(s: Spec, x: Source, s': Spec, x': Source, sha: string -> string, parse: string -> NewDef)
    requires CollisionFree(sha) && x.NulFree() && x'.NulFree()
    requires MadeFrom(s, x, sha, parse) && MadeFrom(s', x', sha, parse)
    ensures s.hash == s'.hash <==> x == x'
    ensures s.hash == s'.hash ==> s.newMVs == s'.newMVs && s.newDDL == s'.newDDL
  {
    H.ChangeIsNoticed(sha, x.base, x.ddl, x.mvs, x'.base, x'.ddl, x'.mvs);
  }

  /** What a takeover asks for holds: a table that was begun under one such spec is continued
      under another only with the same supplied definitions. */
  lemma HashTellsDefinitions(c: Setting, w: World, s: Spec, x: Source, s': Spec, x': Source,
                             sha: string -> string, parse: string -> NewDef)
    requires CollisionFree(sha) && x.NulFree() && x'.NulFree()
    requires MadeFrom(s, x, sha, parse) && MadeFrom(s', x', sha, parse)
    requires w.book.build.hash == s.hash && w.book.build.supplied == s.newMVs
    ensures HashTells(c, w, s')
  {
    EqualHashEqualSource(s, x, s', x', sha, parse);
  }

  /** The guard lets a run continue a log if and only if the hashed content is unchanged. */
  lemma GuardNoticesChange(c: Setting, log: seq<Record>, s: Spec, x: Source, x': Source,
                           sha: string -> string, parse: string -> NewDef)
    requires CollisionFree(sha) && x.NulFree() && x'.NulFree()
    requires MadeFrom(s, x, sha, parse) && MadeFrom(c.spec, x', sha, parse)
    requires log != [] && Last(log).hash == s.hash
    ensures Guarded(c, log) <==> x == x'
  {
    EqualHashEqualSource(s, x, c.spec, x', sha, parse);
  }

  /** Of a spec built by a program the guard sees name, target, table and view definitions only:
      the list of views, the validations, the boundary column and the tuning may change unnoticed.
      With another list a run goes on filling the same table, built from the views of both lists;
      an abort or a cutover leaves a copy without its table if and only if a view that has one is
      no longer listed. */
  lemma GuardOverlooks(c: Setting, c': Setting, w: World, x: Source, sha: string -> string, parse: string -> NewDef)
    requires Inv(c, w) && Tracked(c, w) && Bounded(w) && c'.defs.Keys == Names(c')
    requires MadeFrom(c.spec, x, sha, parse) && x.base == H.Built(c.spec.name, c.spec.targetTable)
    requires c'.spec == c.spec.(mvs := c'.spec.mvs, validations := c'.spec.validations,
                                boundaryColumn := c'.spec.boundaryColumn, backfill := c'.spec.backfill)
    ensures MadeFrom(c'.spec, x, sha, parse) && (Guarded(c', w.log) <==> Guarded(c, w.log))
    ensures AfterCreate(c', w).Defs().Keys == w.Defs().Keys + Names(c')
    ensures Unlisted(c', w.db) == {} <==>
      forall m :: m in w.Defs() && V2Name(m) in w.db.views ==> c'.Listed(m)
  {
    assert c'.V2() == c.V2();
    UnlistedIff(c, c', w);
    JoinedNames(c', w);
  }
}
