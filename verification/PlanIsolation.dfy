/**
 Every plan is isolated in terms of locations: the string tests of the source are
 complete because every path in a plan has passed validation.
 */
module PlanIsolation {
  import opened Order
  import opened ConfigModel
  import opened PathIsolation
  import opened PlanSpec

  predicate GoodClaim(path: string) {
    ValidPath(path) && path != "."
  }

  lemma MountsAreValid(caches: seq<Cache>, result: seq<Cache>)
    requires PlansCaches(caches, result)
    ensures forall m :: m in Mounts(result) ==> GoodClaim(m)
  {
    forall m | m in Mounts(result)
      ensures GoodClaim(m)
    {
      var i :| 0 <= i < |result| && Mounts(result)[i] == m;
      assert result[i] in caches;
    }
  }

  /** Every planned check comes from a declared one. */
  lemma DeclaredCheck(checks: seq<CheckConfig>, result: seq<NormalizedCheck>, n: NormalizedCheck)
    returns (c: CheckConfig)
    requires IsChecks(checks, result) && n in result
    ensures c in checks && n == Canonical(c)
  {
    var index :| IsIndex(checks, index) && IsSchedule(index, result);
    c := IndexedCheck(checks, index, n.id);
  }

  lemma GoodCheckArtifact(c: CheckConfig, a: string)
    requires GoodCheck(c) && a in SortAll(c.artifacts)
    ensures GoodClaim(a)
  {
    assert a in Elements(SortAll(c.artifacts));
    assert GoodArtifact(a);
  }

  lemma ArtifactsAreValid(checks: seq<CheckConfig>, result: seq<NormalizedCheck>)
    requires PlansChecks(checks, result)
    ensures forall a :: a in AllArtifacts(result) ==> GoodClaim(a)
  {
    forall a | a in AllArtifacts(result)
      ensures GoodClaim(a)
    {
      var n := ArtifactOf(result, a);
      var c := DeclaredCheck(checks, result, n);
      GoodCheckArtifact(c, a);
    }
  }

  lemma {:induction false} ArtifactOf(checks: seq<NormalizedCheck>, a: string) returns (n: NormalizedCheck)
    requires a in AllArtifacts(checks)
    ensures n in checks && a in n.artifacts
    decreases |checks|
  {
    var last := |checks| - 1;
    if a in checks[last].artifacts {
      n := checks[last];
    } else {
      n := ArtifactOf(checks[..last], a);
    }
  }

  lemma ClaimsAreValid(plan: Plan)
    requires GoodClaim(plan.receipt.output)
    requires forall m :: m in Mounts(plan.caches) ==> GoodClaim(m)
    requires forall a :: a in AllArtifacts(plan.checks) ==> GoodClaim(a)
    ensures var claims := Claims(plan.receipt.output, plan.caches, plan.checks);
            forall p :: 0 <= p < |claims| ==> GoodClaim(claims[p])
  {
    var claims := Claims(plan.receipt.output, plan.caches, plan.checks);
    var mounts, artifacts := Mounts(plan.caches), AllArtifacts(plan.checks);
    forall p | 0 <= p < |claims|
      ensures GoodClaim(claims[p])
    {
      if p < |mounts| {
        assert claims[p] == mounts[p];
      } else if p > |mounts| {
        assert claims[p] == artifacts[p - |mounts| - 1];
      }
    }
  }

  /** No two distinct locations of a plan, among the receipt output, the mounts and the
      artifacts of all checks, are equal or nested. */
  lemma PlanLocationsAreApart(c: Config, digest: Digest<string>, plan: Plan)
    requires IsPlan(c, digest, plan)
    ensures var claims := Claims(plan.receipt.output, plan.caches, plan.checks);
            forall p, q :: 0 <= p < |claims| && 0 <= q < |claims| && p != q ==>
              !Nested(Split(claims[p]), Split(claims[q]))
  {
    var claims := Claims(plan.receipt.output, plan.caches, plan.checks);
    assert forall m :: m in Mounts(plan.caches) ==> GoodClaim(m) by {
      MountsAreValid(c.caches, plan.caches);
    }
    assert forall a :: a in AllArtifacts(plan.checks) ==> GoodClaim(a) by {
      ArtifactsAreValid(c.checks, plan.checks);
    }
    assert GoodClaim(c.receipt.output);
    ClaimsAreValid(plan);
    IsolationMeaning(claims);
  }
}
