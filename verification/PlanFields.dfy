/**
 What a plan says about each declared check, field by field (src/config.rs:528-585,
 716-737).
 */
module PlanFields {
  import opened Common
  import opened Order
  import opened ConfigModel
  import opened CheckGraph
  import opened PlanSpec

  /** The contract as declared, naming the check that produces the artifact. */
  predicate SameContract(a: ArtifactContract, n: NormalizedContract, id: string) {
    && n.path == a.path && n.kind == a.kind && n.maxBytes == a.maxBytes && n.maxEntries == a.maxEntries
    && n.producerCheck == id
  }

  /** The check as declared: everything kept, the contracts in declared order, dependencies
      and artifacts the same values in ascending order. */
  predicate SameCheck(d: CheckConfig, n: NormalizedCheck) {
    && n.id == d.id && n.required == d.required && n.argv == d.argv
    && n.workingDirectory == d.workingDirectory && n.timeoutSeconds == d.timeoutSeconds
    && Ascending(n.dependsOn) && Elements(n.dependsOn) == Elements(d.dependsOn)
    && Ascending(n.artifacts) && Elements(n.artifacts) == Elements(d.artifacts)
    && |n.artifactContracts| == |d.artifactContracts|
    && forall i :: 0 <= i < |d.artifactContracts| ==> SameContract(d.artifactContracts[i], n.artifactContracts[i], d.id)
  }

  lemma CanonicalIsSame(d: CheckConfig)
    ensures SameCheck(d, Canonical(d))
  {
    var n := Canonical(d);
    assert n.artifactContracts == Produced(d.artifactContracts, d.id);
  }

  lemma ScheduledById(index: map<string, NormalizedCheck>, result: seq<NormalizedCheck>, id: string)
    requires IsSchedule(index, result) && id in index
    ensures index[id] in result && index[id].id == id
  {
    var ids := NormalizedIds(result);
    assert Elements(ids) == GraphOf(index).Keys;
    assert id in Elements(ids);
    var i :| 0 <= i < |ids| && ids[i] == id;
    assert result[i] in result && result[i].id == id;
  }

  /** Every declared check is in the plan, as declared, and the plan has no other. */
  lemma PlanKeepsChecks(c: Config, digest: Digest<string>, plan: Plan)
    requires IsPlan(c, digest, plan)
    ensures forall d :: d in c.checks ==> exists n :: n in plan.checks && SameCheck(d, n)
    ensures forall n :: n in plan.checks ==> exists d :: d in c.checks && SameCheck(d, n)
    ensures Unique(NormalizedIds(plan.checks))
  {
    assert PlansChecks(c.checks, plan.checks);
    ChecksAreKept(c.checks, plan.checks);
  }

  lemma ChecksAreKept(checks: seq<CheckConfig>, result: seq<NormalizedCheck>)
    requires IsChecks(checks, result)
    ensures forall d :: d in checks ==> exists n :: n in result && SameCheck(d, n)
    ensures forall n :: n in result ==> exists d :: d in checks && SameCheck(d, n)
    ensures Unique(NormalizedIds(result))
  {
    var index :| IsIndex(checks, index) && IsSchedule(index, result);
    forall d | d in checks
      ensures exists n :: n in result && SameCheck(d, n)
    {
      ScheduledById(index, result, d.id);
      CanonicalIsSame(d);
    }
    forall n | n in result
      ensures exists d :: d in checks && SameCheck(d, n)
    {
      var d := IndexedCheck(checks, index, n.id);
      CanonicalIsSame(d);
    }
    OrderIsUnique(GraphOf(index), NormalizedIds(result));
  }

  lemma OrderIsUnique(g: Graph, o: seq<string>)
    requires Feasible(g, o)
    ensures Unique(o)
  {
    forall i, j | 0 <= i < j < |o|
      ensures o[i] != o[j]
    {
      assert Ready(g, Elements(o[..j]), o[j]);
      assert o[..j][i] == o[i];
    }
  }

  /** The plan has a storage policy exactly for the schema versions that ask for one: the
      declared bounds, and the sum of the planned contracts' bytes. */
  lemma PlanKeepsStorage(c: Config, digest: Digest<string>, plan: Plan)
    requires IsPlan(c, digest, plan)
    ensures plan.storage.Some? <==> c.schemaVersion == "1.2" || c.schemaVersion == "1.3"
    ensures plan.storage.Some? ==>
      && c.storage.Some?
      && plan.storage.value.minFreeBytes == c.storage.value.minFreeBytes
      && plan.storage.value.receiptJournalReserveBytes == c.storage.value.receiptJournalReserveBytes
      && plan.storage.value.maxCacheGrowthBytes == c.storage.value.maxCacheGrowthBytes
      && plan.storage.value.maxArtifactBytes == ArtifactBytes(plan.checks)
  {
  }
}
