/** Properties of a whole run: the cluster, every node's resources, then the
    load balancers, in that order. */
module Run {
  import opened Wrappers
  import opened Documents
  import opened Tags
  import opened Tagging
  import opened ClusterTags
  import opened Nodes
  import opened LoadBalancers

  /** The dry-run guarantee: with `save` false no call of the run changes a
      tag, neither on the cluster (with the dry-run guard of `TagCluster`) nor
      on any node resource or load balancer. */
  lemma DryRunChangesNothing(detail: ClusterDetail, nodes: seq<NodeInfo>, balancers: Json,
                             key: string, value: string)
    ensures !ClusterUpdate(detail, key, value, false).Submitted?
    ensures NodesPlan(nodes, key, value, false).requests == []
    ensures SlbPlan(balancers, key, value, false).requests == []
  {
    ClusterUpdateSubmitsOnlyWhenSaving(detail, key, value, false);
    NodesPlanProperties(nodes, key, value, false);
    SlbPlanProperties(balancers, key, value, false);
  }

  /** `r` after the provider applied the pair to it. */
  function WithPair(r: Resource, key: string, value: string): Resource
    requires r.tags.Some?
  {
    Resource(r.id, Some(r.tags.value + [TagPair(key, value)]))
  }

  /** Idempotence of the apply loop: once every resource of a list received the
      pair, a second saving run over the list issues no call. */
  lemma SecondRunIssuesNothing(service: Service, resourceType: string, idField: string,
                               resources: seq<Resource>, key: string, value: string)
    requires idField != "Tags"
    requires forall i :: 0 <= i < |resources| ==> resources[i].tags.Some?
    ensures var after := seq(|resources|, i requires 0 <= i < |resources| =>
                               ResourceDoc(WithPair(resources[i], key, value), idField));
            EachResource(service, resourceType, idField, after, key, value, true) == Plan([], None)
  {
    var after := seq(|resources|, i requires 0 <= i < |resources| =>
                       ResourceDoc(WithPair(resources[i], key, value), idField));
    forall i | 0 <= i < |after|
      ensures after[i].Obj? && TagExistsSpec(after[i], key, value) == Ok(true)
    {
      var r := WithPair(resources[i], key, value);
      TagExistsOnResource(r, idField, key, value);
      assert r.tags.value[|r.tags.value| - 1] == TagPair(key, value);
    }
    AllTaggedIssuesNothing(service, resourceType, idField, after, key, value);
  }
}
