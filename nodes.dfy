/** `NodeInfo`: one cluster node and the cloud resources behind it, and the
    per-node steps of the run: building the record, attaching the instance
    document, and tagging the node's resources. */
module Nodes {
  import opened Wrappers
  import opened Documents
  import opened Tags
  import opened Tagging
  import opened ProviderId
  import opened Batching

  /** The node label that names the availability zone. */
  const ZoneLabel := "failure-domain.beta.kubernetes.io/zone"

  class NodeInfo {
    const name: string
    const region: string
    const instanceId: string
    const zone: string
    /** The describe answers' `Disks.Disk`, `Snapshots.Snapshot` and
        `NetworkInterfaceSets.NetworkInterfaceSet`, None when absent. */
    const disks: Json
    const snapshots: Json
    const networkInterfaces: Json
    /** The instance document; None until the batched describe attaches it. */
    var info: Json

    constructor (name: string, region: string, instanceId: string, zone: string,
                 disks: Json, snapshots: Json, networkInterfaces: Json)
      ensures this.name == name && this.region == region && this.instanceId == instanceId
      ensures this.zone == zone && this.disks == disks && this.snapshots == snapshots
      ensures this.networkInterfaces == networkInterfaces
      ensures info == Null
    {
      this.name := name;
      this.region := region;
      this.instanceId := instanceId;
      this.zone := zone;
      this.disks := disks;
      this.snapshots := snapshots;
      this.networkInterfaces := networkInterfaces;
      info := Null;
    }

    /** The tag-apply calls `tag_resources` issues for this node. */
    function TagPlan(key: string, value: string, save: bool): Plan
      reads this
    {
      NodePlan(info, instanceId, disks, snapshots, networkInterfaces, key, value, save)
    }

    /** `tag_resource`: one ECS tag-apply call for one resource and one pair;
        `apply` stands for the provider and answers whether a response came
        back (`resp != None`). */
    method TagResource(resourceType: string, id: Json, key: string, value: string,
                       apply: TagRequest -> bool)
      returns (request: TagRequest, ok: bool)
      ensures request.resourceIds == [id] && request.tags == [TagPair(key, value)]
      ensures request.service == Ecs && request.resourceType == resourceType
      ensures ok == apply(request)
    {
      request := Request(Ecs, resourceType, id, key, value);
      ok := apply(request);
    }

    /** One of the three resource loops of `tag_resources`: check each
        resource, apply the tag to the untagged ones when saving, and go on to
        the next resource whatever the apply call answered. */
    method TagEach(resourceType: string, idField: string, collection: Json,
                   key: string, value: string, save: bool, apply: TagRequest -> bool)
      returns (issued: seq<TagRequest>, succeeded: seq<bool>, failure: Option<Raised>)
      ensures Plan(issued, failure) == Collection(Ecs, resourceType, idField, collection, key, value, save)
      ensures Answered(issued, succeeded, apply)
    {
      issued, succeeded := [], [];
      var records := Records(collection);
      if records.Err? {
        return [], [], Some(records.error);
      }
      var items := records.value;
      EachFromStart(Ecs, resourceType, idField, items, key, value, save);
      var i := 0;
      while i < |items|
        invariant 0 <= i <= |items|
        invariant EachFrom(Ecs, resourceType, idField, items, i, issued, key, value, save) ==
                  EachFrom(Ecs, resourceType, idField, items, 0, [], key, value, save)
        invariant Answered(issued, succeeded, apply)
      {
        var id := Get(items[i], idField);
        if id.Err? {
          return issued, succeeded, Some(id.error);
        }
        var tagged := TagExists(items[i], key, value);
        if tagged.Err? {
          return issued, succeeded, Some(tagged.error);
        }
        if !tagged.value && save {
          var request, ok := TagResource(resourceType, id.value, key, value, apply);
          AnsweredOne(issued, succeeded, request, ok, apply);
          issued, succeeded := issued + [request], succeeded + [ok];
        } else {
          assert issued + [] == issued;
        }
        i := i + 1;
      }
      failure := None;
    }

    /** `tag_resources`: the instance, then its disks, snapshots and network
        interfaces. The calls issued are exactly `TagPlan`, which does not
        depend on `apply`: a failed apply never stops the remaining resources. */
    method TagResources(key: string, value: string, save: bool, apply: TagRequest -> bool)
      returns (issued: seq<TagRequest>, succeeded: seq<bool>, failure: Option<Raised>)
      ensures Plan(issued, failure) == TagPlan(key, value, save)
      ensures Answered(issued, succeeded, apply)
    {
      issued, succeeded := [], [];
      var tagged := TagExists(info, key, value);
      if tagged.Err? {
        return [], [], Some(tagged.error);
      }
      if !tagged.value && save {
        var request, ok := TagResource("instance", Str(instanceId), key, value, apply);
        issued, succeeded := [request], [ok];
      }
      assert Plan(issued, None) == InstancePlan(info, instanceId, key, value, save);
      var dPlan := Collection(Ecs, "disk", "DiskId", disks, key, value, save);
      var sPlan := Collection(Ecs, "snapshot", "SnapshotId", snapshots, key, value, save);
      var nPlan := Collection(Ecs, "eni", "NetworkInterfaceId", networkInterfaces, key, value, save);
      ThenAfter(issued, dPlan, Then(sPlan, nPlan));
      var d, dOk, s, sOk, n, nOk;
      d, dOk, failure := TagEach("disk", "DiskId", disks, key, value, save, apply);
      AnsweredAppend(issued, succeeded, d, dOk, apply);
      issued, succeeded := issued + d, succeeded + dOk;
      if failure.Some? {
        return;
      }
      ThenAfter(issued, sPlan, nPlan);
      s, sOk, failure := TagEach("snapshot", "SnapshotId", snapshots, key, value, save, apply);
      AnsweredAppend(issued, succeeded, s, sOk, apply);
      issued, succeeded := issued + s, succeeded + sOk;
      if failure.Some? {
        return;
      }
      n, nOk, failure := TagEach("eni", "NetworkInterfaceId", networkInterfaces, key, value, save, apply);
      AnsweredAppend(issued, succeeded, n, nOk, apply);
      issued, succeeded := issued + n, succeeded + nOk;
    }
  }

  /** The ids the batching loop collects, `node.instance_id` for each node in turn. */
  function InstanceIds(nodes: seq<NodeInfo>): seq<string>
  {
    seq(|nodes|, i requires 0 <= i < |nodes| => nodes[i].instanceId)
  }

  /** The node's provider id parses and its labels carry the zone: the part
      of `NodeInfo.__init__` that reads only the node object succeeds. */
  predicate Placed(providerId: Option<string>, labels: Option<map<string, string>>)
  {
    providerId.Some? && ParseProviderId(providerId.value).Ok? && labels.Some? && ZoneLabel in labels.value
  }

  /** `NodeInfo.__init__`: split the provider id, read the zone label, and keep
      the resource lists from the three describe answers (None for a failed
      call, on which `find_by_path` raises). The provider id and the labels
      are optional fields of the node object, None when the node lacks them. */
  method BuildNodeInfo(name: string, providerId: Option<string>, labels: Option<map<string, string>>,
                       disksAnswer: Json, snapshotsAnswer: Json, interfacesAnswer: Json)
    returns (r: Result<NodeInfo>)
    ensures providerId.None? ==> r == Err(NoAttribute)
    ensures providerId.Some? && ParseProviderId(providerId.value).Err? ==> r == Err(IndexOutOfRange)
    ensures providerId.Some? && ParseProviderId(providerId.value).Ok? && labels.None? ==> r == Err(NotSubscriptable)
    ensures providerId.Some? && ParseProviderId(providerId.value).Ok? && labels.Some? && ZoneLabel !in labels.value ==>
              r == Err(MissingKey)
    ensures Placed(providerId, labels) && Resolve(disksAnswer, ["Disks", "Disk"]).Err? ==>
              r == Err(Resolve(disksAnswer, ["Disks", "Disk"]).error)
    ensures Placed(providerId, labels) && Resolve(disksAnswer, ["Disks", "Disk"]).Ok? &&
            Resolve(snapshotsAnswer, ["Snapshots", "Snapshot"]).Err? ==>
              r == Err(Resolve(snapshotsAnswer, ["Snapshots", "Snapshot"]).error)
    ensures Placed(providerId, labels) && Resolve(disksAnswer, ["Disks", "Disk"]).Ok? &&
            Resolve(snapshotsAnswer, ["Snapshots", "Snapshot"]).Ok? &&
            Resolve(interfacesAnswer, ["NetworkInterfaceSets", "NetworkInterfaceSet"]).Err? ==>
              r == Err(Resolve(interfacesAnswer, ["NetworkInterfaceSets", "NetworkInterfaceSet"]).error)
    ensures r.Ok? <==> Placed(providerId, labels) &&
                       Resolve(disksAnswer, ["Disks", "Disk"]).Ok? &&
                       Resolve(snapshotsAnswer, ["Snapshots", "Snapshot"]).Ok? &&
                       Resolve(interfacesAnswer, ["NetworkInterfaceSets", "NetworkInterfaceSet"]).Ok?
    ensures r.Ok? ==> fresh(r.value) && r.value.info == Null && r.value.name == name &&
                      (r.value.region, r.value.instanceId) == ParseProviderId(providerId.value).value &&
                      r.value.zone == labels.value[ZoneLabel] &&
                      r.value.disks == Resolve(disksAnswer, ["Disks", "Disk"]).value &&
                      r.value.snapshots == Resolve(snapshotsAnswer, ["Snapshots", "Snapshot"]).value &&
                      r.value.networkInterfaces ==
                        Resolve(interfacesAnswer, ["NetworkInterfaceSets", "NetworkInterfaceSet"]).value
  {
    if providerId.None? {
      return Err(NoAttribute);
    }
    var parsed := ParseProviderId(providerId.value);
    if parsed.Err? {
      return Err(parsed.error);
    }
    if labels.None? {
      return Err(NotSubscriptable);
    }
    if ZoneLabel !in labels.value {
      return Err(MissingKey);
    }
    var disks := FindByPath(disksAnswer, ["Disks", "Disk"]);
    if disks.Err? {
      return Err(disks.error);
    }
    var snapshots := FindByPath(snapshotsAnswer, ["Snapshots", "Snapshot"]);
    if snapshots.Err? {
      return Err(snapshots.error);
    }
    var interfaces := FindByPath(interfacesAnswer, ["NetworkInterfaceSets", "NetworkInterfaceSet"]);
    if interfaces.Err? {
      return Err(interfaces.error);
    }
    var node := new NodeInfo(name, parsed.value.0, parsed.value.1, labels.value[ZoneLabel],
                             disks.value, snapshots.value, interfaces.value);
    r := Ok(node);
  }

  /** The last loop of `destribe_ecs_instances`: `node.info =
      instance_map[node.instance_id]` for each node in turn, raising at the
      first node whose id the map lacks. */
  method AttachInfo(nodes: seq<NodeInfo>, instanceMap: map<Json, Json>)
    returns (failure: Option<Raised>)
    modifies set n | n in nodes
    ensures failure.None? <==> forall i :: 0 <= i < |nodes| ==> Str(nodes[i].instanceId) in instanceMap
    ensures failure.None? ==>
      forall i :: 0 <= i < |nodes| ==> nodes[i].info == instanceMap[Str(nodes[i].instanceId)]
    ensures failure.Some? ==> failure == Some(MissingKey)
    ensures failure.Some? ==>
      exists k :: 0 <= k < |nodes| && Str(nodes[k].instanceId) !in instanceMap &&
        (forall i :: 0 <= i < k ==> Str(nodes[i].instanceId) in instanceMap &&
                                    nodes[i].info == instanceMap[Str(nodes[i].instanceId)]) &&
        (forall n :: n in nodes[k..] && n !in nodes[..k] ==> n.info == old(n.info))
  {
    var i := 0;
    while i < |nodes|
      invariant 0 <= i <= |nodes|
      invariant forall j :: 0 <= j < i ==> Str(nodes[j].instanceId) in instanceMap &&
                                           nodes[j].info == instanceMap[Str(nodes[j].instanceId)]
      invariant forall n :: n in nodes[i..] && n !in nodes[..i] ==> n.info == old(n.info)
    {
      var key := Str(nodes[i].instanceId);
      if key !in instanceMap {
        return Some(MissingKey);
      }
      nodes[i].info := instanceMap[key];
      assert nodes[..i + 1] == nodes[..i] + [nodes[i]];
      forall n | n in nodes[i + 1..] && n !in nodes[..i + 1]
        ensures n.info == old(n.info)
      {
        assert n in nodes[i..];
      }
      i := i + 1;
    }
    failure := None;
  }

  /** `destribe_ecs_instances`: describe the nodes' instances in batches,
      then attach each node's document. */
  method DescribeEcsInstances(nodes: seq<NodeInfo>, describe: seq<string> -> Json)
    returns (calls: seq<seq<string>>, failure: Option<Raised>)
    modifies set n | n in nodes
    ensures var d := DescribeAll(map[], Batches(InstanceIds(nodes)), describe);
      calls == d.calls &&
      (d.result.Err? ==> failure == Some(d.result.error) && forall n :: n in nodes ==> n.info == old(n.info)) &&
      (d.result.Ok? ==>
        (failure.None? <==> forall i :: 0 <= i < |nodes| ==> Str(nodes[i].instanceId) in d.result.value) &&
        (failure.None? ==> forall i :: 0 <= i < |nodes| ==>
           nodes[i].info == d.result.value[Str(nodes[i].instanceId)]))
  {
    var result;
    calls, result := BatchDescribe(InstanceIds(nodes), describe);
    if result.Err? {
      return calls, Some(result.error);
    }
    failure := AttachInfo(nodes, result.value);
  }

  /** The calls the run issues for all nodes, `node.tag_resources(...)` for
      each node in turn; an exception ends the run. */
  function NodesPlan(nodes: seq<NodeInfo>, key: string, value: string, save: bool): Plan
    reads nodes
    decreases |nodes|
  {
    if nodes == [] then Plan([], None)
    else Then(nodes[0].TagPlan(key, value, save), NodesPlan(nodes[1..], key, value, save))
  }

  /** Every call goes to the ECS tag API with one resource id and the one pair. */
  ghost predicate SingleEcsCalls(requests: seq<TagRequest>, key: string, value: string)
  {
    forall i :: 0 <= i < |requests| ==>
      requests[i].service == Ecs && |requests[i].resourceIds| == 1 && requests[i].tags == [TagPair(key, value)]
  }

  /** Across all nodes, a dry run issues nothing, and every call carries one
      resource id and the one pair. */
  lemma {:induction false} NodesPlanProperties(nodes: seq<NodeInfo>, key: string, value: string, save: bool)
    ensures !save ==> NodesPlan(nodes, key, value, save).requests == []
    ensures SingleEcsCalls(NodesPlan(nodes, key, value, save).requests, key, value)
    decreases |nodes|
  {
    if nodes != [] {
      var node := nodes[0];
      var first := node.TagPlan(key, value, save);
      var rest := NodesPlan(nodes[1..], key, value, save);
      NodePlanProperties(node.info, node.instanceId, node.disks, node.snapshots, node.networkInterfaces,
                         key, value, save);
      assert SingleEcsCalls(first.requests, key, value);
      NodesPlanProperties(nodes[1..], key, value, save);
      if first.failure.None? {
        var all := first.requests + rest.requests;
        assert forall i :: |first.requests| <= i < |all| ==> all[i] == rest.requests[i - |first.requests|];
      }
    }
  }

  /** One turn of the node loop: the plan from node `i` on is node `i`'s plan,
      then (unless it raised) the plan from node `i + 1` on. */
  lemma NodesPlanStep(nodes: seq<NodeInfo>, i: nat, done: seq<TagRequest>, key: string, value: string, save: bool)
    requires i < |nodes|
    ensures var first := nodes[i].TagPlan(key, value, save);
      Then(Plan(done, None), NodesPlan(nodes[i..], key, value, save)) ==
      if first.failure.Some? then Plan(done + first.requests, first.failure)
      else Then(Plan(done + first.requests, None), NodesPlan(nodes[i + 1..], key, value, save))
  {
    assert nodes[i..][0] == nodes[i] && nodes[i..][1..] == nodes[i + 1..];
    ThenAfter(done, nodes[i].TagPlan(key, value, save), NodesPlan(nodes[i + 1..], key, value, save));
  }

  /** Each node's own plan, in node order. */
  function NodePlans(nodes: seq<NodeInfo>, key: string, value: string, save: bool): (plans: seq<Plan>)
    reads nodes
    ensures |plans| == |nodes|
  {
    seq(|nodes|, j requires 0 <= j < |nodes| reads nodes => nodes[j].TagPlan(key, value, save))
  }

  /** Running the node plans from node `i` after `done` is running `done`,
      then `NodesPlan` on the remaining nodes. */
  lemma {:induction false} NodePlansFrom(nodes: seq<NodeInfo>, i: nat, done: seq<TagRequest>,
                                         key: string, value: string, save: bool)
    requires i <= |nodes|
    ensures SequenceFrom(NodePlans(nodes, key, value, save), i, done) ==
            Then(Plan(done, None), NodesPlan(nodes[i..], key, value, save))
    decreases |nodes| - i
  {
    if i == |nodes| {
      assert nodes[i..] == [] && done + [] == done;
    } else {
      NodesPlanStep(nodes, i, done, key, value, save);
      var p := nodes[i].TagPlan(key, value, save);
      if p.failure.None? {
        NodePlansFrom(nodes, i + 1, done + p.requests, key, value, save);
      }
    }
  }

  /** The loop that tags every node's resources, one node after the other. */
  method TagNodes(nodes: seq<NodeInfo>, key: string, value: string, save: bool, apply: TagRequest -> bool)
    returns (issued: seq<TagRequest>, succeeded: seq<bool>, failure: Option<Raised>)
    ensures Plan(issued, failure) == NodesPlan(nodes, key, value, save)
    ensures Answered(issued, succeeded, apply)
  {
    issued, succeeded := [], [];
    ghost var plans := NodePlans(nodes, key, value, save);
    NodePlansFrom(nodes, 0, [], key, value, save);
    assert nodes[0..] == nodes;
    assert [] + NodesPlan(nodes, key, value, save).requests == NodesPlan(nodes, key, value, save).requests;
    var i := 0;
    while i < |nodes|
      invariant 0 <= i <= |nodes| == |plans|
      invariant NodesPlan(nodes, key, value, save) == SequenceFrom(plans, 0, [])
      invariant SequenceFrom(plans, i, issued) == SequenceFrom(plans, 0, [])
      invariant forall j :: i <= j < |nodes| ==> nodes[j].TagPlan(key, value, save) == plans[j]
      invariant Answered(issued, succeeded, apply)
    {
      var more, answers, raised := nodes[i].TagResources(key, value, save, apply);
      assert Plan(more, raised) == plans[i];
      AnsweredAppend(issued, succeeded, more, answers, apply);
      issued, succeeded := issued + more, succeeded + answers;
      if raised.Some? {
        return issued, succeeded, raised;
      }
      i := i + 1;
    }
    failure := None;
  }
}
