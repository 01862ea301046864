/** The exists-check-then-apply decision shared by node resources and load
    balancers: which tag-apply calls a run issues, in which order. */
module Tagging {
  import opened Wrappers
  import opened Documents
  import opened Tags

  /** The provider API a tag-apply call goes to. */
  datatype Service = Ecs | Slb

  /** One tag-apply call: a resource type, the ids of the resources, the pairs. */
  datatype TagRequest = TagRequest(service: Service, resourceType: string,
                                   resourceIds: seq<Json>, tags: seq<TagPair>)

  /** The calls a run issues, in order, and the exception that ended it early. */
  datatype Plan = Plan(requests: seq<TagRequest>, failure: Option<Raised>)

  /** The request the program builds: one resource id, one `{Key, Value}` pair. */
  function Request(service: Service, resourceType: string, id: Json,
                   key: string, value: string): TagRequest
  {
    TagRequest(service, resourceType, [id], [TagPair(key, value)])
  }

  /** Run `first`, then `next` unless `first` raised. */
  function Then(first: Plan, next: Plan): Plan
  {
    if first.failure.Some? then first else Plan(first.requests + next.requests, next.failure)
  }

  /** What happens to one resource once its tag check answered `tagged`: an
      apply call only when it is untagged and `save` is set. */
  function Decide(service: Service, resourceType: string, id: Json, tagged: bool,
                  key: string, value: string, save: bool): seq<TagRequest>
  {
    if !tagged && save then [Request(service, resourceType, id, key, value)] else []
  }

  /** One turn of a resource loop: `id = item.get(idField)`, the tag check,
      the decision, then the `rest` of the loop. */
  function Visit(service: Service, resourceType: string, idField: string, item: Json,
                 key: string, value: string, save: bool, rest: Plan): Plan
  {
    match Get(item, idField)
    case Err(e) => Plan([], Some(e))
    case Ok(id) =>
      match TagExistsSpec(item, key, value)
      case Err(e) => Plan([], Some(e))
      case Ok(tagged) => Then(Plan(Decide(service, resourceType, id, tagged, key, value, save), None), rest)
  }

  /** The loop `for item in items: id = item.get(idField); if not
      tag_exists(item, key, value) and save: apply`. The outcome of an apply
      call is not an input: a failed call does not stop the loop. */
  function EachResource(service: Service, resourceType: string, idField: string,
                        items: seq<Json>, key: string, value: string, save: bool): Plan
    decreases |items|
  {
    if items == [] then Plan([], None)
    else Visit(service, resourceType, idField, items[0], key, value, save,
               EachResource(service, resourceType, idField, items[1..], key, value, save))
  }

  /** The same loop over a collection as the describe call left it. */
  function Collection(service: Service, resourceType: string, idField: string,
                      collection: Json, key: string, value: string, save: bool): Plan
  {
    match Records(collection)
    case Err(e) => Plan([], Some(e))
    case Ok(items) => EachResource(service, resourceType, idField, items, key, value, save)
  }

  /** The first step of `tag_resources`: the instance itself, checked against
      its attached instance document. */
  function InstancePlan(info: Json, instanceId: string, key: string, value: string, save: bool): Plan
  {
    match TagExistsSpec(info, key, value)
    case Err(e) => Plan([], Some(e))
    case Ok(tagged) => Plan(Decide(Ecs, "instance", Str(instanceId), tagged, key, value, save), None)
  }

  /** What `NodeInfo.tag_resources` issues for one node: the instance, then its
      disks, snapshots and network interfaces. */
  function NodePlan(info: Json, instanceId: string, disks: Json, snapshots: Json,
                    interfaces: Json, key: string, value: string, save: bool): Plan
  {
    Then(InstancePlan(info, instanceId, key, value, save),
      Then(Collection(Ecs, "disk", "DiskId", disks, key, value, save),
        Then(Collection(Ecs, "snapshot", "SnapshotId", snapshots, key, value, save),
          Collection(Ecs, "eni", "NetworkInterfaceId", interfaces, key, value, save))))
  }

  /** Running the requests `done`, then `first`, then `next`. */
  lemma ThenAfter(done: seq<TagRequest>, first: Plan, next: Plan)
    ensures Then(Plan(done, None), Then(first, next)) ==
            if first.failure.Some? then Plan(done + first.requests, first.failure)
            else Then(Plan(done + first.requests, None), next)
  {
    if first.failure.None? {
      assert done + (first.requests + next.requests) == (done + first.requests) + next.requests;
    }
  }

  /** One turn of the resource loop, seen from the resource at index `i`. */
  lemma EachResourceAt(service: Service, resourceType: string, idField: string,
                       items: seq<Json>, i: nat, key: string, value: string, save: bool)
    requires i < |items|
    ensures EachResource(service, resourceType, idField, items[i..], key, value, save) ==
            Visit(service, resourceType, idField, items[i], key, value, save,
                  EachResource(service, resourceType, idField, items[i + 1..], key, value, save))
  {
    assert items[i..][0] == items[i] && items[i..][1..] == items[i + 1..];
  }

  /** One turn of the resource loop after the requests `done`: the `.get` of
      the id raises, the tag check raises, or the decision's requests are
      added and the loop goes on with the next resource. */
  lemma EachResourceStep(service: Service, resourceType: string, idField: string,
                         items: seq<Json>, i: nat, done: seq<TagRequest>, key: string, value: string, save: bool)
    requires i < |items|
    ensures var here := Then(Plan(done, None), EachResource(service, resourceType, idField, items[i..], key, value, save));
      var id := Get(items[i], idField);
      var tagged := TagExistsSpec(items[i], key, value);
      (id.Err? ==> here == Plan(done, Some(id.error))) &&
      (id.Ok? && tagged.Err? ==> here == Plan(done, Some(tagged.error))) &&
      (id.Ok? && tagged.Ok? ==>
         here == Then(Plan(done + Decide(service, resourceType, id.value, tagged.value, key, value, save), None),
                      EachResource(service, resourceType, idField, items[i + 1..], key, value, save)))
  {
    EachResourceAt(service, resourceType, idField, items, i, key, value, save);
    var id := Get(items[i], idField);
    var tagged := TagExistsSpec(items[i], key, value);
    if id.Ok? && tagged.Ok? {
      ThenAfter(done, Plan(Decide(service, resourceType, id.value, tagged.value, key, value, save), None),
                EachResource(service, resourceType, idField, items[i + 1..], key, value, save));
    }
  }

  /** The resource loop from resource `i` on, after the requests `done`. */
  function EachFrom(service: Service, resourceType: string, idField: string, items: seq<Json>,
                    i: nat, done: seq<TagRequest>, key: string, value: string, save: bool): Plan
    requires i <= |items|
    decreases |items| - i
  {
    if i == |items| then Plan(done, None)
    else
      match Get(items[i], idField)
      case Err(e) => Plan(done, Some(e))
      case Ok(id) =>
        match TagExistsSpec(items[i], key, value)
        case Err(e) => Plan(done, Some(e))
        case Ok(tagged) =>
          EachFrom(service, resourceType, idField, items, i + 1,
                   done + Decide(service, resourceType, id, tagged, key, value, save), key, value, save)
  }

  /** Running the loop from resource `i` after `done` is running `done`, then
      `EachResource` on the remaining resources. */
  lemma {:induction false} EachFromResource(service: Service, resourceType: string, idField: string,
                                            items: seq<Json>, i: nat, done: seq<TagRequest>,
                                            key: string, value: string, save: bool)
    requires i <= |items|
    ensures EachFrom(service, resourceType, idField, items, i, done, key, value, save) ==
            Then(Plan(done, None), EachResource(service, resourceType, idField, items[i..], key, value, save))
    decreases |items| - i
  {
    if i == |items| {
      assert items[i..] == [] && done + [] == done;
    } else {
      EachResourceStep(service, resourceType, idField, items, i, done, key, value, save);
      var id := Get(items[i], idField);
      var tagged := TagExistsSpec(items[i], key, value);
      if id.Ok? && tagged.Ok? {
        EachFromResource(service, resourceType, idField, items, i + 1,
                         done + Decide(service, resourceType, id.value, tagged.value, key, value, save),
                         key, value, save);
      }
    }
  }

  /** The whole loop, started with no requests, is `EachResource`. */
  lemma EachFromStart(service: Service, resourceType: string, idField: string,
                      items: seq<Json>, key: string, value: string, save: bool)
    ensures EachFrom(service, resourceType, idField, items, 0, [], key, value, save) ==
            EachResource(service, resourceType, idField, items, key, value, save)
  {
    EachFromResource(service, resourceType, idField, items, 0, [], key, value, save);
    assert items[0..] == items;
    assert [] + EachResource(service, resourceType, idField, items, key, value, save).requests ==
           EachResource(service, resourceType, idField, items, key, value, save).requests;
  }

  /** The plans `plans` run one after another from plan `i` on, after the
      requests `done`; the first plan that raises ends the run. */
  function SequenceFrom(plans: seq<Plan>, i: nat, done: seq<TagRequest>): Plan
    requires i <= |plans|
    decreases |plans| - i
  {
    if i == |plans| then Plan(done, None)
    else if plans[i].failure.Some? then Plan(done + plans[i].requests, plans[i].failure)
    else SequenceFrom(plans, i + 1, done + plans[i].requests)
  }

  /** `answers[i]` is what the provider said to `issued[i]`. */
  ghost predicate Answered(issued: seq<TagRequest>, answers: seq<bool>, apply: TagRequest -> bool)
  {
    |answers| == |issued| && forall i :: 0 <= i < |issued| ==> answers[i] == apply(issued[i])
  }

  lemma AnsweredOne(issued: seq<TagRequest>, answers: seq<bool>, request: TagRequest, ok: bool,
                    apply: TagRequest -> bool)
    requires Answered(issued, answers, apply) && ok == apply(request)
    ensures Answered(issued + [request], answers + [ok], apply)
  {
  }

  lemma AnsweredAppend(a: seq<TagRequest>, aAnswers: seq<bool>, b: seq<TagRequest>, bAnswers: seq<bool>,
                       apply: TagRequest -> bool)
    requires Answered(a, aAnswers, apply) && Answered(b, bAnswers, apply)
    ensures Answered(a + b, aAnswers + bAnswers, apply)
  {
    forall i | |a| <= i < |a| + |b|
      ensures (aAnswers + bAnswers)[i] == apply((a + b)[i])
    {
      assert (a + b)[i] == b[i - |a|];
    }
  }

  /** The position of a resource type in the order `tag_resources` visits them. */
  function Rank(resourceType: string): nat
  {
    if resourceType == "instance" then 0
    else if resourceType == "disk" then 1
    else if resourceType == "snapshot" then 2
    else if resourceType == "eni" then 3
    else 4
  }

  /** Every request is a well-formed single-resource, single-pair request of
      the given service and type. */
  ghost predicate AllOfType(requests: seq<TagRequest>, service: Service, resourceType: string,
                            key: string, value: string)
  {
    forall i :: 0 <= i < |requests| ==>
      requests[i].service == service && requests[i].resourceType == resourceType &&
      |requests[i].resourceIds| == 1 && requests[i].tags == [TagPair(key, value)]
  }

  /** Requests come in non-decreasing visiting order of their types. */
  ghost predicate InVisitOrder(requests: seq<TagRequest>)
  {
    forall i, j :: 0 <= i < j < |requests| ==>
      Rank(requests[i].resourceType) <= Rank(requests[j].resourceType)
  }

  lemma {:induction false} EachResourceShape(service: Service, resourceType: string, idField: string,
                                             items: seq<Json>, key: string, value: string, save: bool)
    ensures AllOfType(EachResource(service, resourceType, idField, items, key, value, save).requests,
                      service, resourceType, key, value)
    decreases |items|
  {
    if items != [] {
      EachResourceShape(service, resourceType, idField, items[1..], key, value, save);
    }
  }

  /** With `save` false the loop issues no call, however many resources are untagged. */
  lemma {:induction false} EachResourceDryRun(service: Service, resourceType: string, idField: string,
                                              items: seq<Json>, key: string, value: string)
    ensures EachResource(service, resourceType, idField, items, key, value, false).requests == []
    decreases |items|
  {
    if items != [] {
      EachResourceDryRun(service, resourceType, idField, items[1..], key, value);
    }
  }

  /** The resources whose tag check answers false, in order. */
  function Untagged(items: seq<Json>, key: string, value: string): seq<Json>
    decreases |items|
  {
    if items == [] then []
    else if TagExistsSpec(items[0], key, value) == Ok(false)
    then [items[0]] + Untagged(items[1..], key, value)
    else Untagged(items[1..], key, value)
  }

  /** The apply calls for `targets`, one each, in order. */
  function RequestsFor(service: Service, resourceType: string, idField: string,
                       targets: seq<Json>, key: string, value: string): seq<TagRequest>
    requires forall i :: 0 <= i < |targets| ==> targets[i].Obj?
  {
    seq(|targets|, i requires 0 <= i < |targets| =>
      Request(service, resourceType, Field(targets[i].fields, idField), key, value))
  }

  /** Over dicts whose tag checks all succeed, saving issues exactly one call per
      untagged resource, in order, and nothing for the tagged ones. */
  lemma {:induction false} EachResourceSaves(service: Service, resourceType: string, idField: string,
                                             items: seq<Json>, key: string, value: string)
    requires forall i :: 0 <= i < |items| ==> items[i].Obj? && TagExistsSpec(items[i], key, value).Ok?
    ensures forall i :: 0 <= i < |Untagged(items, key, value)| ==> Untagged(items, key, value)[i].Obj?
    ensures EachResource(service, resourceType, idField, items, key, value, true) ==
            Plan(RequestsFor(service, resourceType, idField, Untagged(items, key, value), key, value), None)
    decreases |items|
  {
    if items != [] {
      var rest := items[1..];
      assert forall i :: 0 <= i < |rest| ==> rest[i] == items[i + 1];
      EachResourceSaves(service, resourceType, idField, rest, key, value);
      if TagExistsSpec(items[0], key, value) == Ok(false) {
        RequestsForCons(service, resourceType, idField, items[0], Untagged(rest, key, value), key, value);
      }
    }
  }

  lemma RequestsForCons(service: Service, resourceType: string, idField: string,
                        head: Json, tail: seq<Json>, key: string, value: string)
    requires head.Obj? && forall i :: 0 <= i < |tail| ==> tail[i].Obj?
    ensures forall i :: 0 <= i < |[head] + tail| ==> ([head] + tail)[i].Obj?
    ensures RequestsFor(service, resourceType, idField, [head] + tail, key, value) ==
            [Request(service, resourceType, Field(head.fields, idField), key, value)] +
            RequestsFor(service, resourceType, idField, tail, key, value)
  {
    var u := [head] + tail;
    assert forall i :: 1 <= i < |u| ==> u[i] == tail[i - 1];
  }

  /** Idempotence: once every resource carries the pair, a saving run issues nothing. */
  lemma AllTaggedIssuesNothing(service: Service, resourceType: string, idField: string,
                               items: seq<Json>, key: string, value: string)
    requires forall i :: 0 <= i < |items| ==> items[i].Obj? && TagExistsSpec(items[i], key, value) == Ok(true)
    ensures EachResource(service, resourceType, idField, items, key, value, true) == Plan([], None)
  {
    EachResourceSaves(service, resourceType, idField, items, key, value);
    UntaggedEmpty(items, key, value);
  }

  lemma {:induction false} UntaggedEmpty(items: seq<Json>, key: string, value: string)
    requires forall i :: 0 <= i < |items| ==> TagExistsSpec(items[i], key, value) == Ok(true)
    ensures Untagged(items, key, value) == []
    decreases |items|
  {
    if items != [] {
      assert forall i :: 0 <= i < |items[1..]| ==> items[1..][i] == items[i + 1];
      UntaggedEmpty(items[1..], key, value);
    }
  }

  lemma CollectionShape(service: Service, resourceType: string, idField: string,
                        collection: Json, key: string, value: string, save: bool)
    ensures AllOfType(Collection(service, resourceType, idField, collection, key, value, save).requests,
                      service, resourceType, key, value)
    ensures !save ==> Collection(service, resourceType, idField, collection, key, value, save).requests == []
  {
    if Records(collection).Ok? {
      EachResourceShape(service, resourceType, idField, Records(collection).value, key, value, save);
      if !save {
        EachResourceDryRun(service, resourceType, idField, Records(collection).value, key, value);
      }
    }
  }

  /** Calls to the ECS tag API, each with one resource id and the one pair,
      whose types rank between `lo` and `hi` and come in visiting order. */
  ghost predicate OrderedWithin(requests: seq<TagRequest>, lo: nat, hi: nat, key: string, value: string)
  {
    InVisitOrder(requests) &&
    forall i :: 0 <= i < |requests| ==>
      lo <= Rank(requests[i].resourceType) <= hi && requests[i].service == Ecs &&
      |requests[i].resourceIds| == 1 && requests[i].tags == [TagPair(key, value)]
  }

  lemma ThenOrdered(first: Plan, next: Plan, lo: nat, mid: nat, hi: nat, key: string, value: string)
    requires lo <= mid <= hi
    requires OrderedWithin(first.requests, lo, mid, key, value)
    requires OrderedWithin(next.requests, mid, hi, key, value)
    ensures OrderedWithin(Then(first, next).requests, lo, hi, key, value)
  {
    if first.failure.None? {
      var r := first.requests + next.requests;
      forall i, j | 0 <= i < j < |r|
        ensures Rank(r[i].resourceType) <= Rank(r[j].resourceType)
      {
        if j < |first.requests| {
        } else if i >= |first.requests| {
          assert r[i] == next.requests[i - |first.requests|];
          assert r[j] == next.requests[j - |first.requests|];
        } else {
          assert r[j] == next.requests[j - |first.requests|];
        }
      }
      forall i | 0 <= i < |r|
        ensures lo <= Rank(r[i].resourceType) <= hi && r[i].service == Ecs &&
                |r[i].resourceIds| == 1 && r[i].tags == [TagPair(key, value)]
      {
        if i >= |first.requests| {
          assert r[i] == next.requests[i - |first.requests|];
        }
      }
    }
  }

  lemma CollectionOrdered(resourceType: string, idField: string, collection: Json,
                          key: string, value: string, save: bool)
    ensures var p := Collection(Ecs, resourceType, idField, collection, key, value, save);
      OrderedWithin(p.requests, Rank(resourceType), Rank(resourceType), key, value) &&
      (!save ==> p.requests == [])
  {
    CollectionShape(Ecs, resourceType, idField, collection, key, value, save);
  }

  lemma InstancePlanOrdered(info: Json, instanceId: string, key: string, value: string, save: bool)
    ensures var p := InstancePlan(info, instanceId, key, value, save);
      OrderedWithin(p.requests, 0, 0, key, value) && (!save ==> p.requests == []) &&
      (p.requests == [] || p.requests == [Request(Ecs, "instance", Str(instanceId), key, value)])
  {
  }

  /** When the instance step issues its request: exactly when saving and the
      instance lacks the pair; a failed tag check raises before any call. */
  lemma InstancePlanDecides(info: Json, instanceId: string, key: string, value: string, save: bool)
    ensures var p := InstancePlan(info, instanceId, key, value, save);
      (save && TagExistsSpec(info, key, value) == Ok(false) ==>
         p == Plan([Request(Ecs, "instance", Str(instanceId), key, value)], None)) &&
      (TagExistsSpec(info, key, value) == Ok(true) ==> p == Plan([], None)) &&
      (TagExistsSpec(info, key, value).Err? ==> p == Plan([], Some(TagExistsSpec(info, key, value).error)))
  {
  }

  /** The requests of a node come in visiting order: instance first, then
      disks, snapshots, network interfaces, all to the ECS tag API, each with
      one resource id and the one pair. */
  lemma NodePlanOrdered(info: Json, instanceId: string, disks: Json, snapshots: Json,
                        interfaces: Json, key: string, value: string, save: bool)
    ensures OrderedWithin(NodePlan(info, instanceId, disks, snapshots, interfaces, key, value, save).requests,
                          0, 3, key, value)
  {
    var d := Collection(Ecs, "disk", "DiskId", disks, key, value, save);
    var s := Collection(Ecs, "snapshot", "SnapshotId", snapshots, key, value, save);
    var n := Collection(Ecs, "eni", "NetworkInterfaceId", interfaces, key, value, save);
    CollectionOrdered("disk", "DiskId", disks, key, value, save);
    CollectionOrdered("snapshot", "SnapshotId", snapshots, key, value, save);
    CollectionOrdered("eni", "NetworkInterfaceId", interfaces, key, value, save);
    ThenOrdered(s, n, 2, 2, 3, key, value);
    ThenOrdered(d, Then(s, n), 1, 1, 3, key, value);
    InstancePlanOrdered(info, instanceId, key, value, save);
    ThenOrdered(InstancePlan(info, instanceId, key, value, save), Then(d, Then(s, n)), 0, 0, 3, key, value);
  }

  /** A dry run of a node issues nothing. */
  lemma NodePlanDryRun(info: Json, instanceId: string, disks: Json, snapshots: Json,
                       interfaces: Json, key: string, value: string)
    ensures NodePlan(info, instanceId, disks, snapshots, interfaces, key, value, false).requests == []
  {
    CollectionOrdered("disk", "DiskId", disks, key, value, false);
    CollectionOrdered("snapshot", "SnapshotId", snapshots, key, value, false);
    CollectionOrdered("eni", "NetworkInterfaceId", interfaces, key, value, false);
    InstancePlanOrdered(info, instanceId, key, value, false);
  }

  /** Four steps none of which raises run their requests one after another. */
  lemma ThenFour(a: Plan, b: Plan, c: Plan, d: Plan)
    requires a.failure.None? && b.failure.None? && c.failure.None? && d.failure.None?
    ensures Then(a, Then(b, Then(c, d))) == Plan(a.requests + b.requests + c.requests + d.requests, None)
  {
    assert a.requests + (b.requests + (c.requests + d.requests)) ==
           a.requests + b.requests + c.requests + d.requests;
  }

  /** A saving run over a node whose documents are all well formed: one call
      for the instance if it is untagged, then one per untagged disk, snapshot
      and network interface, in that order, and nothing raises. */
  lemma NodePlanSaves(info: Json, instanceId: string, ds: seq<Json>, ss: seq<Json>, ns: seq<Json>,
                      key: string, value: string)
    requires TagExistsSpec(info, key, value).Ok?
    requires forall i :: 0 <= i < |ds| ==> ds[i].Obj? && TagExistsSpec(ds[i], key, value).Ok?
    requires forall i :: 0 <= i < |ss| ==> ss[i].Obj? && TagExistsSpec(ss[i], key, value).Ok?
    requires forall i :: 0 <= i < |ns| ==> ns[i].Obj? && TagExistsSpec(ns[i], key, value).Ok?
    ensures forall i :: 0 <= i < |Untagged(ds, key, value)| ==> Untagged(ds, key, value)[i].Obj?
    ensures forall i :: 0 <= i < |Untagged(ss, key, value)| ==> Untagged(ss, key, value)[i].Obj?
    ensures forall i :: 0 <= i < |Untagged(ns, key, value)| ==> Untagged(ns, key, value)[i].Obj?
    ensures NodePlan(info, instanceId, Arr(ds), Arr(ss), Arr(ns), key, value, true) ==
            Plan(Decide(Ecs, "instance", Str(instanceId), TagExistsSpec(info, key, value).value, key, value, true) +
                 RequestsFor(Ecs, "disk", "DiskId", Untagged(ds, key, value), key, value) +
                 RequestsFor(Ecs, "snapshot", "SnapshotId", Untagged(ss, key, value), key, value) +
                 RequestsFor(Ecs, "eni", "NetworkInterfaceId", Untagged(ns, key, value), key, value), None)
  {
    EachResourceSaves(Ecs, "disk", "DiskId", ds, key, value);
    EachResourceSaves(Ecs, "snapshot", "SnapshotId", ss, key, value);
    EachResourceSaves(Ecs, "eni", "NetworkInterfaceId", ns, key, value);
    ThenFour(InstancePlan(info, instanceId, key, value, true),
             Collection(Ecs, "disk", "DiskId", Arr(ds), key, value, true),
             Collection(Ecs, "snapshot", "SnapshotId", Arr(ss), key, value, true),
             Collection(Ecs, "eni", "NetworkInterfaceId", Arr(ns), key, value, true));
  }

  /** The apply decision for a node: a dry run issues nothing; otherwise every
      call carries one resource id and the one pair, all go to the ECS tag API,
      and they come instance first, then disks, snapshots, network interfaces. */
  lemma NodePlanProperties(info: Json, instanceId: string, disks: Json, snapshots: Json,
                           interfaces: Json, key: string, value: string, save: bool)
    ensures var p := NodePlan(info, instanceId, disks, snapshots, interfaces, key, value, save);
      (!save ==> p.requests == []) &&
      OrderedWithin(p.requests, 0, 3, key, value)
  {
    NodePlanOrdered(info, instanceId, disks, snapshots, interfaces, key, value, save);
    if !save {
      NodePlanDryRun(info, instanceId, disks, snapshots, interfaces, key, value);
    }
  }
}
