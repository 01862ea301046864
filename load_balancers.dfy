/** `tag_slb_instances`: the exists-check-then-apply rule for the load balancers
    the describe-load-balancers call lists. */
module LoadBalancers {
  import opened Wrappers
  import opened Documents
  import opened Tags
  import opened Tagging

  /** The calls `tag_slb_instances` issues for the describe answer `resp`
      (None for a failed call): `resp.get('LoadBalancers').get('LoadBalancer')`,
      then one SLB tag-apply call per untagged load balancer when saving. */
  function SlbPlan(resp: Json, key: string, value: string, save: bool): Plan
  {
    match Get(resp, "LoadBalancers")
    case Err(e) => Plan([], Some(e))
    case Ok(balancers) =>
      match Get(balancers, "LoadBalancer")
      case Err(e) => Plan([], Some(e))
      case Ok(list) => Collection(Slb, "instance", "LoadBalancerId", list, key, value, save)
  }

  /** A dry run issues no call; otherwise every call goes to the SLB tag API,
      has resource type `instance`, one load balancer id and the one pair. */
  lemma SlbPlanProperties(resp: Json, key: string, value: string, save: bool)
    ensures !save ==> SlbPlan(resp, key, value, save).requests == []
    ensures AllOfType(SlbPlan(resp, key, value, save).requests, Slb, "instance", key, value)
  {
    var balancers := Get(resp, "LoadBalancers");
    if balancers.Ok? && Get(balancers.value, "LoadBalancer").Ok? {
      CollectionShape(Slb, "instance", "LoadBalancerId", Get(balancers.value, "LoadBalancer").value,
                      key, value, save);
    }
  }

  /** On a well-formed answer, a saving run issues exactly one call per
      untagged load balancer, in listing order, naming its `LoadBalancerId`. */
  lemma SlbPlanSaves(items: seq<Json>, key: string, value: string)
    requires forall i :: 0 <= i < |items| ==> items[i].Obj? && TagExistsSpec(items[i], key, value).Ok?
    ensures forall i :: 0 <= i < |Untagged(items, key, value)| ==> Untagged(items, key, value)[i].Obj?
    ensures SlbPlan(Obj(map["LoadBalancers" := Obj(map["LoadBalancer" := Arr(items)])]), key, value, true) ==
            Plan(RequestsFor(Slb, "instance", "LoadBalancerId", Untagged(items, key, value), key, value), None)
  {
    EachResourceSaves(Slb, "instance", "LoadBalancerId", items, key, value);
  }

  /** `tag_slb_instances`. `apply` stands for the provider and answers
      whether the SLB tag call returned a response. */
  method TagSlbInstances(resp: Json, key: string, value: string, save: bool, apply: TagRequest -> bool)
    returns (issued: seq<TagRequest>, succeeded: seq<bool>, failure: Option<Raised>)
    ensures Plan(issued, failure) == SlbPlan(resp, key, value, save)
    ensures Answered(issued, succeeded, apply)
  {
    var balancers := Get(resp, "LoadBalancers");
    if balancers.Err? {
      return [], [], Some(balancers.error);
    }
    var list := Get(balancers.value, "LoadBalancer");
    if list.Err? {
      return [], [], Some(list.error);
    }
    var records := Records(list.value);
    if records.Err? {
      return [], [], Some(records.error);
    }
    issued, succeeded, failure := TagListed(records.value, key, value, save, apply);
  }

  /** The loop of `tag_slb_instances` over the listed load balancers: check
      each one, apply the tag to the untagged ones when saving, and go on
      whatever the apply call answered (a failed call is only logged). */
  method TagListed(items: seq<Json>, key: string, value: string, save: bool, apply: TagRequest -> bool)
    returns (issued: seq<TagRequest>, succeeded: seq<bool>, failure: Option<Raised>)
    ensures Plan(issued, failure) == EachResource(Slb, "instance", "LoadBalancerId", items, key, value, save)
    ensures Answered(issued, succeeded, apply)
  {
    issued, succeeded := [], [];
    EachFromStart(Slb, "instance", "LoadBalancerId", items, key, value, save);
    var i := 0;
    while i < |items|
      invariant 0 <= i <= |items|
      invariant EachFrom(Slb, "instance", "LoadBalancerId", items, i, issued, key, value, save) ==
                EachFrom(Slb, "instance", "LoadBalancerId", items, 0, [], key, value, save)
      invariant Answered(issued, succeeded, apply)
    {
      var id := Get(items[i], "LoadBalancerId");
      if id.Err? {
        return issued, succeeded, Some(id.error);
      }
      var tagged := TagExists(items[i], key, value);
      if tagged.Err? {
        return issued, succeeded, Some(tagged.error);
      }
      if !tagged.value && save {
        var request := Request(Slb, "instance", id.value, key, value);
        var ok := apply(request);
        issued, succeeded := issued + [request], succeeded + [ok];
      } else {
        assert issued + [] == issued;
      }
      i := i + 1;
    }
    failure := None;
  }
}
