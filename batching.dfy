/** `destribe_ecs_instances` and `_add_ecs_instances_to_map`: describe the
    nodes' instances in batches of at most 50 ids and merge the answers into one
    map keyed by instance id. */
module Batching {
  import opened Wrappers
  import opened Documents

  /** `batch_size`: the most ids one describe-instances call carries. */
  const BatchSize: nat := 50

  /** The id lists the describe calls carry: consecutive slices of 50 ids, the
      last one holding what is left. */
  function Batches(ids: seq<string>): seq<seq<string>>
    decreases |ids|
  {
    if ids == [] then []
    else if |ids| <= BatchSize then [ids]
    else [ids[..BatchSize]] + Batches(ids[BatchSize..])
  }

  function Flatten(batches: seq<seq<string>>): seq<string>
    decreases |batches|
  {
    if batches == [] then [] else batches[0] + Flatten(batches[1..])
  }

  /** The batches partition the ids: they concatenate back to the input in
      order, none is empty, none holds more than 50 ids, all but the last hold
      exactly 50, and there are ceil(N/50) of them. */
  lemma {:induction false} BatchesPartition(ids: seq<string>)
    ensures Flatten(Batches(ids)) == ids
    ensures forall i :: 0 <= i < |Batches(ids)| ==> 0 < |Batches(ids)[i]| <= BatchSize
    ensures forall i :: 0 <= i < |Batches(ids)| - 1 ==> |Batches(ids)[i]| == BatchSize
    ensures |Batches(ids)| == (|ids| + BatchSize - 1) / BatchSize
    decreases |ids|
  {
    if |ids| > BatchSize {
      var rest := Batches(ids[BatchSize..]);
      BatchesPartition(ids[BatchSize..]);
      assert Batches(ids) == [ids[..BatchSize]] + rest;
      assert forall i :: 1 <= i < |rest| + 1 ==> Batches(ids)[i] == rest[i - 1];
      assert ([ids[..BatchSize]] + rest)[1..] == rest;
      assert ids == ids[..BatchSize] + ids[BatchSize..];
    } else if ids != [] {
      assert Flatten([ids]) == ids + Flatten([]);
    }
  }

  /** 120 ids make three calls, of 50, 50 and 20 ids. */
  lemma BatchesExample(ids: seq<string>)
    requires |ids| == 120
    ensures |Batches(ids)| == 3
    ensures Batches(ids)[0] == ids[..50] && Batches(ids)[1] == ids[50..100] && Batches(ids)[2] == ids[100..]
  {
    assert Batches(ids[100..]) == [ids[100..]];
    assert ids[50..][50..] == ids[100..];
    assert ids[50..][..50] == ids[50..100];
  }

  /** Cutting the ids at a multiple of 50 cuts the batches there too. */
  lemma {:induction false} BatchesSplit(ids: seq<string>, j: nat)
    requires j <= |ids| && j % BatchSize == 0
    ensures Batches(ids) == Batches(ids[..j]) + Batches(ids[j..])
    decreases j
  {
    if j == 0 {
      assert ids[j..] == ids;
    } else if |ids| == BatchSize {
      assert ids[..j] == ids;
    } else {
      var tail := ids[BatchSize..];
      BatchesSplit(tail, j - BatchSize);
      assert ids[..j][..BatchSize] == ids[..BatchSize];
      assert ids[..j][BatchSize..] == tail[..j - BatchSize];
      assert tail[j - BatchSize..] == ids[j..];
      if j == BatchSize {
        assert ids[..j] == ids[..BatchSize];
      }
    }
  }

  /** The instance documents in a describe-instances answer:
      `resp.get('Instances').get('Instance')`, iterated. */
  function InstanceItems(resp: Json): Result<seq<Json>>
  {
    match Get(resp, "Instances")
    case Err(e) => Err(e)
    case Ok(instances) =>
      match Get(instances, "Instance")
      case Err(e) => Err(e)
      case Ok(list) => Records(list)
  }

  /** A value Python accepts as a dict key: a string or None, not a list or dict. */
  predicate Hashable(j: Json)
  {
    j.Null? || j.Str?
  }

  /** `instance_map[item.get('InstanceId')] = item` for each item in turn. */
  function MergeItems(m: map<Json, Json>, items: seq<Json>): Result<map<Json, Json>>
    decreases |items|
  {
    if items == [] then Ok(m)
    else if !items[0].Obj? then Err(NoAttribute)
    else if !Hashable(IdOf(items[0])) then Err(Unhashable)
    else MergeItems(m[IdOf(items[0]) := items[0]], items[1..])
  }

  /** What `_add_ecs_instances_to_map` does with one answer; a failed call
      (None) leaves the map as it was. */
  function MergeResponse(m: map<Json, Json>, resp: Json): Result<map<Json, Json>>
  {
    if resp == Null then Ok(m)
    else
      match InstanceItems(resp)
      case Err(e) => Err(e)
      case Ok(items) => MergeItems(m, items)
  }

  function IdOf(item: Json): Json
    requires item.Obj?
  {
    Field(item.fields, "InstanceId")
  }

  /** No later item has the same instance id as `items[i]`. */
  ghost predicate LastWithId(items: seq<Json>, i: nat)
    requires i < |items| && forall j :: 0 <= j < |items| ==> items[j].Obj?
  {
    forall j :: i < j < |items| ==> IdOf(items[j]) != IdOf(items[i])
  }

  /** Merging a list of instance documents succeeds exactly when all of them
      are dicts whose `InstanceId` can be a key. Then every item is stored under its id, a later item with the
      same id overwriting an earlier one, and keys no item names keep their
      old value. */
  lemma {:induction false} MergeItemsMeaning(m: map<Json, Json>, items: seq<Json>)
    ensures MergeItems(m, items).Ok? <==>
              forall i :: 0 <= i < |items| ==> items[i].Obj? && Hashable(IdOf(items[i]))
    ensures MergeItems(m, items).Ok? ==>
      var r := MergeItems(m, items).value;
      (forall k :: k in r <==> k in m || exists i :: 0 <= i < |items| && IdOf(items[i]) == k) &&
      (forall i :: 0 <= i < |items| && LastWithId(items, i) ==> r[IdOf(items[i])] == items[i]) &&
      (forall k :: k in m && (forall i :: 0 <= i < |items| ==> IdOf(items[i]) != k) ==> r[k] == m[k])
    decreases |items|
  {
    if items != [] {
      var rest := items[1..];
      assert forall i :: 1 <= i < |items| ==> items[i] == rest[i - 1];
      if items[0].Obj? && Hashable(IdOf(items[0])) {
        var m1 := m[IdOf(items[0]) := items[0]];
        MergeItemsMeaning(m1, rest);
        if MergeItems(m, items).Ok? {
          var r := MergeItems(m, items).value;
          forall i | 0 <= i < |items| && LastWithId(items, i)
            ensures r[IdOf(items[i])] == items[i]
          {
            if i > 0 {
              assert LastWithId(rest, i - 1);
            } else {
              assert forall j :: 0 <= j < |rest| ==> IdOf(rest[j]) != IdOf(items[0]);
            }
          }
        }
      } else if !items[0].Obj? {
        assert !items[0].Obj?;
      } else {
        assert !Hashable(IdOf(items[0]));
      }
    }
  }

  /** The loop of `_add_ecs_instances_to_map`. */
  method AddEcsInstancesToMap(instanceMap: map<Json, Json>, resp: Json)
    returns (r: Result<map<Json, Json>>)
    ensures r == MergeResponse(instanceMap, resp)
  {
    if resp == Null {
      return Ok(instanceMap);
    }
    var listed := InstanceItems(resp);
    if listed.Err? {
      return Err(listed.error);
    }
    var items := listed.value;
    var m := instanceMap;
    var i := 0;
    while i < |items|
      invariant 0 <= i <= |items|
      invariant MergeItems(instanceMap, items) == MergeItems(m, items[i..])
    {
      assert items[i..][0] == items[i] && items[i..][1..] == items[i + 1..];
      var instanceId := Get(items[i], "InstanceId");
      if instanceId.Err? {
        return Err(instanceId.error);
      }
      if !Hashable(instanceId.value) {
        return Err(Unhashable);
      }
      m := m[instanceId.value := items[i]];
      i := i + 1;
    }
    r := Ok(m);
  }

  /** The calls made, in order, and the merged map or the exception that
      ended the run (a failed merge stops the remaining batches). */
  datatype Describe = Describe(calls: seq<seq<string>>, result: Result<map<Json, Json>>)

  /** One describe call per batch, each answer merged into the map in turn.
      `describe` stands for the provider: it maps the ids of a call to the
      parsed answer, None for a failed call. */
  function DescribeAll(m: map<Json, Json>, batches: seq<seq<string>>,
                       describe: seq<string> -> Json): Describe
    decreases |batches|
  {
    if batches == [] then Describe([], Ok(m))
    else
      match MergeResponse(m, describe(batches[0]))
      case Err(e) => Describe([batches[0]], Err(e))
      case Ok(m1) =>
        var rest := DescribeAll(m1, batches[1..], describe);
        Describe([batches[0]] + rest.calls, rest.result)
  }

  /** Describing `b1 + b2` is describing `b1`, then `b2` from the map `b1`
      left, unless `b1` raised. */
  lemma {:induction false} DescribeAllAppend(m: map<Json, Json>, b1: seq<seq<string>>, b2: seq<seq<string>>,
                                             describe: seq<string> -> Json)
    ensures DescribeAll(m, b1 + b2, describe) ==
      var d1 := DescribeAll(m, b1, describe);
      if d1.result.Err? then d1
      else
        var d2 := DescribeAll(d1.result.value, b2, describe);
        Describe(d1.calls + d2.calls, d2.result)
    decreases |b1|
  {
    if b1 == [] {
      assert b1 + b2 == b2;
    } else {
      assert (b1 + b2)[0] == b1[0] && (b1 + b2)[1..] == b1[1..] + b2;
      match MergeResponse(m, describe(b1[0]))
      case Err(_) =>
      case Ok(m1) =>
        DescribeAllAppend(m1, b1[1..], b2, describe);
        var r1 := DescribeAll(m1, b1[1..], describe);
        if r1.result.Ok? {
          var r2 := DescribeAll(r1.result.value, b2, describe);
          assert [b1[0]] + (r1.calls + r2.calls) == ([b1[0]] + r1.calls) + r2.calls;
        }
    }
  }

  /** A successful run makes one call per batch, in order, and no other. */
  lemma {:induction false} DescribeAllCallsAll(m: map<Json, Json>, batches: seq<seq<string>>,
                                               describe: seq<string> -> Json)
    ensures DescribeAll(m, batches, describe).result.Ok? ==> DescribeAll(m, batches, describe).calls == batches
    decreases |batches|
  {
    if batches != [] {
      match MergeResponse(m, describe(batches[0]))
      case Err(_) =>
      case Ok(m1) =>
        DescribeAllCallsAll(m1, batches[1..], describe);
        assert [batches[0]] + batches[1..] == batches;
    }
  }

  /** After a successful run the map keeps every key it had and holds an entry
      for every instance id that any answer listed. */
  lemma {:induction false} DescribeAllCollects(m: map<Json, Json>, batches: seq<seq<string>>,
                                               describe: seq<string> -> Json)
    requires DescribeAll(m, batches, describe).result.Ok?
    ensures m.Keys <= DescribeAll(m, batches, describe).result.value.Keys
    ensures forall b, i :: b in batches && describe(b) != Null && InstanceItems(describe(b)).Ok? &&
                           0 <= i < |InstanceItems(describe(b)).value| ==>
              InstanceItems(describe(b)).value[i].Obj? &&
              IdOf(InstanceItems(describe(b)).value[i]) in DescribeAll(m, batches, describe).result.value
    decreases |batches|
  {
    if batches != [] {
      var resp := describe(batches[0]);
      var m1 := MergeResponse(m, resp).value;
      DescribeAllCollects(m1, batches[1..], describe);
      if resp != Null {
        MergeItemsMeaning(m, InstanceItems(resp).value);
      }
    }
  }

  /** The instance documents of every answer, in call order; a failed call
      (None) lists none. */
  function AllItems(batches: seq<seq<string>>, describe: seq<string> -> Json): seq<Json>
    decreases |batches|
  {
    if batches == [] then []
    else
      var resp := describe(batches[0]);
      (if resp != Null && InstanceItems(resp).Ok? then InstanceItems(resp).value else []) +
      AllItems(batches[1..], describe)
  }

  /** Merging `a + b` is merging `a`, then `b` into the map `a` left, unless
      `a` raised. */
  lemma {:induction false} MergeItemsAppend(m: map<Json, Json>, a: seq<Json>, b: seq<Json>)
    ensures MergeItems(m, a + b) ==
            if MergeItems(m, a).Err? then MergeItems(m, a) else MergeItems(MergeItems(m, a).value, b)
    decreases |a|
  {
    if a == [] {
      assert a + b == b;
    } else {
      assert (a + b)[0] == a[0] && (a + b)[1..] == a[1..] + b;
      if a[0].Obj? && Hashable(IdOf(a[0])) {
        MergeItemsAppend(m[IdOf(a[0]) := a[0]], a[1..], b);
      }
    }
  }

  /** A successful describe pass is one merge of all the listed instance
      documents, in call order: with `MergeItemsMeaning`, every document is
      stored under its id and a later answer overwrites an earlier one. */
  lemma {:induction false} DescribeAllIsOneMerge(m: map<Json, Json>, batches: seq<seq<string>>,
                                                 describe: seq<string> -> Json)
    requires DescribeAll(m, batches, describe).result.Ok?
    ensures DescribeAll(m, batches, describe).result == MergeItems(m, AllItems(batches, describe))
    decreases |batches|
  {
    if batches != [] {
      var resp := describe(batches[0]);
      var m1 := MergeResponse(m, resp).value;
      DescribeAllIsOneMerge(m1, batches[1..], describe);
      var rest := AllItems(batches[1..], describe);
      if resp == Null {
        assert [] + rest == rest;
      } else {
        MergeItemsAppend(m, InstanceItems(resp).value, rest);
      }
    }
  }

  /** The provider answered `batch` as the program expects: a response
      listing dicts, among them one for every id of the batch. */
  ghost predicate AnswersBatch(resp: Json, batch: seq<string>)
  {
    resp != Null && InstanceItems(resp).Ok? &&
    (forall i :: 0 <= i < |InstanceItems(resp).value| ==>
       InstanceItems(resp).value[i].Obj? && Hashable(IdOf(InstanceItems(resp).value[i]))) &&
    forall id :: id in batch ==>
      exists i :: 0 <= i < |InstanceItems(resp).value| && IdOf(InstanceItems(resp).value[i]) == Str(id)
  }

  lemma {:induction false} DescribeAllSucceeds(m: map<Json, Json>, batches: seq<seq<string>>,
                                               describe: seq<string> -> Json)
    requires forall b :: b in batches ==> AnswersBatch(describe(b), b)
    ensures DescribeAll(m, batches, describe).result.Ok?
    ensures forall id :: id in Flatten(batches) ==> Str(id) in DescribeAll(m, batches, describe).result.value
    decreases |batches|
  {
    if batches != [] {
      var b := batches[0];
      var items := InstanceItems(describe(b)).value;
      MergeItemsMeaning(m, items);
      var m1 := MergeItems(m, items).value;
      assert forall c :: c in batches[1..] ==> c in batches;
      DescribeAllSucceeds(m1, batches[1..], describe);
      DescribeAllCollects(m1, batches[1..], describe);
      forall id | id in b ensures Str(id) in m1 {
        var i :| 0 <= i < |items| && IdOf(items[i]) == Str(id);
      }
    }
  }

  /** The condition under which attaching cannot fail: when the provider
      answers each batch with a document for every id it asked about, the
      merged map holds every node's id. */
  lemma CompleteAnswersCoverAllIds(ids: seq<string>, describe: seq<string> -> Json)
    requires forall b :: b in Batches(ids) ==> AnswersBatch(describe(b), b)
    ensures DescribeAll(map[], Batches(ids), describe).result.Ok?
    ensures forall id :: id in ids ==> Str(id) in DescribeAll(map[], Batches(ids), describe).result.value
  {
    BatchesPartition(ids);
    DescribeAllSucceeds(map[], Batches(ids), describe);
  }

  /** The `k`-th batch starts at a multiple of 50. */
  lemma MultipleOfBatch(k: nat)
    ensures (k * BatchSize) % BatchSize == 0
  {
  }

  /** A batch that starts at a multiple of 50 and is full, or ends the ids,
      is the next batch. */
  lemma BatchesExtend(ids: seq<string>, start: nat, end: nat)
    requires start % BatchSize == 0 && start < end <= |ids| && end - start <= BatchSize
    ensures Batches(ids[..end]) == Batches(ids[..start]) + [ids[start..end]]
  {
    BatchesSplit(ids[..end], start);
    assert ids[..end][..start] == ids[..start];
    assert ids[..end][start..] == ids[start..end];
  }

  /** A single call: its answer merged into `m`. */
  lemma DescribeSingle(m: map<Json, Json>, batch: seq<string>, describe: seq<string> -> Json)
    ensures DescribeAll(m, [batch], describe) == Describe([batch], MergeResponse(m, describe(batch)))
  {
    assert [batch][1..] == [];
    if MergeResponse(m, describe(batch)).Ok? {
      assert [batch] + [] == [batch];
    }
  }

  /** One more call after a successful prefix of calls. */
  lemma DescribeOneMore(calls: seq<seq<string>>, batch: seq<string>, m: map<Json, Json>,
                        describe: seq<string> -> Json)
    requires DescribeAll(map[], calls, describe) == Describe(calls, Ok(m))
    ensures DescribeAll(map[], calls + [batch], describe) ==
            Describe(calls + [batch], MergeResponse(m, describe(batch)))
  {
    DescribeAllAppend(map[], calls, [batch], describe);
    DescribeSingle(m, batch, describe);
  }

  /** Once a call raised, the batches after it are never described. */
  lemma DescribeStops(ids: seq<string>, end: nat, describe: seq<string> -> Json)
    requires end <= |ids| && end % BatchSize == 0
    requires DescribeAll(map[], Batches(ids[..end]), describe).result.Err?
    ensures DescribeAll(map[], Batches(ids), describe) == DescribeAll(map[], Batches(ids[..end]), describe)
  {
    BatchesSplit(ids, end);
    DescribeAllAppend(map[], Batches(ids[..end]), Batches(ids[end..]), describe);
  }

  /** One `_add_ecs_instances_to_map` call for the batch `ids[start..end]`,
      recorded after the calls made so far. */
  method DescribeBatch(ids: seq<string>, ghost k: nat, start: nat, end: nat, calls: seq<seq<string>>,
                       instanceMap: map<Json, Json>, describe: seq<string> -> Json)
    returns (calls': seq<seq<string>>, r: Result<map<Json, Json>>)
    requires start == k * BatchSize && start < end <= |ids| && end - start <= BatchSize
    requires end == start + BatchSize || end == |ids|
    requires calls == Batches(ids[..start])
    requires DescribeAll(map[], calls, describe) == Describe(calls, Ok(instanceMap))
    ensures calls' == Batches(ids[..end])
    ensures DescribeAll(map[], calls', describe) == Describe(calls', r)
    ensures r.Err? || end == |ids| ==> DescribeAll(map[], Batches(ids), describe) == Describe(calls', r)
  {
    assert start % BatchSize == 0 by { MultipleOfBatch(k); }
    BatchesExtend(ids, start, end);
    DescribeOneMore(calls, ids[start..end], instanceMap, describe);
    r := AddEcsInstancesToMap(instanceMap, describe(ids[start..end]));
    calls' := calls + [ids[start..end]];
    if end == |ids| {
      assert ids[..end] == ids;
    } else if r.Err? {
      MultipleOfBatch(k + 1);
      DescribeStops(ids, end, describe);
    }
  }

  /** The counting loop of `destribe_ecs_instances`: collect ids until 50 are
      pending, describe them, start a new batch; describe what is left at the
      end. It makes exactly the calls `Batches` lists, stopping at the first
      answer whose merge raises. */
  method BatchDescribe(ids: seq<string>, describe: seq<string> -> Json)
    returns (calls: seq<seq<string>>, result: Result<map<Json, Json>>)
    ensures Describe(calls, result) == DescribeAll(map[], Batches(ids), describe)
    ensures result.Ok? ==> calls == Batches(ids)
  {
    var count := 0;
    var pending: seq<string> := [];
    var instanceMap: map<Json, Json> := map[];
    calls := [];
    var i := 0;
    ghost var done: nat := 0;
    while i < |ids|
      invariant 0 <= i <= |ids|
      invariant count == |pending| < BatchSize && count <= i
      invariant pending == ids[i - count..i]
      invariant i - count == done * BatchSize
      invariant calls == Batches(ids[..done * BatchSize])
      invariant DescribeAll(map[], calls, describe) == Describe(calls, Ok(instanceMap))
    {
      assert ids[i - count..i + 1] == ids[i - count..i] + [ids[i]];
      pending := pending + [ids[i]];
      count := count + 1;
      if count == BatchSize {
        var r;
        calls, r := DescribeBatch(ids, done, i + 1 - count, i + 1, calls, instanceMap, describe);
        if r.Err? {
          return calls, r;
        }
        instanceMap := r.value;
        count := 0;
        pending := [];
        done := done + 1;
      }
      i := i + 1;
    }
    if count > 0 {
      var r;
      calls, r := DescribeBatch(ids, done, |ids| - count, |ids|, calls, instanceMap, describe);
      DescribeAllCallsAll(map[], Batches(ids), describe);
      return calls, r;
    }
    assert ids[..i - count] == ids;
    DescribeAllCallsAll(map[], Batches(ids), describe);
    result := Ok(instanceMap);
  }
}
