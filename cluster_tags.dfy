/** `tag_cluster`: reconcile the cluster's own tag list against the desired pair. */
module ClusterTags {
  import opened Wrappers

  /** One entry of the cluster's `tags` list, a `{key, value}` record. */
  datatype ClusterTag = ClusterTag(key: string, value: string)

  /** The describe-cluster answer: the HTTP status and the `tags` field of the
      body (None when the body has no such field). */
  datatype ClusterDetail = ClusterDetail(status: int, tags: Option<seq<ClusterTag>>)

  /** How a run of `tag_cluster` ends. */
  datatype ClusterOutcome =
    | DescribeFailed            // status other than 200: the function returns False
    | Failed(error: Raised)     // the `tags` field is missing, so the loop raises
    | AlreadyTagged             // the exact pair is present: nothing is sent
    | Pending(tags: seq<ClusterTag>)    // a change is due but the run is a dry run
    | Submitted(tags: seq<ClusterTag>)  // the modify-cluster-tags call carries `tags`

  predicate HasKey(tags: seq<ClusterTag>, key: string)
  {
    exists i :: 0 <= i < |tags| && tags[i].key == key
  }

  /** No key occurs twice. */
  ghost predicate DistinctKeys(tags: seq<ClusterTag>)
  {
    forall i, j :: 0 <= i < j < |tags| ==> tags[i].key != tags[j].key
  }

  /** Every entry with the desired key takes the desired value; the others stay. */
  function Overwrite(tags: seq<ClusterTag>, key: string, value: string): seq<ClusterTag>
  {
    seq(|tags|, i requires 0 <= i < |tags| =>
      if tags[i].key == key then ClusterTag(key, value) else tags[i])
  }

  /** The list the update call carries when the exact pair is absent: the key's
      entries overwritten in place when it is present, the pair appended when not. */
  function Reconciled(tags: seq<ClusterTag>, key: string, value: string): seq<ClusterTag>
  {
    if HasKey(tags, key) then Overwrite(tags, key, value) else tags + [ClusterTag(key, value)]
  }

  /** One turn of the merge loop at entry `i`, for an entry that is not the
      exact pair: overwrite it if it has the key, then move on. */
  lemma MergeStep(tags: seq<ClusterTag>, key: string, value: string, i: nat,
                  result: seq<ClusterTag>, merged: bool)
    requires i < |tags| && result == Overwrite(tags[..i], key, value) + tags[i..]
    requires ClusterTag(key, value) !in tags[..i]
    requires merged <==> HasKey(tags[..i], key)
    ensures result[i] == tags[i]
    ensures tags[i] != ClusterTag(key, value) ==>
      ClusterTag(key, value) !in tags[..i + 1] &&
      (if tags[i].key == key then result[i := ClusterTag(key, value)] else result) ==
        Overwrite(tags[..i + 1], key, value) + tags[i + 1..] &&
      (merged || tags[i].key == key <==> HasKey(tags[..i + 1], key))
  {
    assert tags[..i + 1] == tags[..i] + [tags[i]];
    assert result[i] == tags[i..][0];
    if HasKey(tags[..i + 1], key) && tags[i].key != key {
      var j :| 0 <= j < i + 1 && tags[..i + 1][j].key == key;
      assert tags[..i][j].key == key;
    }
    if HasKey(tags[..i], key) {
      var j :| 0 <= j < i && tags[..i][j].key == key;
      assert tags[..i + 1][j].key == key;
    }
    if tags[i].key == key {
      assert tags[..i + 1][i].key == key;
    }
    var next := if tags[i].key == key then result[i := ClusterTag(key, value)] else result;
    var want := Overwrite(tags[..i + 1], key, value) + tags[i + 1..];
    forall k | 0 <= k < |tags| ensures next[k] == want[k] {
      if k > i {
        assert next[k] == tags[i..][k - i] == tags[k];
      }
    }
  }

  /** Without the key, overwriting changes nothing. */
  lemma OverwriteWithoutKey(tags: seq<ClusterTag>, key: string, value: string)
    requires !HasKey(tags, key)
    ensures Overwrite(tags, key, value) == tags
  {
    forall i | 0 <= i < |tags| ensures Overwrite(tags, key, value)[i] == tags[i] {
      assert tags[i].key != key;
    }
  }

  /** The merge loop of `tag_cluster` from entry `i` on, with the list and
      the `merged` flag as the earlier turns left them: it stops at the first
      exact entry (`found`), and overwrites the value of every entry with the
      key before that (`merged`). */
  function MergeFrom(result: seq<ClusterTag>, key: string, value: string, i: nat, merged: bool)
    : (r: (seq<ClusterTag>, bool, bool))
    requires i <= |result|
    ensures |r.0| == |result|
    decreases |result| - i
  {
    if i == |result| then (result, false, merged)
    else if result[i].key == key then
      if result[i].value == value then (result, true, merged)
      else MergeFrom(result[i := ClusterTag(key, value)], key, value, i + 1, true)
    else MergeFrom(result, key, value, i + 1, merged)
  }

  /** What the merge loop computes, started at entry `i` of `tags` in the
      state the first `i` turns leave. */
  lemma {:induction false} MergeFromMeaning(tags: seq<ClusterTag>, key: string, value: string, i: nat,
                                            result: seq<ClusterTag>, merged: bool)
    requires i <= |tags| && result == Overwrite(tags[..i], key, value) + tags[i..]
    requires ClusterTag(key, value) !in tags[..i]
    requires merged <==> HasKey(tags[..i], key)
    ensures var r := MergeFrom(result, key, value, i, merged);
      (r.1 <==> ClusterTag(key, value) in tags) &&
      (!r.1 ==> (r.2 <==> HasKey(tags, key)) && r.0 == Overwrite(tags, key, value)) &&
      (r.1 ==> exists stop :: 0 <= stop < |tags| && tags[stop] == ClusterTag(key, value) &&
                ClusterTag(key, value) !in tags[..stop] &&
                r.0 == Overwrite(tags[..stop], key, value) + tags[stop..])
    decreases |tags| - i
  {
    if i == |tags| {
      assert tags[..i] == tags && tags[i..] == [];
    } else {
      MergeStep(tags, key, value, i, result, merged);
      if tags[i] != ClusterTag(key, value) {
        var next := if tags[i].key == key then result[i := ClusterTag(key, value)] else result;
        MergeFromMeaning(tags, key, value, i + 1, next, merged || tags[i].key == key);
      }
    }
  }

  /** The merge loop as the source writes it, with `break` at the exact entry. */
  method MergeClusterTags(tags: seq<ClusterTag>, key: string, value: string)
    returns (result: seq<ClusterTag>, found: bool, merged: bool)
    ensures (result, found, merged) == MergeFrom(tags, key, value, 0, false)
    ensures found <==> ClusterTag(key, value) in tags
    ensures !found ==> (merged <==> HasKey(tags, key)) && result == Overwrite(tags, key, value)
    ensures found ==> exists stop :: 0 <= stop < |tags| && tags[stop] == ClusterTag(key, value) &&
                       ClusterTag(key, value) !in tags[..stop] &&
                       result == Overwrite(tags[..stop], key, value) + tags[stop..]
  {
    result := tags;
    found, merged := false, false;
    var i := 0;
    while i < |result|
      invariant 0 <= i <= |result| == |tags|
      invariant MergeFrom(result, key, value, i, merged) == MergeFrom(tags, key, value, 0, false)
      invariant !found
    {
      if result[i].key == key {
        if result[i].value == value {
          found := true;
          break;
        }
        result := result[i := ClusterTag(key, value)];
        merged := true;
      }
      i := i + 1;
    }
    assert tags[..0] == [] && Overwrite([], key, value) + tags == tags;
    MergeFromMeaning(tags, key, value, 0, tags, false);
  }

  /** What `tag_cluster` does, with the dry-run guard the rest of the program
      applies to every tag-changing call. */
  function ClusterUpdate(detail: ClusterDetail, key: string, value: string, save: bool): ClusterOutcome
  {
    if detail.status != 200 then DescribeFailed
    else
      match detail.tags
      case None => Failed(NotIterable)
      case Some(tags) =>
        if ClusterTag(key, value) in tags then AlreadyTagged
        else if save then Submitted(Reconciled(tags, key, value))
        else Pending(Reconciled(tags, key, value))
  }

  /** `tag_cluster` as written: `save` is never read, so a dry run still sends
      the update. */
  function ClusterUpdateAsWritten(detail: ClusterDetail, key: string, value: string, save: bool): ClusterOutcome
  {
    if detail.status != 200 then DescribeFailed
    else
      match detail.tags
      case None => Failed(NotIterable)
      case Some(tags) =>
        if ClusterTag(key, value) in tags then AlreadyTagged
        else Submitted(Reconciled(tags, key, value))
  }

  /** The source's behaviour differs from the dry-run promise: a dry run on an
      untagged cluster sends the modify-cluster-tags call. */
  lemma DryRunSubmitsAsWritten(key: string, value: string)
    ensures ClusterUpdateAsWritten(ClusterDetail(200, Some([])), key, value, false) ==
            Submitted([ClusterTag(key, value)])
  {
    assert !HasKey([], key);
  }

  /** With the guard, a dry run never sends an update, and a saving run sends
      one exactly when the pair is missing from a listed tag set. */
  lemma ClusterUpdateSubmitsOnlyWhenSaving(detail: ClusterDetail, key: string, value: string, save: bool)
    ensures ClusterUpdate(detail, key, value, save).Submitted? <==>
            save && detail.status == 200 && detail.tags.Some? &&
            ClusterTag(key, value) !in detail.tags.value
    ensures !save ==> !ClusterUpdate(detail, key, value, save).Submitted?
  {
  }

  /** The tagging method: describe answer in, outcome out. */
  method TagCluster(detail: ClusterDetail, key: string, value: string, save: bool)
    returns (outcome: ClusterOutcome)
    ensures outcome == ClusterUpdate(detail, key, value, save)
  {
    if detail.status != 200 {
      return DescribeFailed;
    }
    if detail.tags.None? {
      return Failed(NotIterable);
    }
    var tags, found, merged := MergeClusterTags(detail.tags.value, key, value);
    if found {
      return AlreadyTagged;
    }
    if !merged {
      OverwriteWithoutKey(detail.tags.value, key, value);
      tags := tags + [ClusterTag(key, value)];
    }
    if save {
      outcome := Submitted(tags);
    } else {
      outcome := Pending(tags);
    }
  }

  /** The reconciled list holds the pair, every entry with the key has the
      desired value, entries with other keys are unchanged and in place, and
      the list grows by one exactly when the key was absent. */
  lemma ReconciledProperties(tags: seq<ClusterTag>, key: string, value: string)
    ensures var r := Reconciled(tags, key, value);
      ClusterTag(key, value) in r &&
      (forall i :: 0 <= i < |r| && r[i].key == key ==> r[i].value == value) &&
      (forall i :: 0 <= i < |tags| && tags[i].key != key ==> r[i] == tags[i]) &&
      |r| == if HasKey(tags, key) then |tags| else |tags| + 1
  {
    var r := Reconciled(tags, key, value);
    if HasKey(tags, key) {
      var i :| 0 <= i < |tags| && tags[i].key == key;
      assert r[i] == ClusterTag(key, value);
    } else {
      assert r[|tags|] == ClusterTag(key, value);
    }
  }

  /** Reconciling keeps keys distinct: no duplicate key is ever introduced. */
  lemma ReconciledKeepsKeysDistinct(tags: seq<ClusterTag>, key: string, value: string)
    requires DistinctKeys(tags)
    ensures DistinctKeys(Reconciled(tags, key, value))
  {
    var r := Reconciled(tags, key, value);
    if !HasKey(tags, key) {
      forall i, j | 0 <= i < j < |r| ensures r[i].key != r[j].key {
        if j == |tags| {
          assert r[i] == tags[i];
        }
      }
    }
  }

  /** Idempotence: running again on what the first run left behind finds the
      pair and sends nothing. */
  lemma ClusterUpdateIdempotent(tags: seq<ClusterTag>, key: string, value: string, save: bool)
    ensures var after := match ClusterUpdate(ClusterDetail(200, Some(tags)), key, value, save)
                         case Submitted(t) => t
                         case _ => tags;
      save ==> ClusterUpdate(ClusterDetail(200, Some(after)), key, value, save) == AlreadyTagged
  {
    ReconciledProperties(tags, key, value);
  }

  /** The example: `[{env, prod}]` with the pair `(ack.aliyun.com, c-1)`. */
  lemma AppendExample()
    ensures ClusterUpdate(ClusterDetail(200, Some([ClusterTag("env", "prod")])), "ack.aliyun.com", "c-1", true) ==
            Submitted([ClusterTag("env", "prod"), ClusterTag("ack.aliyun.com", "c-1")])
  {
    var tags := [ClusterTag("env", "prod")];
    assert !HasKey(tags, "ack.aliyun.com") by {
      assert tags[0].key != "ack.aliyun.com";
    }
  }
}
