# ack-tag-tool in Dafny

A model of the decision logic of the ACK cluster tagging tool (`main.py`). The tool makes sure one tag pair (`key`, `value`) is present on a managed Kubernetes cluster and on the cloud resources behind it: the cluster object, each node's ECS instance, disks, snapshots and network interfaces, and the SLB load balancers. It can also run as a dry run. Every provider call is a parameter of the model:

- a describe call is represented by its parsed JSON answer, with `Null` for a call that failed (`do_action` returned None);
- a tag-apply call is represented by a function `apply: TagRequest -> bool` that says whether a response came back.

Python exceptions that the code does not catch are results (`Result`, `Plan.failure`), not preconditions: `.get` on something that is not a dict, a `for` loop over None, a missing dict key, subscripting None, a list or dict used as a dict key, and a provider id without a `.`.

Modules, in dependency order:

- `Wrappers` (wrappers.dfy): `Option`, `Result` and the exceptions that can be raised (`Raised`).
- `Documents` (documents.dfy): JSON values, `.get`, iteration, and `find_by_path` (spec function `Resolve`, loop method `FindByPath`).
- `Tags` (tags.dfy): `tag_exists` (spec `TagExistsSpec`, loop method `TagExists`), and a typed view of resource documents (`Resource`, `ResourceDoc`).
- `Tagging` (tagging.dfy): the exists-check-then-apply decision as the ordered list of apply requests (`Plan`), for one node (`NodePlan`) and for any resource loop (`EachResource`).
- `ProviderId` (provider_id.dfy): `provider_id.split('.')`, `[0]` and `[1]`.
- `ClusterTags` (cluster_tags.dfy): the merge loop of `tag_cluster` and the update decision.
- `Batching` (batching.dfy): cutting the instance ids into batches of 50, the describe calls, and merging the answers into one map.
- `Nodes` (nodes.dfy): the `NodeInfo` class (its `info` field is updated in place), building it, attaching instance documents, and the `tag_resources` loops.
- `LoadBalancers` (load_balancers.dfy): the loop of `tag_slb_instances`.
- `Run` (run.dfy): properties of a whole run (dry run, a second run).

Behaviour of the code worth knowing:

- A failed disk, snapshot or network-interface describe call is not read as an empty list. `do_action` returns None and `find_by_path(None, ...)` then raises (main.py:43-51, 76-77, 30-32), so `BuildNodeInfo` fails.
- The load-balancer describe call is not filtered by the cluster tag. main.py:208 assigns `req.set_Tags` instead of calling it, so `SlbPlan` takes whatever list the answer holds.
- `tag_cluster` never reads `save`; see Findings.

## Model

| member | source | states |
|---|---|---|
| `Documents.FindByPath` | main.py:30-35 | The loop returns what `Resolve` defines: follow the keys in order, stop with None at the first key that is missing or maps to None, and raise when `.get` is applied to a non-dict. |
| `Documents.ResolveNest` | main.py:30-35 | Following the keys of a document that nests `leaf` under `path` returns `leaf`. The keys are followed in order down to the nested value. |
| `Documents.ResolveAppend` | main.py:30-35 | Walking `p + q` is walking `p` and then `q` from where `p` ended. A None met along `p` ends the walk at once. |
| `Documents.MissingKeyAnswersNone` | main.py:31-34 | Once the walk reaches a dict that lacks the next key, the answer is None, whatever keys follow. |
| `Tags.TagExists` | main.py:37-41 | The loop gives `TagExistsSpec`: the `Tags.Tag` list is looked up with `find_by_path` and scanned for an exact `TagKey`/`TagValue` match. A missing list raises. Running off the end is false. |
| `Tags.ScanIff` | main.py:39-41 | Over a list of dicts the scan never raises. It is true exactly when some entry matches both key and value. |
| `Tags.ScanTrueHasWitness` | main.py:39-41 | A true answer always has a witness: an entry that is a dict and matches exactly. |
| `Tags.TagExistsOnResource` | main.py:37-41 | On a resource document, `tag_exists` is membership of the pair in its tag list. When the document has no tag list, the loop raises (`NotIterable`). |
| `Tagging.EachResourceShape` | main.py:91-97 | Every request the resource loop issues carries the loop's service and resource type, exactly one resource id and exactly one `{Key, Value}` pair. |
| `Tagging.EachResourceDryRun` | main.py:110-120 | With `save` false the resource loop issues no apply request, however many resources are untagged. |
| `Tagging.EachResourceSaves` | main.py:110-145 | For well-formed resources with `save` true, the loop issues exactly one request per resource whose `tag_exists` is false, in list order, naming that resource's id. Tagged resources get no request. |
| `Tagging.AllTaggedIssuesNothing` | main.py:110-145 | Once every resource carries the pair, a saving run issues no request. |
| `Tagging.InstancePlanOrdered` | main.py:100-108 | The instance step issues no request, or exactly one: an `instance` request naming that instance id with the pair. A dry run issues none. |
| `Tagging.InstancePlanDecides` | main.py:100-108 | With `save` set and the instance lacking the pair, the step issues exactly the one `instance` request. When the instance carries the pair, it issues nothing. When the tag check raises, the step raises before any call. |
| `Tagging.NodePlanProperties` | main.py:99-145 | For one node: a dry run issues nothing. Every request goes to the ECS tag API with one id and the one pair. Requests come in the order instance, disks, snapshots, network interfaces, and no other resource type appears. |
| `Tagging.NodePlanSaves` | main.py:99-145 | For a saving run over well-formed documents, the node's requests are: the instance request if the instance lacks the pair, then one request per untagged disk, snapshot and network interface, in listing order, each named by its id field. Nothing raises. |
| `ProviderId.Split` | main.py:59 | `str.split` always yields at least one piece. |
| `ProviderId.JoinSplit` | main.py:59 | Joining the pieces of `split('.')` with `.` gives the provider id back. |
| `ProviderId.SplitPiecesHaveNoSep` | main.py:59 | No piece of `split('.')` contains a `.`. |
| `ProviderId.SplitAfterPrefix` | main.py:59 | A string without `.` is one piece, and a `.` after such a prefix ends the first piece. |
| `ProviderId.ParseProviderIdMeaning` | main.py:59-61 | `[0]`/`[1]` succeed exactly when the id contains a `.`; otherwise `[1]` raises `IndexError`. The region is the text before the first `.` and the instance id is the text up to the second `.` or the end. Neither contains a `.`. |
| `ProviderId.ParseOfComposed` | main.py:59-61 | Conversely, `<region>.<instance-id>` (optionally followed by `.…`) parses back to exactly its region and instance id. |
| `ProviderId.ParseExample` | main.py:59-61 | `cn-hangzhou.i-abc123` gives `("cn-hangzhou", "i-abc123")`. |
| `ClusterTags.MergeClusterTags` | main.py:241-250 | The loop computes `MergeFrom` from entry 0. `found` holds exactly when the pair is in the list. If it is not found: `merged` holds exactly when the key is present, and every entry with the key has been overwritten with the value. If it is found: the loop stopped at the first exact entry, and only same-key entries before that entry were overwritten. |
| `ClusterTags.MergeFromMeaning` | main.py:241-250 | The same facts for the loop resumed at any entry `i` in the state the first `i` turns leave. This is the induction behind the loop's contract. |
| `ClusterTags.TagCluster` | main.py:230-267 | The outcome is `ClusterUpdate`: a non-200 describe returns False (`DescribeFailed`). A missing `tags` field raises. An exact pair means nothing is sent. Otherwise the merged list gets the pair appended when nothing was merged (the result is `Reconciled`), and it is submitted only when saving (corrected behaviour, see Findings). |
| `ClusterTags.DryRunSubmitsAsWritten` | main.py:251-267 | The code as written sends the update in a dry run: an untagged cluster with `save` false still submits `[{key, value}]`. |
| `ClusterTags.ClusterUpdateSubmitsOnlyWhenSaving` | main.py:251-267 | With the dry-run guard, an update is submitted exactly when saving, the describe succeeded, and the pair is missing. A dry run never submits. |
| `ClusterTags.ReconciledProperties` | main.py:243-258 | The submitted list holds the pair. Every entry with the key has the desired value. Entries with other keys are unchanged and in place. The list grows by one exactly when the key was absent. |
| `ClusterTags.ReconciledKeepsKeysDistinct` | main.py:243-258 | If the input has no duplicate keys, the merged list has none either. |
| `ClusterTags.ClusterUpdateIdempotent` | main.py:241-258 | A second saving run on what the first run left finds the pair and sends nothing. |
| `ClusterTags.AppendExample` | main.py:243-261 | `[{env, prod}]` with `(ack.aliyun.com, c-1)` submits `[{env, prod}, {ack.aliyun.com, c-1}]`. |
| `Batching.BatchesPartition` | main.py:160-173 | The batches concatenate back to the ids in order. Each batch is non-empty with at most 50 ids, all but the last have exactly 50, and there are ceil(N/50) of them (none for 0 ids). |
| `Batching.BatchesExample` | main.py:160-173 | 120 ids make three batches: ids 0-49, 50-99 and 100-119. |
| `Batching.BatchesSplit` | main.py:164-171 | Cutting the ids at a multiple of 50 cuts the list of batches at the same point. |
| `Batching.MergeItemsMeaning` | main.py:153-157 | Merging succeeds exactly when every listed item is a dict whose `InstanceId` can be a key: a string or None, not a list or dict (`TypeError`). Each item is then stored under its `InstanceId`, and a later item with the same id overwrites an earlier one. Keys that no item names keep their old value. |
| `Batching.AddEcsInstancesToMap` | main.py:148-158 | The loop gives `MergeResponse`: a failed call (None) leaves the map unchanged, a malformed answer raises, including one whose `InstanceId` is a list or dict, and otherwise every instance document is stored under its id. |
| `Batching.DescribeAllCollects` | main.py:148-173 | After a successful describe pass, the map keeps every earlier key and has an entry for every instance id that any answer listed. |
| `Batching.MergeItemsAppend` | main.py:155-157 | Storing the items of `a + b` is storing those of `a`, then those of `b` into the resulting map, unless `a` raised. |
| `Batching.DescribeAllIsOneMerge` | main.py:148-173 | A successful describe pass leaves the same map as one merge of every listed instance document, in call order. With `MergeItemsMeaning`, each document is stored under its `InstanceId`, and a later answer overwrites an earlier one. |
| `Batching.CompleteAnswersCoverAllIds` | main.py:160-175 | If the provider answers each batch with a document for every id it asked about, and every listed document is a dict whose `InstanceId` is a string or None, the pass succeeds and the map holds every node's id, so attaching cannot fail. |
| `Batching.BatchDescribe` | main.py:160-173 | The counting loop makes exactly the calls that `Batches` lists, in order, and merges each answer. It stops at the first answer that raises. A pass that succeeds makes exactly the `Batches(ids)` calls, one per 50 ids or part of 50. |
| `Batching.DescribeAllCallsAll` | main.py:160-173 | A successful describe pass makes one call per batch, in order, and no other. |
| `Nodes.NodeInfo.constructor` | main.py:54-66 | The record has the given name, region, instance id, zone and resource lists. `info` is None until attached. |
| `Nodes.BuildNodeInfo` | main.py:54-89 | `NodeInfo.__init__` succeeds exactly when the provider id is present and has a `.`, the labels are present and hold the zone label, and all three `find_by_path` lookups succeed; it fails with the exception raised by the first failing step (a missing provider id, a provider id without `.`, missing labels, a missing zone label, disks, snapshots, network interfaces, in that order). On success the fields are the parsed region and instance id, the zone label and the looked-up lists. |
| `Nodes.NodeInfo.TagResource` | main.py:91-97 | One ECS request with the given type, exactly one resource id and one `{Key, Value}` pair. Its result is the provider's answer (`resp != None`). |
| `Nodes.NodeInfo.TagEach` | main.py:110-145 | One resource loop of `tag_resources` issues exactly the requests of `Collection`. The loop continues after a failed apply, and each answer is recorded. |
| `Nodes.NodeInfo.TagResources` | main.py:99-145 | `tag_resources` issues exactly `TagPlan` (instance, disks, snapshots, network interfaces). The plan does not depend on `apply`, so a failed apply never stops the remaining resources. |
| `Nodes.AttachInfo` | main.py:174-175 | It succeeds exactly when every node's id is in the map, and then each node's `info` is `map[node.instance_id]`. Otherwise it raises `KeyError` at the first missing id. Earlier nodes have been assigned, and nodes not yet reached are unchanged. |
| `Nodes.DescribeEcsInstances` | main.py:160-175 | The calls are the batched describe calls. A merge that raises leaves every `info` unchanged. After a successful pass, the attach succeeds exactly when every id is in the map, and then each node's `info` is its document. |
| `Nodes.NodesPlanProperties` | main.py:344-346 | Across all nodes a dry run issues nothing. Every request carries one id and the one pair. |
| `Nodes.TagNodes` | main.py:345-346 | Tagging the nodes one after another issues exactly `NodesPlan`, and each answer is recorded. |
| `LoadBalancers.SlbPlanProperties` | main.py:213-228 | A dry run issues nothing. Every request goes to the SLB tag API with type `instance`, one load-balancer id and the one pair. |
| `LoadBalancers.SlbPlanSaves` | main.py:211-228 | For a well-formed answer with `save` true: exactly one request per untagged load balancer, in listing order, naming its `LoadBalancerId`. |
| `LoadBalancers.TagSlbInstances` | main.py:205-228 | The calls issued are exactly `SlbPlan`. `.get` on a missing answer (None) raises before any call. Each answer is recorded. |
| `LoadBalancers.TagListed` | main.py:213-228 | The loop over the listed load balancers issues exactly `EachResource` for them. It continues after a failed apply and records each answer. |
| `Run.DryRunChangesNothing` | main.py:342-347 | With `save` false, no call of the run changes a tag: not on the cluster (with the corrected guard), not on any node's resources, and not on any load balancer. |
| `Run.SecondRunIssuesNothing` | main.py:110-145 | Idempotence: after every resource of a list has received the pair, a second saving run over the list issues no request. |

## Findings

| source | as written | input that shows it | evidently intended | confidence | as-written member | corrected member |
|---|---|---|---|---|---|---|
| main.py:230-267 | `tag_cluster` takes `save` but never reads it. Whenever the exact pair is missing it builds `ModifyClusterTagsRequest` and sends it. | a cluster whose tags are `[]`, any pair, `save` false: the update `[{key, value}]` is sent | a dry run sends no update, like every other tag-changing call in the program (main.py:104, 116, 128, 141, 219) | high; not executed | `ClusterTags.DryRunSubmitsAsWritten` | `ClusterTags.ClusterUpdateSubmitsOnlyWhenSaving` |

`ClusterTags.ClusterUpdateAsWritten` is the as-written decision. `ClusterTags.ClusterUpdate`, implemented by `ClusterTags.TagCluster`, is the corrected one, and the rest of the model (`Run.DryRunChangesNothing`) uses it. In a dry run the corrected version reports `Pending(tags)`: the list it would have sent.

## Left out

- Nodes.BuildNodeInfo: the node's `metadata` and `spec` objects are taken as present, and `metadata.name` as a string. A node without either object raises AttributeError at main.py:55-57 before any other step, and the model does not represent that case. The optional `spec.provider_id` and `metadata.labels` are modelled as `Option`s.

- Provider SDK and HTTP traffic (`do_action`, `AcsClient`, `get_response`, request objects, JSON encoding and decoding). Describe answers are parameters (parsed JSON, `Null` for a failed call). Tag-apply calls are the `apply` parameter. The update call of `tag_cluster` is represented by the list it would carry; the exception it may raise is caught and logged, so it does not change the outcome.
- Kubeconfig fetching and the temporary file (`load_kube_config`), and listing nodes and services through the Kubernetes client (`list_nodes`, `list_lb_services`). These are I/O and foreign libraries. Node metadata reaches `BuildNodeInfo` as parameters. `list_lb_services` is never called.
- Logging, `help`/`sys.exit`, and parsing the environment and command line, including the checks that the inputs are non-empty. This is process plumbing. Log lines (tagged, not tagged, tagged successfully, failed) are not modelled; the outcome of each apply is returned instead.
- The cluster-tag filter on the load-balancer describe call (main.py:208). The code never applies it, and the answer is an input to the model.
- The page size and page number of the disk describe call (main.py:74-75). These are request parameters for the provider.
- JSON numbers and booleans. Resource documents here contain only dicts, lists, strings and None.
- Iterating a non-empty string or dict where the code expects a list. The model records that the first `.get` on an element raises. It does not model the order in which the elements would be visited.
- Cluster tag entries are `{key, value}` records. An entry that lacks one of the two fields is not modelled.
- `NodeInfo.__repr__`, which only formats the record for logging.
