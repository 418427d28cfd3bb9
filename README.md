# SageMaker discovery adapters of cloudiscovery, in Dafny

This project models the part of cloudiscovery's VPC discovery that finds Amazon SageMaker
notebook instances and training jobs attached to a target VPC. It covers:

- the two adapters `SAGEMAKERNOTEBOOK` and `SAGEMAKERTRAININGOB` and their `get_resources`;
- the records they emit (`ResourceDigest`, `ResourceEdge`, `ResourceTag`, `Resource`);
- the `ResourceProvider` base class, which owns the `relations_found` edge accumulator;
- the tag helpers `resource_tags_from_tuples`, `resource_tags_from_dict`, `get_tag` and `get_name_tag`.

Files:

- `wrappers.dfy`: `Option` and `Result`.
- `seqs.dfy`: `Filter` and `KeptIndices`, which say which elements a filter keeps and where they were.
- `common.dfy`: module `Common`, modelling `clouddiscovery/shared/common.py`.
  - The four records are datatypes. `ResourceDigest.type` is named `kind` and `ResourceEdge.label` is named `edgeLabel`, because `type` and `label` are Dafny keywords.
  - The tag normalisers and `get_tag` are methods with loops, proved against their specifications.
  - `ResourceProvider` is a class with a `relationsFound` field.
- `ml.dfy`: module `Ml`, modelling `clouddiscovery/provider/vpc/resource/ml.py`.
  - The SageMaker answers are inputs, held as fields of `SagemakerClient` inside `VpcOptions`: the listings, `describe_notebook_instance`, `describe_training_job` and `list_tags`.
  - The subnet lookup is also an input in `VpcOptions`. It maps a subnet id to the `VpcId` of the first subnet found, or to `None` when the lookup fails.
  - The tag normaliser `resource_tags` is a parameter of `GetResources`.
  - Each adapter is a class with a `GetResources` method that walks the listing with the source's loops. It returns the resources and appends edges to its `ResourceProvider`.

The scans are specified twice:

- Loop-shaped functions follow the code step by step: `ScanUpTo` for notebooks; `SubnetScan`, `JobScan` and `TrainingScanUpTo` for training jobs. The methods are proved against these.
- A reference definition states the design: form the (item, subnet) placements, keep those whose subnet lies in the target VPC (`Filter(InVpc(o), …)`), then emit one resource and one edge per kept placement (`ScanOf`).

Lemmas prove the two definitions equal. Further lemmas state which items are kept, in what order, and how edges pair with resources.

A notebook description without a "SubnetId" makes the source raise a key error on `notebook_instance["SubnetId"]`. The model returns `Failure(MissingSubnetId(name))` at that point, and keeps the edges already appended to the accumulator, as the source does. The key error names only the missing key; carrying the instance's name in the error is the model's addition.

## Model

| member | source | states |
|---|---|---|
| Common.RecordDefaults | clouddiscovery/shared/common.py:47-63 | a `Resource` built without details, group or tags has `""`, `""` and `[]`; an edge built without a label has none |
| Common.ResourceTagsFromTuples | clouddiscovery/shared/common.py:66-79 | the result has the input's length, and its i-th tag carries the i-th entry's Key and Value |
| Common.ResourceTagsFromDict | clouddiscovery/shared/common.py:82-92 | one tag per dictionary entry: every tag is an entry of the dictionary, every entry appears as a tag, and the keys are pairwise distinct |
| Common.ResourceProvider.constructor | clouddiscovery/shared/common.py:96-102 | a new provider has no edges |
| Common.ResourceProvider.GetResources | clouddiscovery/shared/common.py:104-105 | the base provider finds nothing and changes nothing |
| Common.ResourceProvider.GetRelations | clouddiscovery/shared/common.py:107-108 | returns the accumulated edges as they are, changing nothing |
| Common.FirstTagValueIsFirstMatch | clouddiscovery/shared/common.py:115-122 | the lookup is None exactly when no tag has the key; otherwise it is the value of a tag with that key, and no earlier tag has the key |
| Common.GetTag | clouddiscovery/shared/common.py:115-122 | the nested loop with early return yields the first matching tag's value, or None when there is no "Tags" entry or no match |
| Common.GetNameTag | clouddiscovery/shared/common.py:111-112 | equals the tag lookup for "Name" |
| Ml.SubnetPrefixLength | clouddiscovery/provider/vpc/resource/ml.py:39-48 | the instances the loop gets past are a prefix, all with a subnet; the instance right after that prefix, if any, has none |
| Ml.NotebookPlacementsAt | clouddiscovery/provider/vpc/resource/ml.py:39-48 | the i-th notebook placement is the i-th listed instance, in the subnet its description names |
| Ml.ScanOfAt | clouddiscovery/provider/vpc/resource/ml.py:53-74 | the i-th emitted resource and the i-th emitted edge both come from the i-th kept placement |
| Ml.EmitIfInVpcStep | clouddiscovery/provider/vpc/resource/ml.py:51-74 | one loop step, which adds a resource and an edge only when the subnet lookup succeeds and names the target VPC, extends the filter-then-emit scan by one placement |
| Ml.ScanUpToIsScanOfFilter | clouddiscovery/provider/vpc/resource/ml.py:39-74 | walking placements and emitting as one goes equals filtering them by the VPC test and then emitting |
| Ml.EdgesLeaveEmittedResources | clouddiscovery/provider/vpc/resource/ml.py:53-74 | as many edges as resources; each edge goes from its resource's digest to `(subnet id, "aws_subnet")` without a label |
| Ml.EdgeSourcesAreResources | clouddiscovery/provider/vpc/resource/ml.py:53-73 | every emitted edge leaves the digest of an emitted resource |
| Ml.NotebookScanSelects | clouddiscovery/provider/vpc/resource/ml.py:39-76 | when every instance has a subnet: the scan succeeds, and its resources and edges come from instances at strictly increasing listing positions; a position is used exactly when its subnet resolves into the target VPC; each resource has the instance's ARN, type "aws_sagemaker_notebook_instance", name, details "" and group "ml" |
| Ml.NotebookScanIsScanOfKept | clouddiscovery/provider/vpc/resource/ml.py:39-76 | when every instance has a subnet, the scan succeeds and emits, via filter-then-emit, for the kept placements of all instances |
| Ml.NotebookKeptPositions | clouddiscovery/provider/vpc/resource/ml.py:39-52 | the kept positions are exactly the instances whose subnet resolves into the target VPC, and the i-th kept placement is the instance at the i-th kept position, in its own subnet |
| Ml.NotebookScanAborts | clouddiscovery/provider/vpc/resource/ml.py:39-48 | at the first instance without a subnet the scan fails naming it; the edges of the kept instances before it stay appended |
| Ml.SagemakerNotebook.constructor | clouddiscovery/provider/vpc/resource/ml.py:17-24 | keeps the options; the provider part starts with no edges |
| Ml.SagemakerNotebook.GetResources | clouddiscovery/provider/vpc/resource/ml.py:27-76 | returns the notebook scan's result and appends exactly its edges to the accumulator, whose earlier contents stay as a prefix |
| Ml.SubnetPlacementsAt | clouddiscovery/provider/vpc/resource/ml.py:108-113 | a job's i-th placement is in the i-th subnet of its VPC configuration |
| Ml.TrainingPlacementsSound | clouddiscovery/provider/vpc/resource/ml.py:100-113 | only listed jobs with a VPC configuration are placed, and only in subnets that configuration lists |
| Ml.TrainingPlacementsComplete | clouddiscovery/provider/vpc/resource/ml.py:100-113 | every subnet of every listed job with a VPC configuration is placed |
| Ml.TrainingPlacementsPrefix | clouddiscovery/provider/vpc/resource/ml.py:100-108 | placements follow listing order: the first m jobs' placements are a prefix of the first n jobs' |
| Ml.SubnetScanIsScanOfFilter | clouddiscovery/provider/vpc/resource/ml.py:108-140 | the inner loop over a job's subnets equals filter-then-emit over that job's placements |
| Ml.TrainingScanUpToIsScanOfFilter | clouddiscovery/provider/vpc/resource/ml.py:100-140 | the nested walk over jobs and subnets equals filter-then-emit over all placements |
| Ml.TrainingScanSelects | clouddiscovery/provider/vpc/resource/ml.py:100-140 | each emitted resource is a listed job with a VPC configuration, for one of its subnets that resolves into the target VPC, with type "aws_sagemaker_training_job" and group "ml"; conversely every such job and subnet is emitted |
| Ml.SubnetScanAppends | clouddiscovery/provider/vpc/resource/ml.py:108-140 | walking a job's subnets appends the job's single resource once per matching subnet, and one edge to each matching subnet in subnet order |
| Ml.JobScanAppends | clouddiscovery/provider/vpc/resource/ml.py:106-140 | a job without "VpcConfig" adds nothing; with one, it adds identical resources (one digest) and edges to its matching subnets in listed order |
| Ml.TwoMatchingSubnetsDuplicateResource | clouddiscovery/provider/vpc/resource/ml.py:108-140 | a single job with two matching subnets yields the same resource twice and two edges, s1 then s2 |
| Ml.TrainingScanGrows | clouddiscovery/provider/vpc/resource/ml.py:100-140 | output follows listing order: what the first m jobs emit is a prefix of what the first n emit |
| Ml.ScansPairEdgesWithResources | clouddiscovery/provider/vpc/resource/ml.py:119-140 | in the training scan, and in a successful notebook scan, the i-th edge leaves the i-th returned resource's digest for a subnet digest, without a label; every edge leaves a returned resource |
| Ml.SagemakerTrainingJob.constructor | clouddiscovery/provider/vpc/resource/ml.py:80-87 | keeps the options; the provider part starts with no edges |
| Ml.SagemakerTrainingJob.GetResources | clouddiscovery/provider/vpc/resource/ml.py:90-142 | returns the training scan's resources and appends exactly its edges, keeping earlier edges as a prefix |
| Ml.ScanTwice | clouddiscovery/provider/vpc/resource/ml.py:133-140 | the accumulator only grows: two calls return the same resources and append the scan's edges twice |

## Left out

- The boto3 session and client (`BaseAwsOptions.client`, `account_number`, `resulting_file_name`) are network calls and are not modelled. The SageMaker calls `list_notebook_instances`, `describe_notebook_instance`, `list_tags`, `list_training_jobs` and `describe_training_job` become input fields of `SagemakerClient`. Only the response fields the adapters read are kept.
- The API answers are fixed inputs for an adapter's lifetime: they live in its constant `vpcOptions`. The source builds a new client and re-lists, re-describes and re-looks-up subnets on every call, so answers that change between calls are not modelled.
- Ml.ScanTwice: its two calls return the same resources only because both calls see the same fixed answers. In the source, two calls agree only when the cloud answers the same both times.
- `describe_subnet` (shared/common_aws) is not part of this model. It becomes the input `subnetVpcId`, which gives the `VpcId` of `Subnets[0]` or None. A successful lookup that returns an empty `Subnets` list is not modelled.
- `resource_tags` is not part of this model. It is the parameter `resourceTags` of each `GetResources`.
- The `@exception` decorator (shared/error_handler) is not part of this model. The notebook scan's one error path is returned as a `Result` instead of raised and caught. Errors raised inside the SDK calls are not modelled.
- `message_handler`, `log_critical`, `exit_critical`, `generate_session` and the `bcolors` table only print, exit or create sessions, so they are not modelled.
- `VPCE_REGEX`, `SOURCE_IP_ADDRESS_REGEX` and `datetime_to_string` are not used by the modelled code, so they are not modelled.
- Inheritance is modelled as composition: each adapter holds a `ResourceProvider` in `provider` and appends to its `relationsFound`.
- Common.ResourceTagsFromDict: does not state that the tags follow the dictionary's insertion order, because a Dafny `map` has no order. It states which tags appear and that each appears once.
- Common.ResourceProvider.GetRelations: returns the edges as a value. The source returns the list object itself, so later appends are visible through it; that aliasing is not modelled.
- Common.GetTag: the model takes "Tags", when present, to be a sequence of entries that each carry a Key and a Value; other values there are not modelled. The source only iterates the value: it raises on None, on a non-empty string and on an entry without "Key", and returns None for an empty iterable of any kind.
- Common.GetNameTag: inherits that requirement on "Tags" from `GetTag`, for the same reason.
- Common.GetTag: scans the description's keys in an arbitrary order rather than insertion order. This changes nothing, because at most one key equals "Tags".
