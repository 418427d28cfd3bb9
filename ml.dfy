/**
 * The two SageMaker discovery adapters of `clouddiscovery/provider/vpc/resource/ml.py`: the
 * notebook-instance scan and the training-job scan. The SageMaker and subnet API answers are inputs
 * (fields of `VpcOptions`); what is modelled is which listed items are kept and what is emitted.
 */
module Ml {
  import opened Wrappers
  import opened Common
  import opened Seqs

  const NotebookInstanceType := "aws_sagemaker_notebook_instance"
  const TrainingJobType := "aws_sagemaker_training_job"
  const SubnetType := "aws_subnet"
  const MlGroup := "ml"

  /** An entry of a SageMaker listing: its name and its ARN. */
  datatype Listed = Listed(name: string, arn: string)

  /** The part of `describe_notebook_instance` read here; "SubnetId" is absent outside a VPC. */
  datatype NotebookDescription = NotebookDescription(subnetId: Option<string>)

  datatype VpcConfig = VpcConfig(subnets: seq<string>)

  /** The part of `describe_training_job` read here; "VpcConfig" is absent outside a VPC. */
  datatype TrainingJobDescription = TrainingJobDescription(vpcConfig: Option<VpcConfig>)

  /** The response of `list_tags`, handed unread to the tag normaliser. */
  datatype TagResponse = TagResponse(tags: seq<TagEntry>)

  /** The answers of the SageMaker client's calls. */
  datatype SagemakerClient = SagemakerClient(
    notebookInstances: seq<Listed>,
    describeNotebookInstance: string -> NotebookDescription,
    listTags: string -> TagResponse,
    trainingJobSummaries: seq<Listed>,
    describeTrainingJob: string -> TrainingJobDescription)

  /**
   * The scan's options: the target VPC id, the SageMaker client, and the subnet lookup, which gives
   * the VpcId of the first subnet found for an id, or None when the lookup fails.
   */
  datatype VpcOptions = VpcOptions(
    vpcId: string,
    sagemaker: SagemakerClient,
    subnetVpcId: string -> Option<string>)

  /**
   * Reading "SubnetId" from a notebook description that has none raises a key error in the source;
   * that error names only the missing key, and carrying the instance's name is this model's addition.
   */
  datatype ScanError = MissingSubnetId(notebookInstanceName: string)

  /** A listed item together with one subnet it was placed in. */
  datatype Placement = Placement(item: Listed, subnetId: string)

  /** The subnet test both scans apply: the subnet lookup succeeds and names the target VPC. */
  predicate InTargetVpc(o: VpcOptions, subnetId: string) {
    o.subnetVpcId(subnetId) == Some(o.vpcId)
  }

  /** The subnet test as a filter on subnet ids. */
  function SubnetInVpc(o: VpcOptions): string -> bool {
    (subnetId: string) => InTargetVpc(o, subnetId)
  }

  /** The subnet test as a filter on placements. */
  function InVpc(o: VpcOptions): Placement -> bool {
    (p: Placement) => InTargetVpc(o, p.subnetId)
  }

  /** The resource emitted for a kept placement. */
  function ResourceFor(o: VpcOptions, resourceTags: TagResponse -> seq<ResourceTag>, kind: string, p: Placement): Resource {
    Resource(ResourceDigest(p.item.arn, kind), p.item.name, "", MlGroup, resourceTags(o.sagemaker.listTags(p.item.arn)))
  }

  /** The edge emitted for a kept placement: from the resource to its subnet. */
  function EdgeFor(kind: string, p: Placement): ResourceEdge {
    ResourceEdge(ResourceDigest(p.item.arn, kind), ResourceDigest(p.subnetId, SubnetType))
  }

  /** What a scan emits: the returned resources and the edges appended to the accumulator. */
  datatype Scan = Scan(resources: seq<Resource>, edges: seq<ResourceEdge>)

  /** The resources and edges emitted for a sequence of kept placements, one of each per placement. */
  function ScanOf(o: VpcOptions, resourceTags: TagResponse -> seq<ResourceTag>, kind: string, ps: seq<Placement>): Scan {
    if ps == [] then Scan([], [])
    else
      var prev := ScanOf(o, resourceTags, kind, ps[..|ps| - 1]);
      var p := ps[|ps| - 1];
      Scan(prev.resources + [ResourceFor(o, resourceTags, kind, p)], prev.edges + [EdgeFor(kind, p)])
  }

  /** The i-th resource and the i-th edge of a scan both come from the i-th placement. */
  lemma {:induction false} ScanOfAt(o: VpcOptions, resourceTags: TagResponse -> seq<ResourceTag>, kind: string, ps: seq<Placement>)
    ensures var s := ScanOf(o, resourceTags, kind, ps);
      |s.resources| == |ps| && |s.edges| == |ps| &&
      forall i :: 0 <= i < |ps| ==>
        s.resources[i] == ResourceFor(o, resourceTags, kind, ps[i]) && s.edges[i] == EdgeFor(kind, ps[i])
  {
    if ps != [] {
      var n := |ps| - 1;
      ScanOfAt(o, resourceTags, kind, ps[..n]);
      var prev := ScanOf(o, resourceTags, kind, ps[..n]);
      var s := ScanOf(o, resourceTags, kind, ps);
      forall i | 0 <= i < |ps|
        ensures s.resources[i] == ResourceFor(o, resourceTags, kind, ps[i]) && s.edges[i] == EdgeFor(kind, ps[i])
      {
        if i < n {
          assert s.resources[i] == prev.resources[i] && s.edges[i] == prev.edges[i];
          assert ps[..n][i] == ps[i];
        }
      }
    }
  }

  /** Emitting for one more kept placement appends its resource and its edge. */
  lemma ScanOfSnoc(o: VpcOptions, resourceTags: TagResponse -> seq<ResourceTag>, kind: string, ps: seq<Placement>, p: Placement)
    ensures ScanOf(o, resourceTags, kind, ps + [p]).resources ==
      ScanOf(o, resourceTags, kind, ps).resources + [ResourceFor(o, resourceTags, kind, p)]
    ensures ScanOf(o, resourceTags, kind, ps + [p]).edges == ScanOf(o, resourceTags, kind, ps).edges + [EdgeFor(kind, p)]
  {
    assert (ps + [p])[..|ps|] == ps;
  }

  /** One step of a scan: a placement whose subnet resolves into the target VPC adds its resource and edge. */
  function EmitIfInVpc(o: VpcOptions, resourceTags: TagResponse -> seq<ResourceTag>, kind: string, s: Scan, p: Placement): Scan {
    if InTargetVpc(o, p.subnetId)
    then Scan(s.resources + [ResourceFor(o, resourceTags, kind, p)], s.edges + [EdgeFor(kind, p)])
    else s
  }

  /** A scan step on the emitted part of `ps` is the emitted part of `ps + [p]`. */
  lemma EmitIfInVpcStep(o: VpcOptions, resourceTags: TagResponse -> seq<ResourceTag>, kind: string, ps: seq<Placement>, p: Placement)
    ensures EmitIfInVpc(o, resourceTags, kind, ScanOf(o, resourceTags, kind, Filter(InVpc(o), ps)), p) ==
      ScanOf(o, resourceTags, kind, Filter(InVpc(o), ps + [p]))
  {
    FilterSnoc(InVpc(o), ps, p);
    if InVpc(o)(p) {
      ScanOfSnoc(o, resourceTags, kind, Filter(InVpc(o), ps), p);
    } else {
      assert Filter(InVpc(o), ps) + [] == Filter(InVpc(o), ps);
    }
  }

  /** What a scan has emitted after walking the first `n` placements of `ps`. */
  function ScanUpTo(o: VpcOptions, resourceTags: TagResponse -> seq<ResourceTag>, kind: string, ps: seq<Placement>, n: nat): Scan
    requires n <= |ps|
  {
    if n == 0 then Scan([], [])
    else EmitIfInVpc(o, resourceTags, kind, ScanUpTo(o, resourceTags, kind, ps, n - 1), ps[n - 1])
  }

  /** Walking placements and emitting as one goes is filtering them by `InVpc` and then emitting. */
  lemma {:induction false} ScanUpToIsScanOfFilter(o: VpcOptions, resourceTags: TagResponse -> seq<ResourceTag>, kind: string, ps: seq<Placement>, n: nat)
    requires n <= |ps|
    ensures ScanUpTo(o, resourceTags, kind, ps, n) == ScanOf(o, resourceTags, kind, Filter(InVpc(o), ps[..n]))
  {
    if n > 0 {
      ScanUpToIsScanOfFilter(o, resourceTags, kind, ps, n - 1);
      assert ps[..n] == ps[..n - 1] + [ps[n - 1]];
      EmitIfInVpcStep(o, resourceTags, kind, ps[..n - 1], ps[n - 1]);
    }
  }

  /**
   * Every emitted edge starts at the digest of the resource emitted with it, ends at the digest of
   * the placement's subnet and carries no label.
   */
  lemma {:induction false} EdgesLeaveEmittedResources(o: VpcOptions, resourceTags: TagResponse -> seq<ResourceTag>, kind: string, ps: seq<Placement>)
    ensures |ScanOf(o, resourceTags, kind, ps).edges| == |ScanOf(o, resourceTags, kind, ps).resources| == |ps|
    ensures var s := ScanOf(o, resourceTags, kind, ps);
      forall i :: 0 <= i < |ps| ==>
        s.edges[i].fromNode == s.resources[i].digest &&
        s.edges[i].toNode == ResourceDigest(ps[i].subnetId, SubnetType) &&
        s.edges[i].edgeLabel == None
  {
    ScanOfAt(o, resourceTags, kind, ps);
  }

  /** The source of every emitted edge is the digest of an emitted resource. */
  lemma {:induction false} EdgeSourcesAreResources(o: VpcOptions, resourceTags: TagResponse -> seq<ResourceTag>, kind: string, ps: seq<Placement>)
    ensures var s := ScanOf(o, resourceTags, kind, ps);
      forall e :: e in s.edges ==> exists r :: r in s.resources && r.digest == e.fromNode
  {
    var s := ScanOf(o, resourceTags, kind, ps);
    ScanOfAt(o, resourceTags, kind, ps);
    forall e | e in s.edges ensures exists r :: r in s.resources && r.digest == e.fromNode {
      var i :| 0 <= i < |s.edges| && s.edges[i] == e;
      var r := s.resources[i];
      assert r in s.resources && r.digest == e.fromNode;
    }
  }

  // ---------------------------------------------------------------------------------------------
  // Notebook instances

  /** The subnet a notebook instance's description names, if any. */
  function NotebookSubnet(o: VpcOptions, data: Listed): Option<string> {
    o.sagemaker.describeNotebookInstance(data.name).subnetId
  }

  /** How many listed instances, from the front, have a subnet: the scan raises at the first that does not. */
  function SubnetPrefixLength(o: VpcOptions, listing: seq<Listed>): (n: nat)
    ensures n <= |listing|
    ensures forall j :: 0 <= j < n ==> NotebookSubnet(o, listing[j]).Some?
    ensures n < |listing| ==> NotebookSubnet(o, listing[n]).None?
  {
    if listing == [] || NotebookSubnet(o, listing[0]).None? then 0
    else 1 + SubnetPrefixLength(o, listing[1..])
  }

  /** The first `n` listed instances, each placed in the subnet its description names. */
  function NotebookPlacements(o: VpcOptions, listing: seq<Listed>, n: nat): (ps: seq<Placement>)
    requires n <= |listing|
    requires forall j :: 0 <= j < n ==> NotebookSubnet(o, listing[j]).Some?
    ensures |ps| == n
  {
    if n == 0 then []
    else NotebookPlacements(o, listing, n - 1) + [Placement(listing[n - 1], NotebookSubnet(o, listing[n - 1]).value)]
  }

  /** The i-th notebook placement is the i-th listed instance in its own subnet. */
  lemma {:induction false} NotebookPlacementsAt(o: VpcOptions, listing: seq<Listed>, n: nat)
    requires n <= |listing|
    requires forall j :: 0 <= j < n ==> NotebookSubnet(o, listing[j]).Some?
    ensures forall i :: 0 <= i < n ==>
      NotebookPlacements(o, listing, n)[i].item == listing[i] &&
      NotebookSubnet(o, listing[i]) == Some(NotebookPlacements(o, listing, n)[i].subnetId)
  {
    if n > 0 {
      NotebookPlacementsAt(o, listing, n - 1);
    }
  }

  /** The outcome of a notebook scan: what it returns (or raises) and the edges it appends. */
  datatype NotebookOutcome = NotebookOutcome(result: Result<seq<Resource>, ScanError>, edges: seq<ResourceEdge>)

  /**
   * The notebook scan: the instances before the first one without a subnet, kept when their subnet
   * lies in the target VPC, each giving one resource and one edge. An instance without a subnet
   * aborts the scan; the edges appended before it stay.
   */
  function NotebookScan(o: VpcOptions, resourceTags: TagResponse -> seq<ResourceTag>): NotebookOutcome {
    var listing := o.sagemaker.notebookInstances;
    var n := SubnetPrefixLength(o, listing);
    var s := ScanUpTo(o, resourceTags, NotebookInstanceType, NotebookPlacements(o, listing, n), n);
    NotebookOutcome(if n < |listing| then Failure(MissingSubnetId(listing[n].name)) else Success(s.resources), s.edges)
  }

  /**
   * When every instance has a subnet the scan succeeds, and its i-th resource and i-th edge come from
   * the idx[i]-th listed instance, where idx runs strictly upwards over exactly the positions whose
   * subnet resolves into the target VPC.
   */
  lemma NotebookScanSelects(o: VpcOptions, resourceTags: TagResponse -> seq<ResourceTag>)
    requires forall j :: 0 <= j < |o.sagemaker.notebookInstances| ==> NotebookSubnet(o, o.sagemaker.notebookInstances[j]).Some?
    ensures var listing := o.sagemaker.notebookInstances;
      var out := NotebookScan(o, resourceTags);
      var idx := KeptIndices(InVpc(o), NotebookPlacements(o, listing, |listing|));
      out.result.Success? &&
      |out.result.value| == |idx| && |out.edges| == |idx| &&
      (forall i, j :: 0 <= i < j < |idx| ==> idx[i] < idx[j]) &&
      (forall j :: 0 <= j < |listing| ==>
        (j in idx <==> o.subnetVpcId(NotebookSubnet(o, listing[j]).value) == Some(o.vpcId))) &&
      (forall i :: 0 <= i < |idx| ==>
        idx[i] < |listing| &&
        out.result.value[i] == Resource(
          ResourceDigest(listing[idx[i]].arn, NotebookInstanceType), listing[idx[i]].name, "", MlGroup,
          resourceTags(o.sagemaker.listTags(listing[idx[i]].arn))) &&
        out.edges[i] == ResourceEdge(
          ResourceDigest(listing[idx[i]].arn, NotebookInstanceType),
          ResourceDigest(NotebookSubnet(o, listing[idx[i]]).value, SubnetType)))
  {
    var listing := o.sagemaker.notebookInstances;
    var placements := NotebookPlacements(o, listing, |listing|);
    var kept := Filter(InVpc(o), placements);
    NotebookScanIsScanOfKept(o, resourceTags);
    NotebookKeptPositions(o, listing);
    ScanOfAt(o, resourceTags, NotebookInstanceType, kept);
  }

  /** When every instance has a subnet, the notebook scan emits for the kept placements of all of them. */
  lemma NotebookScanIsScanOfKept(o: VpcOptions, resourceTags: TagResponse -> seq<ResourceTag>)
    requires forall j :: 0 <= j < |o.sagemaker.notebookInstances| ==> NotebookSubnet(o, o.sagemaker.notebookInstances[j]).Some?
    ensures var listing := o.sagemaker.notebookInstances;
      var s := ScanOf(o, resourceTags, NotebookInstanceType, Filter(InVpc(o), NotebookPlacements(o, listing, |listing|)));
      NotebookScan(o, resourceTags) == NotebookOutcome(Success(s.resources), s.edges)
  {
    var listing := o.sagemaker.notebookInstances;
    var placements := NotebookPlacements(o, listing, |listing|);
    assert SubnetPrefixLength(o, listing) == |listing|;
    ScanUpToIsScanOfFilter(o, resourceTags, NotebookInstanceType, placements, |listing|);
    assert placements[..|listing|] == placements;
  }

  /**
   * The positions kept from the notebook placements are exactly those of the instances whose subnet
   * resolves into the target VPC, and the i-th kept placement is the instance at the i-th position.
   */
  lemma NotebookKeptPositions(o: VpcOptions, listing: seq<Listed>)
    requires forall j :: 0 <= j < |listing| ==> NotebookSubnet(o, listing[j]).Some?
    ensures var placements := NotebookPlacements(o, listing, |listing|);
      var idx := KeptIndices(InVpc(o), placements);
      (forall j :: 0 <= j < |listing| ==>
        (j in idx <==> o.subnetVpcId(NotebookSubnet(o, listing[j]).value) == Some(o.vpcId))) &&
      (forall i :: 0 <= i < |idx| ==>
        idx[i] < |listing| &&
        Filter(InVpc(o), placements)[i].item == listing[idx[i]] &&
        Filter(InVpc(o), placements)[i].subnetId == NotebookSubnet(o, listing[idx[i]]).value)
  {
    var placements := NotebookPlacements(o, listing, |listing|);
    NotebookPlacementsAt(o, listing, |listing|);
    var idx := KeptIndices(InVpc(o), placements);
    forall j | 0 <= j < |listing|
      ensures j in idx <==> o.subnetVpcId(NotebookSubnet(o, listing[j]).value) == Some(o.vpcId)
    {
      assert NotebookSubnet(o, listing[j]).value == placements[j].subnetId;
    }
  }

  /**
   * When some instance has no subnet the scan raises, naming the first such instance, and the edges
   * appended are those of the instances before it that were kept.
   */
  lemma NotebookScanAborts(o: VpcOptions, resourceTags: TagResponse -> seq<ResourceTag>, k: nat)
    requires k < |o.sagemaker.notebookInstances|
    requires NotebookSubnet(o, o.sagemaker.notebookInstances[k]).None?
    requires forall j :: 0 <= j < k ==> NotebookSubnet(o, o.sagemaker.notebookInstances[j]).Some?
    ensures var listing := o.sagemaker.notebookInstances;
      NotebookScan(o, resourceTags) == NotebookOutcome(
        Failure(MissingSubnetId(listing[k].name)),
        ScanOf(o, resourceTags, NotebookInstanceType, Filter(InVpc(o), NotebookPlacements(o, listing, k))).edges)
  {
    var listing := o.sagemaker.notebookInstances;
    var placements := NotebookPlacements(o, listing, k);
    assert SubnetPrefixLength(o, listing) == k;
    NotebookPlacementsAt(o, listing, k);
    ScanUpToIsScanOfFilter(o, resourceTags, NotebookInstanceType, placements, k);
    assert placements[..k] == placements;
  }

  /** The SageMaker notebook-instance adapter. */
  class SagemakerNotebook {
    const vpcOptions: VpcOptions
    /** The base-class part: the edge accumulator. */
    const provider: ResourceProvider

    constructor (vpcOptions: VpcOptions)
      ensures this.vpcOptions == vpcOptions
      ensures fresh(provider) && provider.relationsFound == []
    {
      this.vpcOptions := vpcOptions;
      provider := new ResourceProvider();
    }

    /**
     * Walks the listing, keeps an instance when its subnet resolves into the target VPC, returns the
     * kept instances' resources and appends one edge per kept instance to the accumulator.
     */
    method GetResources(resourceTags: TagResponse -> seq<ResourceTag>) returns (result: Result<seq<Resource>, ScanError>)
      modifies provider
      ensures result == NotebookScan(vpcOptions, resourceTags).result
      ensures provider.relationsFound == old(provider.relationsFound) + NotebookScan(vpcOptions, resourceTags).edges
    {
      var client := vpcOptions.sagemaker;
      var resourcesFound: seq<Resource> := [];
      var listing := client.notebookInstances;
      ghost var n := SubnetPrefixLength(vpcOptions, listing);
      ghost var placements := NotebookPlacements(vpcOptions, listing, n);
      NotebookPlacementsAt(vpcOptions, listing, n);
      ghost var scan := Scan([], []);
      var i := 0;
      while i < |listing|
        invariant i <= n
        invariant scan == ScanUpTo(vpcOptions, resourceTags, NotebookInstanceType, placements, i)
        invariant resourcesFound == scan.resources
        invariant provider.relationsFound == old(provider.relationsFound) + scan.edges
      {
        var data := listing[i];
        var notebookInstance := client.describeNotebookInstance(data.name);
        var tagsResponse := client.listTags(data.arn);
        if notebookInstance.subnetId.None? {
          return Failure(MissingSubnetId(data.name));
        }
        var subnetId := notebookInstance.subnetId.value;
        ghost var p := Placement(data, subnetId);
        assert i < n && placements[i] == p;
        var subnets := vpcOptions.subnetVpcId(subnetId);
        if subnets.Some? {
          if subnets.value == vpcOptions.vpcId {
            var digest := ResourceDigest(data.arn, NotebookInstanceType);
            resourcesFound := resourcesFound + [Resource(digest, data.name, "", MlGroup, resourceTags(tagsResponse))];
            provider.relationsFound := provider.relationsFound + [ResourceEdge(digest, ResourceDigest(subnetId, SubnetType))];
          }
        }
        scan := EmitIfInVpc(vpcOptions, resourceTags, NotebookInstanceType, scan, p);
        i := i + 1;
      }
      return Success(resourcesFound);
    }
  }

  // ---------------------------------------------------------------------------------------------
  // Training jobs

  /** A job placed in each of the first `n` subnets of its VPC configuration, in that order. */
  function SubnetPlacements(job: Listed, subnets: seq<string>, n: nat): seq<Placement>
    requires n <= |subnets|
  {
    if n == 0 then []
    else SubnetPlacements(job, subnets, n - 1) + [Placement(job, subnets[n - 1])]
  }

  /** The i-th placement of a job is in its i-th subnet. */
  lemma {:induction false} SubnetPlacementsAt(job: Listed, subnets: seq<string>, n: nat)
    requires n <= |subnets|
    ensures |SubnetPlacements(job, subnets, n)| == n
    ensures forall i :: 0 <= i < n ==> SubnetPlacements(job, subnets, n)[i] == Placement(job, subnets[i])
  {
    if n > 0 {
      SubnetPlacementsAt(job, subnets, n - 1);
    }
  }

  /** The VPC configuration of a training job's description, if it has one. */
  function JobVpcConfig(o: VpcOptions, job: Listed): Option<VpcConfig> {
    o.sagemaker.describeTrainingJob(job.name).vpcConfig
  }

  /** A job's placements: none without a VPC configuration. */
  function JobPlacements(o: VpcOptions, job: Listed): seq<Placement> {
    match JobVpcConfig(o, job)
    case None => []
    case Some(config) => SubnetPlacements(job, config.subnets, |config.subnets|)
  }

  /** The placements of the first `n` listed jobs, job by job in listing order. */
  function TrainingPlacements(o: VpcOptions, listing: seq<Listed>, n: nat): seq<Placement>
    requires n <= |listing|
  {
    if n == 0 then []
    else TrainingPlacements(o, listing, n - 1) + JobPlacements(o, listing[n - 1])
  }

  /** Only listed jobs with a VPC configuration are placed, and only in subnets that configuration lists. */
  lemma {:induction false} TrainingPlacementsSound(o: VpcOptions, listing: seq<Listed>, n: nat, p: Placement)
    requires n <= |listing| && p in TrainingPlacements(o, listing, n)
    ensures p.item in listing[..n] && JobVpcConfig(o, p.item).Some?
    ensures p.subnetId in JobVpcConfig(o, p.item).value.subnets
  {
    var job := listing[n - 1];
    if p in TrainingPlacements(o, listing, n - 1) {
      TrainingPlacementsSound(o, listing, n - 1, p);
      assert listing[..n - 1] <= listing[..n];
    } else if JobVpcConfig(o, job).Some? {
      var subnets := JobVpcConfig(o, job).value.subnets;
      SubnetPlacementsAt(job, subnets, |subnets|);
      var i :| 0 <= i < |subnets| && SubnetPlacements(job, subnets, |subnets|)[i] == p;
      assert listing[..n][n - 1] == job;
    }
  }

  /** Every subnet of every one of the first `n` jobs that has a VPC configuration is placed. */
  lemma {:induction false} TrainingPlacementsComplete(o: VpcOptions, listing: seq<Listed>, n: nat, j: nat, k: nat)
    requires n <= |listing| && j < n && JobVpcConfig(o, listing[j]).Some?
    requires k < |JobVpcConfig(o, listing[j]).value.subnets|
    ensures Placement(listing[j], JobVpcConfig(o, listing[j]).value.subnets[k]) in TrainingPlacements(o, listing, n)
  {
    if j < n - 1 {
      TrainingPlacementsComplete(o, listing, n - 1, j, k);
    } else {
      var subnets := JobVpcConfig(o, listing[j]).value.subnets;
      SubnetPlacementsAt(listing[j], subnets, |subnets|);
      assert JobPlacements(o, listing[j])[k] == Placement(listing[j], subnets[k]);
    }
  }

  /** Placements follow listing order: those of the first m jobs are a prefix of those of the first n. */
  lemma {:induction false} TrainingPlacementsPrefix(o: VpcOptions, listing: seq<Listed>, m: nat, n: nat)
    requires m <= n <= |listing|
    ensures TrainingPlacements(o, listing, m) <= TrainingPlacements(o, listing, n)
  {
    if m < n {
      TrainingPlacementsPrefix(o, listing, m, n - 1);
      var before := TrainingPlacements(o, listing, n - 1);
      assert TrainingPlacements(o, listing, n) == before + JobPlacements(o, listing[n - 1]);
      assert before <= TrainingPlacements(o, listing, n);
    }
  }

  /** The placements of the listed jobs whose subnet resolves into the target VPC. */
  function TrainingMatches(o: VpcOptions): seq<Placement> {
    var listing := o.sagemaker.trainingJobSummaries;
    Filter(InVpc(o), TrainingPlacements(o, listing, |listing|))
  }

  /** The scan of one job over its first `k` subnets, starting from what was emitted before it. */
  function SubnetScan(o: VpcOptions, resourceTags: TagResponse -> seq<ResourceTag>, s: Scan, job: Listed, subnets: seq<string>, k: nat): Scan
    requires k <= |subnets|
  {
    if k == 0 then s
    else EmitIfInVpc(o, resourceTags, TrainingJobType, SubnetScan(o, resourceTags, s, job, subnets, k - 1), Placement(job, subnets[k - 1]))
  }

  /** The scan of one job: nothing without a VPC configuration, otherwise one step per subnet. */
  function JobScan(o: VpcOptions, resourceTags: TagResponse -> seq<ResourceTag>, s: Scan, job: Listed): Scan {
    match JobVpcConfig(o, job)
    case None => s
    case Some(config) => SubnetScan(o, resourceTags, s, job, config.subnets, |config.subnets|)
  }

  /** What the training-job scan has emitted after the first `n` listed jobs. */
  function TrainingScanUpTo(o: VpcOptions, resourceTags: TagResponse -> seq<ResourceTag>, listing: seq<Listed>, n: nat): Scan
    requires n <= |listing|
  {
    if n == 0 then Scan([], [])
    else JobScan(o, resourceTags, TrainingScanUpTo(o, resourceTags, listing, n - 1), listing[n - 1])
  }

  /** The training-job scan over the whole listing. */
  function TrainingScan(o: VpcOptions, resourceTags: TagResponse -> seq<ResourceTag>): Scan {
    TrainingScanUpTo(o, resourceTags, o.sagemaker.trainingJobSummaries, |o.sagemaker.trainingJobSummaries|)
  }

  /** Walking a job's subnets emits what filtering its placements by `InVpc` and emitting gives. */
  lemma {:induction false} SubnetScanIsScanOfFilter(o: VpcOptions, resourceTags: TagResponse -> seq<ResourceTag>, ps: seq<Placement>, job: Listed, subnets: seq<string>, k: nat)
    requires k <= |subnets|
    ensures SubnetScan(o, resourceTags, ScanOf(o, resourceTags, TrainingJobType, Filter(InVpc(o), ps)), job, subnets, k) ==
      ScanOf(o, resourceTags, TrainingJobType, Filter(InVpc(o), ps + SubnetPlacements(job, subnets, k)))
  {
    if k == 0 {
      assert ps + [] == ps;
    } else {
      SubnetScanIsScanOfFilter(o, resourceTags, ps, job, subnets, k - 1);
      var p := Placement(job, subnets[k - 1]);
      assert ps + SubnetPlacements(job, subnets, k) == (ps + SubnetPlacements(job, subnets, k - 1)) + [p];
      EmitIfInVpcStep(o, resourceTags, TrainingJobType, ps + SubnetPlacements(job, subnets, k - 1), p);
    }
  }

  /** The nested walk over jobs and their subnets is the filter-then-emit scan of all placements. */
  lemma {:induction false} TrainingScanUpToIsScanOfFilter(o: VpcOptions, resourceTags: TagResponse -> seq<ResourceTag>, listing: seq<Listed>, n: nat)
    requires n <= |listing|
    ensures TrainingScanUpTo(o, resourceTags, listing, n) ==
      ScanOf(o, resourceTags, TrainingJobType, Filter(InVpc(o), TrainingPlacements(o, listing, n)))
  {
    if n > 0 {
      TrainingScanUpToIsScanOfFilter(o, resourceTags, listing, n - 1);
      var ps := TrainingPlacements(o, listing, n - 1);
      var job := listing[n - 1];
      var before := TrainingScanUpTo(o, resourceTags, listing, n - 1);
      assert TrainingPlacements(o, listing, n) == ps + JobPlacements(o, job);
      assert TrainingScanUpTo(o, resourceTags, listing, n) == JobScan(o, resourceTags, before, job);
      match JobVpcConfig(o, job)
      case None =>
        assert ps + [] == ps;
      case Some(config) =>
        SubnetScanIsScanOfFilter(o, resourceTags, ps, job, config.subnets, |config.subnets|);
    }
  }

  /**
   * Each resource of the training-job scan is a listed job with a VPC configuration, emitted for one
   * of its subnets that resolves into the target VPC; conversely every such job and subnet is emitted.
   */
  lemma TrainingScanSelects(o: VpcOptions, resourceTags: TagResponse -> seq<ResourceTag>)
    ensures var listing := o.sagemaker.trainingJobSummaries;
      var s := TrainingScan(o, resourceTags);
      var m := TrainingMatches(o);
      |s.resources| == |m| && |s.edges| == |m| &&
      (forall i :: 0 <= i < |m| ==>
        m[i].item in listing && JobVpcConfig(o, m[i].item).Some? &&
        m[i].subnetId in JobVpcConfig(o, m[i].item).value.subnets &&
        o.subnetVpcId(m[i].subnetId) == Some(o.vpcId) &&
        s.resources[i] == Resource(ResourceDigest(m[i].item.arn, TrainingJobType), m[i].item.name, "", MlGroup,
          resourceTags(o.sagemaker.listTags(m[i].item.arn))) &&
        s.edges[i] == ResourceEdge(ResourceDigest(m[i].item.arn, TrainingJobType), ResourceDigest(m[i].subnetId, SubnetType))) &&
      (forall j, k ::
        (0 <= j < |listing| && JobVpcConfig(o, listing[j]).Some? &&
         0 <= k < |JobVpcConfig(o, listing[j]).value.subnets| &&
         o.subnetVpcId(JobVpcConfig(o, listing[j]).value.subnets[k]) == Some(o.vpcId)) ==>
        Placement(listing[j], JobVpcConfig(o, listing[j]).value.subnets[k]) in m)
  {
    var listing := o.sagemaker.trainingJobSummaries;
    var placements := TrainingPlacements(o, listing, |listing|);
    var m := TrainingMatches(o);
    FilterMembers(InVpc(o), placements);
    TrainingScanUpToIsScanOfFilter(o, resourceTags, listing, |listing|);
    ScanOfAt(o, resourceTags, TrainingJobType, m);
    assert listing[..|listing|] == listing;
    forall i | 0 <= i < |m|
      ensures m[i].item in listing && JobVpcConfig(o, m[i].item).Some?
      ensures m[i].subnetId in JobVpcConfig(o, m[i].item).value.subnets && InVpc(o)(m[i])
    {
      assert m[i] in m;
      TrainingPlacementsSound(o, listing, |listing|, m[i]);
    }
    forall j, k | 0 <= j < |listing| && JobVpcConfig(o, listing[j]).Some? &&
        0 <= k < |JobVpcConfig(o, listing[j]).value.subnets| &&
        o.subnetVpcId(JobVpcConfig(o, listing[j]).value.subnets[k]) == Some(o.vpcId)
      ensures Placement(listing[j], JobVpcConfig(o, listing[j]).value.subnets[k]) in m
    {
      TrainingPlacementsComplete(o, listing, |listing|, j, k);
    }
  }

  /**
   * A job whose two subnets both resolve into the target VPC appears twice among the resources,
   * with one digest, and gives two edges, one per subnet in their listed order.
   */
  lemma TwoMatchingSubnetsDuplicateResource(o: VpcOptions, resourceTags: TagResponse -> seq<ResourceTag>, s1: string, s2: string)
    requires |o.sagemaker.trainingJobSummaries| == 1
    requires JobVpcConfig(o, o.sagemaker.trainingJobSummaries[0]) == Some(VpcConfig([s1, s2]))
    requires o.subnetVpcId(s1) == Some(o.vpcId) && o.subnetVpcId(s2) == Some(o.vpcId)
    ensures var job := o.sagemaker.trainingJobSummaries[0];
      var r := Resource(ResourceDigest(job.arn, TrainingJobType), job.name, "", MlGroup, resourceTags(o.sagemaker.listTags(job.arn)));
      TrainingScan(o, resourceTags) == Scan([r, r], [
        ResourceEdge(ResourceDigest(job.arn, TrainingJobType), ResourceDigest(s1, SubnetType)),
        ResourceEdge(ResourceDigest(job.arn, TrainingJobType), ResourceDigest(s2, SubnetType))])
  {
    var listing := o.sagemaker.trainingJobSummaries;
    var job := listing[0];
    var p1, p2 := Placement(job, s1), Placement(job, s2);
    assert TrainingScanUpTo(o, resourceTags, listing, 0) == Scan([], []);
    assert TrainingScan(o, resourceTags) == JobScan(o, resourceTags, Scan([], []), job);
    var s0 := Scan([], []);
    var sc1 := SubnetScan(o, resourceTags, s0, job, [s1, s2], 1);
    assert SubnetScan(o, resourceTags, s0, job, [s1, s2], 0) == s0;
    assert sc1 == EmitIfInVpc(o, resourceTags, TrainingJobType, s0, p1);
    assert TrainingScan(o, resourceTags) == EmitIfInVpc(o, resourceTags, TrainingJobType, sc1, p2);
  }

  /**
   * Walking a job's first `k` subnets appends the job's one resource, unchanged, once per subnet that
   * resolves into the target VPC, and one edge to each such subnet, in subnet order.
   */
  lemma {:induction false} SubnetScanAppends(o: VpcOptions, resourceTags: TagResponse -> seq<ResourceTag>, s: Scan, job: Listed, subnets: seq<string>, k: nat)
    requires k <= |subnets|
    ensures var t := SubnetScan(o, resourceTags, s, job, subnets, k);
      var kept := Filter(SubnetInVpc(o), subnets[..k]);
      var r := Resource(ResourceDigest(job.arn, TrainingJobType), job.name, "", MlGroup, resourceTags(o.sagemaker.listTags(job.arn)));
      t.resources == s.resources + seq(|kept|, _ => r) &&
      t.edges == s.edges + seq(|kept|, i requires 0 <= i < |kept| =>
        ResourceEdge(ResourceDigest(job.arn, TrainingJobType), ResourceDigest(kept[i], SubnetType)))
  {
    var r := Resource(ResourceDigest(job.arn, TrainingJobType), job.name, "", MlGroup, resourceTags(o.sagemaker.listTags(job.arn)));
    if k == 0 {
      assert subnets[..0] == [];
    } else {
      SubnetScanAppends(o, resourceTags, s, job, subnets, k - 1);
      var x := subnets[k - 1];
      assert subnets[..k] == subnets[..k - 1] + [x];
      FilterSnoc(SubnetInVpc(o), subnets[..k - 1], x);
      var before := Filter(SubnetInVpc(o), subnets[..k - 1]);
      var kept := Filter(SubnetInVpc(o), subnets[..k]);
      var t := SubnetScan(o, resourceTags, s, job, subnets, k);
      if SubnetInVpc(o)(x) {
        assert kept == before + [x];
        assert seq(|kept|, _ => r) == seq(|before|, _ => r) + [r];
        assert t.resources == s.resources + seq(|kept|, _ => r);
        var e := (i: int) requires 0 <= i < |kept| =>
          ResourceEdge(ResourceDigest(job.arn, TrainingJobType), ResourceDigest(kept[i], SubnetType));
        var e' := (i: int) requires 0 <= i < |before| =>
          ResourceEdge(ResourceDigest(job.arn, TrainingJobType), ResourceDigest(before[i], SubnetType));
        assert seq(|kept|, e) == seq(|before|, e') + [ResourceEdge(ResourceDigest(job.arn, TrainingJobType), ResourceDigest(x, SubnetType))];
      } else {
        assert kept == before;
      }
    }
  }

  /**
   * A job without a VPC configuration adds nothing to the scan; a job with one adds its resource
   * once per subnet that resolves into the target VPC, each with one edge to that subnet, in the
   * order the configuration lists the subnets.
   */
  lemma JobScanAppends(o: VpcOptions, resourceTags: TagResponse -> seq<ResourceTag>, s: Scan, job: Listed)
    ensures JobVpcConfig(o, job).None? ==> JobScan(o, resourceTags, s, job) == s
    ensures JobVpcConfig(o, job).Some? ==>
      var t := JobScan(o, resourceTags, s, job);
      var kept := Filter(SubnetInVpc(o), JobVpcConfig(o, job).value.subnets);
      var r := Resource(ResourceDigest(job.arn, TrainingJobType), job.name, "", MlGroup, resourceTags(o.sagemaker.listTags(job.arn)));
      t.resources == s.resources + seq(|kept|, _ => r) &&
      t.edges == s.edges + seq(|kept|, i requires 0 <= i < |kept| =>
        ResourceEdge(ResourceDigest(job.arn, TrainingJobType), ResourceDigest(kept[i], SubnetType)))
  {
    if JobVpcConfig(o, job).Some? {
      var subnets := JobVpcConfig(o, job).value.subnets;
      SubnetScanAppends(o, resourceTags, s, job, subnets, |subnets|);
      assert subnets[..|subnets|] == subnets;
    }
  }

  /**
   * Output follows listing order: what the first `m` jobs emit is a prefix of what the first `n`
   * emit, for resources and for edges alike.
   */
  lemma {:induction false} TrainingScanGrows(o: VpcOptions, resourceTags: TagResponse -> seq<ResourceTag>, listing: seq<Listed>, m: nat, n: nat)
    requires m <= n <= |listing|
    ensures TrainingScanUpTo(o, resourceTags, listing, m).resources <= TrainingScanUpTo(o, resourceTags, listing, n).resources
    ensures TrainingScanUpTo(o, resourceTags, listing, m).edges <= TrainingScanUpTo(o, resourceTags, listing, n).edges
  {
    if m < n {
      TrainingScanGrows(o, resourceTags, listing, m, n - 1);
      JobScanAppends(o, resourceTags, TrainingScanUpTo(o, resourceTags, listing, n - 1), listing[n - 1]);
    }
  }

  /**
   * In both scans the edges pair up with the resources: as many of each, the i-th edge leaving the
   * i-th resource's digest for a subnet digest, without a label; so every edge leaves the digest of a
   * returned resource.
   */
  lemma ScansPairEdgesWithResources(o: VpcOptions, resourceTags: TagResponse -> seq<ResourceTag>)
    ensures var t := TrainingScan(o, resourceTags);
      |t.edges| == |t.resources| &&
      (forall i :: 0 <= i < |t.edges| ==>
        t.edges[i].fromNode == t.resources[i].digest && t.edges[i].toNode.kind == SubnetType && t.edges[i].edgeLabel == None) &&
      (forall e :: e in t.edges ==> exists r :: r in t.resources && r.digest == e.fromNode)
    ensures var nb := NotebookScan(o, resourceTags);
      nb.result.Success? ==>
        |nb.edges| == |nb.result.value| &&
        (forall i :: 0 <= i < |nb.edges| ==>
          nb.edges[i].fromNode == nb.result.value[i].digest && nb.edges[i].toNode.kind == SubnetType && nb.edges[i].edgeLabel == None) &&
        (forall e :: e in nb.edges ==> exists r :: r in nb.result.value && r.digest == e.fromNode)
  {
    var listing := o.sagemaker.trainingJobSummaries;
    TrainingScanUpToIsScanOfFilter(o, resourceTags, listing, |listing|);
    var tm := Filter(InVpc(o), TrainingPlacements(o, listing, |listing|));
    EdgesLeaveEmittedResources(o, resourceTags, TrainingJobType, tm);
    EdgeSourcesAreResources(o, resourceTags, TrainingJobType, tm);
    var notebooks := o.sagemaker.notebookInstances;
    var n := SubnetPrefixLength(o, notebooks);
    var ps := NotebookPlacements(o, notebooks, n);
    ScanUpToIsScanOfFilter(o, resourceTags, NotebookInstanceType, ps, n);
    assert ps[..n] == ps;
    var nm := Filter(InVpc(o), ps);
    EdgesLeaveEmittedResources(o, resourceTags, NotebookInstanceType, nm);
    EdgeSourcesAreResources(o, resourceTags, NotebookInstanceType, nm);
  }

  /** The SageMaker training-job adapter. */
  class SagemakerTrainingJob {
    const vpcOptions: VpcOptions
    /** The base-class part: the edge accumulator. */
    const provider: ResourceProvider

    constructor (vpcOptions: VpcOptions)
      ensures this.vpcOptions == vpcOptions
      ensures fresh(provider) && provider.relationsFound == []
    {
      this.vpcOptions := vpcOptions;
      provider := new ResourceProvider();
    }

    /**
     * Walks the job listing; for a job with a VPC configuration, emits the job's resource and an edge
     * once for every one of its subnets that resolves into the target VPC.
     */
    method GetResources(resourceTags: TagResponse -> seq<ResourceTag>) returns (resourcesFound: seq<Resource>)
      modifies provider
      ensures resourcesFound == TrainingScan(vpcOptions, resourceTags).resources
      ensures provider.relationsFound == old(provider.relationsFound) + TrainingScan(vpcOptions, resourceTags).edges
    {
      var client := vpcOptions.sagemaker;
      resourcesFound := [];
      var listing := client.trainingJobSummaries;
      ghost var scan := Scan([], []);
      var i := 0;
      while i < |listing|
        invariant i <= |listing|
        invariant scan == TrainingScanUpTo(vpcOptions, resourceTags, listing, i)
        invariant resourcesFound == scan.resources
        invariant provider.relationsFound == old(provider.relationsFound) + scan.edges
      {
        var data := listing[i];
        var tagsResponse := client.listTags(data.arn);
        var trainingJob := client.describeTrainingJob(data.name);
        ghost var before := scan;
        if trainingJob.vpcConfig.Some? {
          var subnetIds := trainingJob.vpcConfig.value.subnets;
          var k := 0;
          while k < |subnetIds|
            invariant k <= |subnetIds|
            invariant scan == SubnetScan(vpcOptions, resourceTags, before, data, subnetIds, k)
            invariant resourcesFound == scan.resources
            invariant provider.relationsFound == old(provider.relationsFound) + scan.edges
          {
            var subnetId := subnetIds[k];
            ghost var p := Placement(data, subnetId);
            var subnet := vpcOptions.subnetVpcId(subnetId);
            if subnet.Some? {
              if subnet.value == vpcOptions.vpcId {
                var digest := ResourceDigest(data.arn, TrainingJobType);
                resourcesFound := resourcesFound + [Resource(digest, data.name, "", MlGroup, resourceTags(tagsResponse))];
                provider.relationsFound := provider.relationsFound + [ResourceEdge(digest, ResourceDigest(subnetId, SubnetType))];
              }
            }
            scan := EmitIfInVpc(vpcOptions, resourceTags, TrainingJobType, scan, p);
            k := k + 1;
          }
        }
        i := i + 1;
      }
    }
  }

  /**
   * Scanning twice with one adapter appends the scan's edges twice: the accumulator only grows, and
   * what it held before stays an unchanged prefix.
   */
  method ScanTwice(adapter: SagemakerTrainingJob, resourceTags: TagResponse -> seq<ResourceTag>)
    returns (first: seq<Resource>, second: seq<Resource>)
    modifies adapter.provider
    ensures first == second == TrainingScan(adapter.vpcOptions, resourceTags).resources
    ensures var edges := TrainingScan(adapter.vpcOptions, resourceTags).edges;
      adapter.provider.relationsFound == old(adapter.provider.relationsFound) + edges + edges
  {
    first := adapter.GetResources(resourceTags);
    second := adapter.GetResources(resourceTags);
  }
}
