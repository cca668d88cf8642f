/** The shared API store and the reads and writes the operator performs on it. */
module Cluster {
  import opened Api
  import opened Render
  import opened StatusModel
  import Queue
  import Scaling

  /** One ModelDeployment, by the name all its children derive from. */
  datatype Instance = Instance(name: string, sha: Hasher)

  /** The pod template: what it serves, its cache-key annotation, and the claim it mounts, if any. */
  datatype Template = Template(identity: Identity, key: string, claim: Option<string>)

  datatype Deployment = Deployment(
    template: Template, replicas: Count, paused: bool, observedReplicas: int32, readyReplicas: int32)

  datatype JobCondition = JobCondition(kind: string, status: bool)

  datatype Job = Job(
    instance: string, key: string, identity: Identity, claim: string,
    succeeded: nat, conditions: seq<JobCondition>)
  {
    function Labels(): Labels { WarmLabels(instance, key) }
  }

  /** How far a warm-up pod's script got: the download precedes the marker. */
  datatype Progress = Started | Downloaded | Finished

  datatype Pod =
    | Serving(instance: string, template: Template)
    | Warming(instance: string, job: string, key: string, identity: Identity, claim: string, progress: Progress)
  {
    function Labels(): Labels {
      if Serving? then PodLabels(instance) else WarmLabels(instance, key)
    }
  }

  /** What lies on a claim: downloaded weights and `.warm/<key>` marker files. */
  datatype Volume = Volume(weights: set<Identity>, markers: set<string>)

  /** The store. `versions` lists every stored state of the ModelDeployment, None for absent; an index
      is a resourceVersion and the last entry is current. `rollouts` remembers every template the
      Deployment carried while unpaused, because the Deployment controller may act on any of them
      late. A request that changes nothing leaves the store as it is. */
  datatype Store = Store(
    versions: seq<Option<Md>>, volumes: map<string, Volume>, jobs: map<string, Job>,
    deployment: Option<Deployment>, rollouts: set<Template>, replicaSets: set<Template>,
    service: bool, pdb: Option<int32>, pods: map<nat, Pod>)

  /** Everything a pass reads from outside the store. A missing metrics source reads as an error. */
  datatype Signals = Signals(read: Result<seq<int64>>, now: int, wall: int)

  // -------------------------------------------------------------------- reads

  function Current(c: Store): Option<Md> {
    if c.versions == [] then None else c.versions[|c.versions| - 1]
  }

  function Key(op: Instance, spec: Spec): string { CacheKey(op.sha, spec.identity) }

  function JobName(op: Instance, spec: Spec): string { WarmJobName(op.name, Key(op, spec)) }

  function Claim(op: Instance, spec: Spec): string { ClaimName(op.name, spec) }

  function TemplateOf(op: Instance, spec: Spec): Template {
    Template(spec.identity, Key(op, spec), if spec.cache.Some? then Some(Claim(op, spec)) else None)
  }

  function Markers(vs: map<string, Volume>, claim: string): set<string> {
    if claim in vs then vs[claim].markers else {}
  }

  function Weights(vs: map<string, Volume>, claim: string): set<Identity> {
    if claim in vs then vs[claim].weights else {}
  }

  function FindJobCondition(cs: seq<JobCondition>, kind: string): Option<JobCondition> {
    if cs == [] then None
    else if cs[0].kind == kind then Some(cs[0])
    else FindJobCondition(cs[1..], kind)
  }

  /** By index: nothing found means no condition of the kind, and the one found is the first. */
  lemma {:induction false} FindJobConditionByIndex(cs: seq<JobCondition>, kind: string)
    ensures FindJobCondition(cs, kind).None? <==> forall i | 0 <= i < |cs| :: cs[i].kind != kind
    ensures FindJobCondition(cs, kind).Some? ==>
              exists i :: 0 <= i < |cs| && cs[i] == FindJobCondition(cs, kind).value && cs[i].kind == kind
                          && forall j | 0 <= j < i :: cs[j].kind != kind
  {
    if cs != [] && cs[0].kind != kind {
      var tail := cs[1..];
      FindJobConditionByIndex(tail, kind);
      assert forall i | 1 <= i < |cs| :: cs[i] == tail[i - 1];
      if FindJobCondition(tail, kind).Some? {
        var i :| 0 <= i < |tail| && tail[i] == FindJobCondition(tail, kind).value && tail[i].kind == kind
                 && forall j | 0 <= j < i :: tail[j].kind != kind;
        assert cs[i + 1] == tail[i];
      }
    }
  }

  /** A Job failed exactly if the first condition of kind Failed is true. */
  lemma JobFailedByIndex(job: Job)
    ensures JobFailed(job) <==>
            exists i :: 0 <= i < |job.conditions| && job.conditions[i] == JobCondition("Failed", true)
                        && forall j | 0 <= j < i :: job.conditions[j].kind != "Failed"
  {
    var cs := job.conditions;
    FindJobConditionByIndex(cs, "Failed");
    if i :| 0 <= i < |cs| && cs[i] == JobCondition("Failed", true) && forall j | 0 <= j < i :: cs[j].kind != "Failed" {
      assert cs[i].kind == "Failed";
    }
  }

  predicate JobFailed(job: Job) {
    var c := FindJobCondition(job.conditions, "Failed");
    c.Some? && c.value.status
  }

  function CacheOf(job: Job): CacheState { CacheState(true, job.succeeded > 0, JobFailed(job)) }

  /** Own objects, by the label teardown selects on. */
  function OwnJobs(op: Instance, c: Store): set<string> {
    set n | n in c.jobs && Selects(TeardownSelector(op.name), c.jobs[n].Labels())
  }

  function OwnPods(op: Instance, c: Store): set<nat> {
    set i | i in c.pods && Selects(TeardownSelector(op.name), c.pods[i].Labels())
  }

  function StaleJobs(op: Instance, c: Store, key: string): set<string> {
    set n | n in c.jobs && Selects(WarmSelector(op.name), c.jobs[n].Labels())
            && c.jobs[n].Labels()[LABEL_CACHE_KEY] != key
  }

  function Observe(c: Store): Workload {
    match c.deployment
    case None => Workload(0, 0, false)
    case Some(d) => Workload(d.observedReplicas, d.readyReplicas, true)
  }

  // ------------------------------------------------------------------- writes

  function PutMd(c: Store, md: Option<Md>): Store {
    c.(versions := c.versions + [md])
  }

  /** Optimistic concurrency: only the holder of the latest version may write. */
  predicate IsLatest(c: Store, rv: nat) { rv == |c.versions| - 1 && Current(c).Some? }

  /** Looks the claim up in the cache `v` and creates it in the store. None is the error for a claim the
      user named but nobody created. Otherwise the claim exists afterwards, unless the cache knows a
      claim the store does not, and every volume keeps its contents. */
  function EnsureClaimFrom(op: Instance, c: Store, v: Store, spec: Spec): (out: Option<Store>)
    ensures out.Some? <==> Claim(op, spec) in v.volumes || OwnsClaim(spec)
    ensures out.Some? ==> out.value == c.(volumes := out.value.volumes)
    ensures out.Some? && v.volumes.Keys <= c.volumes.Keys ==>
              out.value.volumes.Keys == c.volumes.Keys + {Claim(op, spec)}
    ensures out.Some? ==> forall w | w in c.volumes :: w in out.value.volumes && out.value.volumes[w] == c.volumes[w]
    ensures out.Some? ==> forall w | w in out.value.volumes && w !in c.volumes :: out.value.volumes[w] == Volume({}, {})
  {
    if Claim(op, spec) in v.volumes then Some(c)
    else if !OwnsClaim(spec) then None
    else if Claim(op, spec) in c.volumes then Some(c)
    else Some(c.(volumes := c.volumes[Claim(op, spec) := Volume({}, {})]))
  }

  function EnsureClaim(op: Instance, c: Store, spec: Spec): (out: Option<Store>)
    ensures out.Some? <==> Claim(op, spec) in c.volumes || OwnsClaim(spec)
    ensures out.Some? ==> out.value == c.(volumes := out.value.volumes)
    ensures out.Some? ==> out.value.volumes.Keys == c.volumes.Keys + {Claim(op, spec)}
    ensures out.Some? ==> forall v | v in c.volumes :: out.value.volumes[v] == c.volumes[v]
  {
    EnsureClaimFrom(op, c, c, spec)
  }

  function WarmJob(op: Instance, spec: Spec): Job {
    Job(op.name, Key(op, spec), spec.identity, Claim(op, spec), 0, [])
  }

  /** A Job that already exists is left as it is. */
  function CreateJob(op: Instance, c: Store, spec: Spec): Store {
    if JobName(op, spec) in c.jobs then c
    else c.(jobs := c.jobs[JobName(op, spec) := WarmJob(op, spec)])
  }

  function DeleteJobs(c: Store, names: set<string>): Store {
    c.(jobs := c.jobs - names)
  }

  function ApplyDeployment(op: Instance, c: Store, spec: Spec, replicas: Count, paused: bool): Store {
    var seen := Observe(c);
    var next := Deployment(TemplateOf(op, spec), replicas, paused, seen.replicas, seen.readyReplicas);
    c.(deployment := Some(next),
       rollouts := if paused then c.rollouts else c.rollouts + {next.template})
  }

  function ApplyService(c: Store): Store {
    c.(service := true)
  }

  function ReconcilePdb(c: Store, spec: Spec, replicas: Count): Store {
    c.(pdb := PDBMinAvailable(spec.minAvailable, replicas))
  }

  function DeleteDeployment(c: Store): Store {
    c.(deployment := None)
  }

  /** Removing the last finalizer of a deleted object removes the object. */
  function ReleaseFinalizer(c: Store, md: Md): Store {
    PutMd(c, if md.deleting && !md.foreignFinalizer then None else Some(md.(finalizer := false)))
  }

  // ----------------------------------------------------------------- decision

  datatype ReplicaDecision = ReplicaDecision(
    replicas: Count, scaleErr: bool, queueDepth: int32, lastScale: Option<int>)

  function PolicyOf(a: Autoscaling): (p: Scaling.Policy)
    ensures Scaling.Admitted(p)
  {
    Scaling.Policy(a.minReplicas, a.maxReplicas, a.targetQueueDepth, a.maxScaleUpStep,
                   a.scaleUpSeconds * SECOND, a.scaleDownSeconds * SECOND)
  }

  function LastScale(s: Status): Option<int> {
    if s.lastScaleSecond.None? then None else Some(s.lastScaleSecond.value * SECOND)
  }

  function DecideReplicas(md: Md, warm: bool, sig: Signals): ReplicaDecision {
    var hold := ReplicaDecision(md.spec.replicas, false, md.status.observedQueueDepth, None);
    match md.spec.autoscaling
    case None => hold
    case Some(a) =>
      match Queue.DepthOf(sig.read)
      case Err => hold.(scaleErr := true)
      case Ok(depth) =>
        var d := Scaling.Decide(PolicyOf(a), Scaling.State(
          md.spec.replicas, depth, warm || md.spec.cache.None?, LastScale(md.status), sig.now));
        ReplicaDecision(d.replicas, false, depth, if d.changed then Some(sig.now / SECOND) else None)
  }

  // ----------------------------------------------------------- ownership laws

  /** Every Job carries the name its labels say; only operators create them. */
  ghost predicate WellNamed(jobs: map<string, Job>) {
    forall n | n in jobs :: |jobs[n].key| == KEY_LENGTH && n == WarmJobName(jobs[n].instance, jobs[n].key)
  }

  lemma OwnByInstance(op: Instance, c: Store)
    ensures OwnJobs(op, c) == set n | n in c.jobs && c.jobs[n].instance == op.name
    ensures OwnPods(op, c) == set i | i in c.pods && c.pods[i].instance == op.name
    ensures forall key :: StaleJobs(op, c, key) ==
                          set n | n in c.jobs && c.jobs[n].instance == op.name && c.jobs[n].key != key
  {
    forall n | n in c.jobs
      ensures Selects(TeardownSelector(op.name), c.jobs[n].Labels()) <==> c.jobs[n].instance == op.name
      ensures Selects(WarmSelector(op.name), c.jobs[n].Labels()) <==> c.jobs[n].instance == op.name
      ensures c.jobs[n].Labels()[LABEL_CACHE_KEY] == c.jobs[n].key
    {
      SelectorSeparation(op.name, c.jobs[n].instance, c.jobs[n].key);
    }
    forall i | i in c.pods
      ensures Selects(TeardownSelector(op.name), c.pods[i].Labels()) <==> c.pods[i].instance == op.name
    {
      SelectorSeparation(op.name, c.pods[i].instance, if c.pods[i].Warming? then c.pods[i].key else "");
    }
  }

  /** A Job under this instance's name for a spec is this instance's Job for that spec's key. */
  lemma JobByName(op: Instance, c: Store, spec: Spec)
    requires WellNamed(c.jobs) && JobName(op, spec) in c.jobs
    ensures c.jobs[JobName(op, spec)].instance == op.name
    ensures c.jobs[JobName(op, spec)].key == Key(op, spec)
  {
    var job := c.jobs[JobName(op, spec)];
    WarmJobNameInjective(job.instance, job.key, op.name, Key(op, spec));
  }
}
