/** The interleaved system: one worker for the object, its users, the watches that feed it, warm-up pods
    and Jobs, the Deployment controller and the operators of other instances, all on one store. */
module Protocol {
  import opened Api
  import opened Render
  import opened Cluster
  import opened Reconcile

  /** What the worker reads comes from watch caches that lag behind the store: `seen` is the version of
      the object they have reached, and `v` holds the Jobs, pods, claims and Deployment as they were
      when each kind was last delivered. */
  datatype State = State(c: Store, w: Worker, seen: nat, v: Store)

  /** The object's users and other controllers. */
  datatype UserAction =
    | Create(spec: Spec, finalizer: bool, foreign: bool)
    | Edit(spec: Spec)
    | Delete
    | ForeignFinalizerGone

  /** Jobs and their pods, claims, the Deployment controller. */
  datatype WorldAction =
    | ClaimCreated(claim: string)
    | WarmPodStarts(id: nat, job: string)
    | WarmPodWorks(id: nat)
    | JobSucceeds(job: string, pod: nat)
    | JobFails(job: string)
    | JobDeleted(job: string)
    | PodGone(id: nat)
    | RollsOut(template: Template)
    | ReplicaSetGone(template: Template)
    | ServingPodStarts(id: nat, template: Template)
    | DeploymentObserved(replicas: int32, ready: int32)

  /** What the worker reads besides its object, each kind through a watch of its own. */
  datatype Kind = Jobs | Pods | Claims | Deployments

  datatype Action =
    | Wake                                 // the worker starts a pass on what the cache holds
    | Work(sig: Signals, pick: string)     // the worker's next API call
    | Fail                                 // a call fails or the process restarts
    | Deliver(version: nat)                // the watch of the object catches up, perhaps not fully
    | Catch(kinds: set<Kind>)              // the watches of other kinds catch up
    | User(user: UserAction)
    | World(event: WorldAction)
    | Others(jobs: map<string, Job>, volumes: map<string, Volume>, pods: map<nat, Pod>)

  // ------------------------------------------------------------------ volumes

  /** Nobody removes weights or markers. */
  ghost predicate Grown(vs: map<string, Volume>, vs': map<string, Volume>) {
    forall v | v in vs :: v in vs' && vs[v].weights <= vs'[v].weights && vs[v].markers <= vs'[v].markers
  }

  /** A marker is only ever written after a download whose key it is. */
  ghost predicate Honest(sha: Hasher, vs: map<string, Volume>) {
    forall v, k | v in vs && k in vs[v].markers :: HasWeights(sha, vs[v].weights, k)
  }

  ghost predicate HasWeights(sha: Hasher, weights: set<Identity>, key: string) {
    exists id :: id in weights && CacheKey(sha, id) == key
  }

  // -------------------------------------------------------------- other actors

  /** What the operators of other instances may do: anything to their own Jobs and pods, nothing to
      this instance's, and add to volumes what they downloaded. */
  ghost predicate OthersOk(
    op: Instance, c: Store, jobs: map<string, Job>, volumes: map<string, Volume>, pods: map<nat, Pod>)
  {
    && WellNamed(jobs)
    && (forall n | n in c.jobs && c.jobs[n].instance == op.name :: n in jobs && jobs[n] == c.jobs[n])
    && (forall n | n in jobs && jobs[n].instance == op.name :: n in c.jobs && c.jobs[n] == jobs[n])
    && (forall i | i in c.pods && c.pods[i].instance == op.name :: i in pods && pods[i] == c.pods[i])
    && (forall i | i in pods && pods[i].instance == op.name :: i in c.pods && c.pods[i] == pods[i])
    && Grown(c.volumes, volumes) && Honest(op.sha, volumes)
  }

  /** The warm-up script: download, then marker, then exit successfully. */
  function WarmPodStep(c: Store, id: nat): Store
    requires id in c.pods && c.pods[id].Warming? && c.pods[id].claim in c.volumes
  {
    var pod := c.pods[id];
    var vol := c.volumes[pod.claim];
    match pod.progress
    case Started =>
      c.(volumes := c.volumes[pod.claim := vol.(weights := vol.weights + {pod.identity})],
         pods := c.pods[id := pod.(progress := Downloaded)])
    case Downloaded =>
      c.(volumes := c.volumes[pod.claim := vol.(markers := vol.markers + {pod.key})],
         pods := c.pods[id := pod.(progress := Finished)])
    case Finished => c
  }

  predicate OwnJob(op: Instance, c: Store, job: string) {
    job in c.jobs && c.jobs[job].instance == op.name
  }

  /** The object as its user and other controllers change it. The API server keeps an object with a
      finalizer until the last one is gone. */
  function UserStep(c: Store, a: UserAction): Store {
    match a
    case Create(spec, finalizer, foreign) =>
      if Current(c).Some? then c else PutMd(c, Some(Md(spec, EMPTY_STATUS, 1, finalizer, foreign, false)))
    case Edit(spec) =>
      if Current(c).None? || Current(c).value.spec == spec then c
      else
        var md := Current(c).value;
        PutMd(c, Some(md.(spec := spec, generation := md.generation + 1)))
    case Delete =>
      if Current(c).None? || Current(c).value.deleting then c
      else
        var md := Current(c).value;
        PutMd(c, if md.finalizer || md.foreignFinalizer
                 then Some(md.(deleting := true, generation := md.generation + 1)) else None)
    case ForeignFinalizerGone =>
      if Current(c).None? || !Current(c).value.foreignFinalizer then c
      else
        var md := Current(c).value;
        PutMd(c, if md.deleting && !md.finalizer then None else Some(md.(foreignFinalizer := false)))
  }

  /** Jobs, pods, claims and the Deployment controller. A Job's pods carry what its template says; a
      ReplicaSet is created only for a template that was released; a pod only for a ReplicaSet. */
  function WorldStep(op: Instance, c: Store, e: WorldAction): Store {
    match e
    case ClaimCreated(claim) =>
      if claim in c.volumes then c else c.(volumes := c.volumes[claim := Volume({}, {})])
    case WarmPodStarts(id, job) =>
      if id in c.pods || !OwnJob(op, c, job) then c
      else
        var j := c.jobs[job];
        c.(pods := c.pods[id := Warming(op.name, job, j.key, j.identity, j.claim, Started)])
    case WarmPodWorks(id) =>
      if id in c.pods && c.pods[id].Warming? && c.pods[id].instance == op.name && c.pods[id].claim in c.volumes
      then WarmPodStep(c, id) else c
    case JobSucceeds(job, pod) =>
      if OwnJob(op, c, job) && pod in c.pods && c.pods[pod].Warming? && c.pods[pod].instance == op.name
         && c.pods[pod].job == job && c.pods[pod].progress == Finished
         && c.pods[pod].key == c.jobs[job].key && c.pods[pod].claim == c.jobs[job].claim
      then c.(jobs := c.jobs[job := c.jobs[job].(succeeded := c.jobs[job].succeeded + 1)]) else c
    case JobFails(job) =>
      if OwnJob(op, c, job)
      then c.(jobs := c.jobs[job := c.jobs[job].(conditions := c.jobs[job].conditions + [JobCondition("Failed", true)])])
      else c
    case JobDeleted(job) => if OwnJob(op, c, job) then c.(jobs := c.jobs - {job}) else c
    case PodGone(id) => if id in c.pods && c.pods[id].instance == op.name then c.(pods := c.pods - {id}) else c
    case RollsOut(t) => if t in c.rollouts then c.(replicaSets := c.replicaSets + {t}) else c
    case ReplicaSetGone(t) => c.(replicaSets := c.replicaSets - {t})
    case ServingPodStarts(id, t) =>
      if id !in c.pods && t in c.replicaSets then c.(pods := c.pods[id := Serving(op.name, t)]) else c
    case DeploymentObserved(replicas, ready) =>
      if c.deployment.None? then c
      else c.(deployment := Some(c.deployment.value.(observedReplicas := replicas, readyReplicas := ready)))
  }

  function CatchUp(c: Store, v: Store, kinds: set<Kind>): Store {
    v.(jobs := if Jobs in kinds then c.jobs else v.jobs,
       pods := if Pods in kinds then c.pods else v.pods,
       volumes := if Claims in kinds then c.volumes else v.volumes,
       deployment := if Deployments in kinds then c.deployment else v.deployment)
  }

  /** One step of the system; an action that is not possible leaves it as it is. */
  ghost function Step(op: Instance, s: State, a: Action): State {
    match a
    case Wake =>
      if (s.w.Idle? || s.w.Synced?) && s.seen < |s.c.versions|
      then s.(w := Begin(s.c.versions[s.seen], s.seen)) else s
    case Work(sig, pick) =>
      var (c', w') := WorkerStep(op, s.c, s.v, s.w, sig, pick);
      s.(c := c', w := w')
    case Fail => s.(w := Idle)
    case Deliver(version) => if s.seen <= version < |s.c.versions| then s.(seen := version) else s
    case Catch(kinds) => s.(v := CatchUp(s.c, s.v, kinds))
    case Others(jobs, volumes, pods) =>
      if OthersOk(op, s.c, jobs, volumes, pods)
      then s.(c := s.c.(jobs := jobs, volumes := volumes, pods := pods)) else s
    case User(u) => s.(c := UserStep(s.c, u))
    case World(e) => s.(c := WorldStep(op, s.c, e))
  }

  /** A whole run: any actions in any order. */
  ghost function Exec(op: Instance, s: State, acts: seq<Action>): State
    decreases |acts|
  {
    if acts == [] then s else Exec(op, Step(op, s, acts[0]), acts[1..])
  }

  lemma WorldVersions(op: Instance, c: Store, e: WorldAction)
    ensures WorldStep(op, c, e).versions == c.versions
  {
  }

  /** Before the object exists: no child of this instance, honest volumes. */
  ghost predicate Initial(op: Instance, s: State) {
    && s.w == Idle && s.seen == 0 && s.c.versions == [None] && s.v == s.c
    && s.c.deployment.None? && s.c.rollouts == {} && s.c.replicaSets == {}
    && WellNamed(s.c.jobs) && Honest(op.sha, s.c.volumes)
    && (forall n | n in s.c.jobs :: s.c.jobs[n].instance != op.name)
    && (forall i | i in s.c.pods :: s.c.pods[i].instance != op.name)
  }

  lemma {:induction false} ExecSnoc(op: Instance, s: State, acts: seq<Action>, a: Action)
    ensures Exec(op, s, acts + [a]) == Step(op, Exec(op, s, acts), a)
    decreases |acts|
  {
    if acts == [] {
      assert acts + [a] == [a] && [a][1..] == [];
      assert Exec(op, s, [a]) == Exec(op, Step(op, s, a), []);
    } else {
      assert (acts + [a])[1..] == acts[1..] + [a];
      ExecSnoc(op, Step(op, s, acts[0]), acts[1..], a);
    }
  }
}
