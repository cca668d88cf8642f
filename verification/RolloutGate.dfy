/** The rollout gate: nothing serves a key whose download has not finished, under every interleaving. */
module RolloutGate {
  import opened Api
  import opened Render
  import opened Cluster
  import opened Reconcile
  import opened Protocol

  // --------------------------------------------------------------- statements

  /** The Deployment may roll this template out, or a ReplicaSet or serving pod already carries it. */
  ghost predicate MayServe(op: Instance, c: Store, t: Template) {
    || (c.deployment.Some? && !c.deployment.value.paused && c.deployment.value.template == t)
    || t in c.replicaSets
    || (exists i :: i in c.pods && c.pods[i] == Serving(op.name, t))
  }

  /** Whatever may serve from a shared claim finds its marker there. */
  ghost predicate GateHolds(op: Instance, c: Store) {
    forall t | MayServe(op, c, t) && t.claim.Some? :: t.key in Markers(c.volumes, t.claim.value)
  }

  /** The specs users write name one claim per cache key. */
  ghost predicate ClaimConsistent(op: Instance, specs: set<Spec>) {
    forall a, b | a in specs && b in specs && a.cache.Some? && b.cache.Some? && Key(op, a) == Key(op, b) ::
      Claim(op, a) == Claim(op, b)
  }

  predicate Allowed(specs: set<Spec>, a: Action) {
    match a
    case User(Create(spec, _, _)) => spec in specs
    case User(Edit(spec)) => spec in specs
    case _ => true
  }

  ghost predicate AllAllowed(specs: set<Spec>, acts: seq<Action>) {
    forall i | 0 <= i < |acts| :: Allowed(specs, acts[i])
  }

  // ---------------------------------------------------------------- invariant

  /** A stored spec is a user's, up to the replica count the operator writes. */
  ghost predicate FromUser(specs: set<Spec>, spec: Spec) {
    exists s :: s in specs && s.(replicas := spec.replicas) == spec
  }

  ghost predicate Backed(op: Instance, specs: set<Spec>, key: string, claim: string) {
    exists s :: s in specs && s.cache.Some? && Key(op, s) == key && Claim(op, s) == claim
  }

  ghost predicate JobOk(op: Instance, specs: set<Spec>, vs: map<string, Volume>, j: Job) {
    && j.key == CacheKey(op.sha, j.identity)
    && Backed(op, specs, j.key, j.claim)
    && (j.succeeded > 0 ==> j.key in Markers(vs, j.claim))
  }

  ghost predicate PodOk(op: Instance, vs: map<string, Volume>, rollouts: set<Template>, pod: Pod) {
    match pod
    case Serving(_, t) => t in rollouts
    case Warming(_, _, key, identity, claim, progress) =>
      && key == CacheKey(op.sha, identity)
      && (progress != Started ==> identity in Weights(vs, claim))
      && (progress == Finished ==> key in Markers(vs, claim))
  }

  ghost predicate TemplateOk(op: Instance, vs: map<string, Volume>, t: Template) {
    && t.key == CacheKey(op.sha, t.identity)
    && (t.claim.Some? ==> t.key in Markers(vs, t.claim.value))
  }

  ghost predicate PassOk(op: Instance, specs: set<Spec>, vs: map<string, Volume>, p: Pass) {
    && FromUser(specs, p.md.spec)
    && (p.md.spec.cache.Some? && p.cache.warm ==> Key(op, p.md.spec) in Markers(vs, Claim(op, p.md.spec)))
  }

  ghost predicate WorkerOk(op: Instance, specs: set<Spec>, vs: map<string, Volume>, w: Worker) {
    match w
    case Idle => true
    case AddingFinalizer(md, _) => FromUser(specs, md.spec)
    case Finalizing(_, md, _) => FromUser(specs, md.spec)
    case Syncing(at, p) =>
      && PassOk(op, specs, vs, p)
      && (at in {ReadingJob, CreatingJob, ListingStale, Pruning} ==> p.md.spec.cache.Some?)
    case Synced(p) => PassOk(op, specs, vs, p)
  }

  ghost predicate JobsOk(op: Instance, specs: set<Spec>, vs: map<string, Volume>, jobs: map<string, Job>) {
    WellNamed(jobs) && forall n | n in jobs && jobs[n].instance == op.name :: JobOk(op, specs, vs, jobs[n])
  }

  ghost predicate PodsOk(op: Instance, vs: map<string, Volume>, rollouts: set<Template>, pods: map<nat, Pod>) {
    forall i | i in pods && pods[i].instance == op.name :: PodOk(op, vs, rollouts, pods[i])
  }

  ghost predicate RolloutsOk(op: Instance, c: Store) {
    && (forall t | t in c.rollouts :: TemplateOk(op, c.volumes, t))
    && c.replicaSets <= c.rollouts
    && (c.deployment.Some? && !c.deployment.value.paused ==> c.deployment.value.template in c.rollouts)
  }

  ghost predicate VersionsOk(specs: set<Spec>, versions: seq<Option<Md>>) {
    forall i | 0 <= i < |versions| && versions[i].Some? :: FromUser(specs, versions[i].value.spec)
  }

  ghost predicate StoreOk(op: Instance, specs: set<Spec>, c: Store) {
    && Honest(op.sha, c.volumes)
    && JobsOk(op, specs, c.volumes, c.jobs)
    && PodsOk(op, c.volumes, c.rollouts, c.pods)
    && RolloutsOk(op, c)
    && VersionsOk(specs, c.versions)
  }

  /** The cached Jobs may be out of date, but what they say still holds: markers only grow. */
  ghost predicate Inv(op: Instance, specs: set<Spec>, s: State) {
    && StoreOk(op, specs, s.c) && WorkerOk(op, specs, s.c.volumes, s.w)
    && JobsOk(op, specs, s.c.volumes, s.v.jobs)
  }

  // ------------------------------------------------------------- claims by key

  lemma UserBacks(op: Instance, specs: set<Spec>, spec: Spec)
    requires FromUser(specs, spec) && spec.cache.Some?
    ensures Backed(op, specs, Key(op, spec), Claim(op, spec))
  {
    var s :| s in specs && s.(replicas := spec.replicas) == spec;
    assert s.cache.Some? && Key(op, s) == Key(op, spec) && Claim(op, s) == Claim(op, spec);
  }

  lemma OneClaim(op: Instance, specs: set<Spec>, key: string, c1: string, c2: string)
    requires ClaimConsistent(op, specs) && Backed(op, specs, key, c1) && Backed(op, specs, key, c2)
    ensures c1 == c2
  {
  }

  // ------------------------------------------------------------------- growth

  lemma GrowthKeepsMarkers(vs: map<string, Volume>, vs': map<string, Volume>, claim: string)
    requires Grown(vs, vs')
    ensures Markers(vs, claim) <= Markers(vs', claim) && Weights(vs, claim) <= Weights(vs', claim)
  {
  }

  lemma GrowthKeepsJobs(op: Instance, specs: set<Spec>, vs: map<string, Volume>, vs': map<string, Volume>, jobs: map<string, Job>)
    requires Grown(vs, vs') && JobsOk(op, specs, vs, jobs)
    ensures JobsOk(op, specs, vs', jobs)
  {
    forall n | n in jobs && jobs[n].instance == op.name
      ensures JobOk(op, specs, vs', jobs[n])
    {
      GrowthKeepsMarkers(vs, vs', jobs[n].claim);
    }
  }

  lemma GrowthKeepsPods(op: Instance, vs: map<string, Volume>, vs': map<string, Volume>, rollouts: set<Template>, pods: map<nat, Pod>)
    requires Grown(vs, vs') && PodsOk(op, vs, rollouts, pods)
    ensures PodsOk(op, vs', rollouts, pods)
  {
    forall i | i in pods && pods[i].instance == op.name
      ensures PodOk(op, vs', rollouts, pods[i])
    {
      if pods[i].Warming? {
        GrowthKeepsMarkers(vs, vs', pods[i].claim);
      }
    }
  }

  lemma GrowthKeepsRollouts(op: Instance, c: Store, vs': map<string, Volume>)
    requires Grown(c.volumes, vs') && RolloutsOk(op, c)
    ensures RolloutsOk(op, c.(volumes := vs'))
  {
    forall t | t in c.rollouts
      ensures TemplateOk(op, vs', t)
    {
      if t.claim.Some? {
        GrowthKeepsMarkers(c.volumes, vs', t.claim.value);
      }
    }
  }

  lemma GrowthKeepsWorker(op: Instance, specs: set<Spec>, vs: map<string, Volume>, vs': map<string, Volume>, w: Worker)
    requires Grown(vs, vs') && WorkerOk(op, specs, vs, w)
    ensures WorkerOk(op, specs, vs', w)
  {
    if w.Syncing? || w.Synced? {
      GrowthKeepsMarkers(vs, vs', Claim(op, w.pass.md.spec));
    }
  }

  /** Volumes that only gained contents keep the invariant. */
  lemma GrowthKeeps(op: Instance, specs: set<Spec>, s: State, vs': map<string, Volume>)
    requires Inv(op, specs, s) && Grown(s.c.volumes, vs') && Honest(op.sha, vs')
    ensures Inv(op, specs, s.(c := s.c.(volumes := vs')))
  {
    GrowthKeepsJobs(op, specs, s.c.volumes, vs', s.c.jobs);
    GrowthKeepsJobs(op, specs, s.c.volumes, vs', s.v.jobs);
    GrowthKeepsPods(op, s.c.volumes, vs', s.c.rollouts, s.c.pods);
    GrowthKeepsRollouts(op, s.c, vs');
    GrowthKeepsWorker(op, specs, s.c.volumes, vs', s.w);
  }

  // --------------------------------------------------------------- sync steps

  lemma ReadJobKeeps(op: Instance, specs: set<Spec>, s: State)
    requires ClaimConsistent(op, specs) && Inv(op, specs, s)
    requires s.w.Syncing? && s.w.pass.md.spec.cache.Some? && JobName(op, s.w.pass.md.spec) in s.v.jobs
    ensures PassOk(op, specs, s.c.volumes, s.w.pass.(cache := CacheOf(s.v.jobs[JobName(op, s.w.pass.md.spec)])))
  {
    var spec := s.w.pass.md.spec;
    var job := s.v.jobs[JobName(op, spec)];
    JobByName(op, s.v, spec);
    assert JobOk(op, specs, s.c.volumes, job);
    UserBacks(op, specs, spec);
    OneClaim(op, specs, job.key, job.claim, Claim(op, spec));
  }

  lemma EnsureClaimKeeps(op: Instance, specs: set<Spec>, s: State, spec: Spec)
    requires Inv(op, specs, s) && EnsureClaimFrom(op, s.c, s.v, spec).Some?
    ensures Inv(op, specs, s.(c := EnsureClaimFrom(op, s.c, s.v, spec).value))
  {
    var c' := EnsureClaimFrom(op, s.c, s.v, spec).value;
    assert Honest(op.sha, c'.volumes) by {
      forall v, k | v in c'.volumes && k in c'.volumes[v].markers
        ensures HasWeights(op.sha, c'.volumes[v].weights, k)
      {
        assert v in s.c.volumes;
      }
    }
    GrowthKeeps(op, specs, s, c'.volumes);
  }

  lemma CreateJobKeeps(op: Instance, specs: set<Spec>, c: Store, spec: Spec)
    requires StoreOk(op, specs, c) && FromUser(specs, spec) && spec.cache.Some?
    ensures StoreOk(op, specs, CreateJob(op, c, spec))
  {
    UserBacks(op, specs, spec);
    assert JobOk(op, specs, c.volumes, WarmJob(op, spec));
  }

  lemma FewerJobsKeeps(op: Instance, specs: set<Spec>, c: Store, names: set<string>)
    requires StoreOk(op, specs, c)
    ensures StoreOk(op, specs, DeleteJobs(c, names))
  {
  }

  lemma ApplyKeeps(op: Instance, specs: set<Spec>, c: Store, p: Pass, replicas: Count)
    requires StoreOk(op, specs, c) && PassOk(op, specs, c.volumes, p)
    ensures StoreOk(op, specs, ApplyDeployment(op, c, p.md.spec, replicas, Paused(p)))
  {
    var c' := ApplyDeployment(op, c, p.md.spec, replicas, Paused(p));
    if !Paused(p) {
      assert TemplateOk(op, c.volumes, TemplateOf(op, p.md.spec));
    }
    assert c.rollouts <= c'.rollouts;
    forall i | i in c.pods && c.pods[i].instance == op.name
      ensures PodOk(op, c.volumes, c'.rollouts, c.pods[i])
    {
      assert PodOk(op, c.volumes, c.rollouts, c.pods[i]);
    }
  }

  lemma AppendKeeps(op: Instance, specs: set<Spec>, c: Store, v: Option<Md>)
    requires StoreOk(op, specs, c) && (v.Some? ==> FromUser(specs, v.value.spec))
    ensures StoreOk(op, specs, PutMd(c, v))
  {
  }

  lemma SameUser(specs: set<Spec>, spec: Spec, replicas: Count)
    requires FromUser(specs, spec)
    ensures FromUser(specs, spec.(replicas := replicas))
  {
    var s :| s in specs && s.(replicas := spec.replicas) == spec;
    assert s.(replicas := replicas) == spec.(replicas := replicas);
  }

  lemma ClaimPhaseKeeps(op: Instance, specs: set<Spec>, s: State, sig: Signals, pick: string)
    requires Inv(op, specs, s) && s.w.Syncing? && s.w.at == EnsuringClaim
    ensures var (c', w') := SyncStep(op, s.c, s.v, EnsuringClaim, s.w.pass, sig, pick);
            Inv(op, specs, s.(c := c', w := w'))
  {
    var spec := s.w.pass.md.spec;
    if spec.cache.Some? && EnsureClaimFrom(op, s.c, s.v, spec).Some? {
      EnsureClaimKeeps(op, specs, s, spec);
    }
  }

  lemma JobPhasesKeep(op: Instance, specs: set<Spec>, s: State, sig: Signals, pick: string)
    requires ClaimConsistent(op, specs) && Inv(op, specs, s) && s.w.Syncing?
    requires s.w.at in {ReadingJob, CreatingJob, ListingStale, Pruning}
    ensures var (c', w') := SyncStep(op, s.c, s.v, s.w.at, s.w.pass, sig, pick);
            Inv(op, specs, s.(c := c', w := w'))
  {
    var p := s.w.pass;
    match s.w.at
    case ReadingJob =>
      if JobName(op, p.md.spec) in s.v.jobs {
        ReadJobKeeps(op, specs, s);
      }
    case CreatingJob => CreateJobKeeps(op, specs, s.c, p.md.spec);
    case ListingStale =>
    case Pruning => FewerJobsKeeps(op, specs, s.c, {pick});
  }

  lemma SpecWriteKeeps(op: Instance, specs: set<Spec>, s: State, sig: Signals, pick: string)
    requires Inv(op, specs, s) && s.w.Syncing? && s.w.at == WritingSpec
    ensures var (c', w') := SyncStep(op, s.c, s.v, WritingSpec, s.w.pass, sig, pick);
            Inv(op, specs, s.(c := c', w := w'))
  {
    var p := s.w.pass;
    SameUser(specs, p.md.spec, p.decision.replicas);
    AppendKeeps(op, specs, s.c, Some(WithReplicas(p.md, p.decision.replicas)));
  }

  lemma StatusWriteKeeps(op: Instance, specs: set<Spec>, s: State, sig: Signals, pick: string)
    requires Inv(op, specs, s) && s.w.Syncing? && s.w.at == WritingStatus
    ensures var (c', w') := SyncStep(op, s.c, s.v, WritingStatus, s.w.pass, sig, pick);
            Inv(op, specs, s.(c := c', w := w'))
  {
    var p := s.w.pass;
    AppendKeeps(op, specs, s.c, Some(p.md.(status := NextStatus(op, p, sig.wall))));
  }

  lemma ApplyPhasesKeep(op: Instance, specs: set<Spec>, s: State, sig: Signals, pick: string)
    requires Inv(op, specs, s) && s.w.Syncing?
    requires s.w.at !in {EnsuringClaim, ReadingJob, CreatingJob, ListingStale, Pruning}
    requires s.w.at != WritingSpec && s.w.at != WritingStatus
    ensures Inv(op, specs, Step(op, s, Work(sig, pick)))
  {
    if s.w.at == ApplyingDeployment {
      ApplyKeeps(op, specs, s.c, s.w.pass, s.w.pass.decision.replicas);
    }
  }

  lemma FinalizeKeeps(op: Instance, specs: set<Spec>, s: State, sig: Signals, pick: string)
    requires Inv(op, specs, s) && s.w.Finalizing?
    ensures Inv(op, specs, Step(op, s, Work(sig, pick)))
  {
    match s.w.step
    case DeletingJobs => FewerJobsKeeps(op, specs, s.c, OwnJobs(op, s.c));
    case Releasing => AppendKeeps(op, specs, s.c, Current(ReleaseFinalizer(s.c, s.w.md)));
    case _ =>
  }

  lemma WorkKeeps(op: Instance, specs: set<Spec>, s: State, sig: Signals, pick: string)
    requires ClaimConsistent(op, specs) && Inv(op, specs, s)
    ensures Inv(op, specs, Step(op, s, Work(sig, pick)))
  {
    match s.w
    case Syncing(at, _) =>
      if at == EnsuringClaim {
        ClaimPhaseKeeps(op, specs, s, sig, pick);
      } else if at in {ReadingJob, CreatingJob, ListingStale, Pruning} {
        JobPhasesKeep(op, specs, s, sig, pick);
      } else if at == WritingSpec {
        SpecWriteKeeps(op, specs, s, sig, pick);
      } else if at == WritingStatus {
        StatusWriteKeeps(op, specs, s, sig, pick);
      } else {
        ApplyPhasesKeep(op, specs, s, sig, pick);
      }
    case Finalizing(_, _, _) => FinalizeKeeps(op, specs, s, sig, pick);
    case AddingFinalizer(md, _) => AppendKeeps(op, specs, s.c, Some(md.(finalizer := true)));
    case _ =>
  }

  // -------------------------------------------------------- everybody else's

  lemma UserKeeps(op: Instance, specs: set<Spec>, s: State, a: UserAction)
    requires Inv(op, specs, s) && Allowed(specs, User(a))
    ensures Inv(op, specs, s.(c := UserStep(s.c, a)))
  {
    var c' := UserStep(s.c, a);
    if c' != s.c {
      var v := Current(c');
      if v.Some? && (a.Create? || a.Edit?) {
        assert a.spec.(replicas := v.value.spec.replicas) == v.value.spec;
      }
      AppendKeeps(op, specs, s.c, v);
    }
  }

  /** Download before marker: whatever the script does, each marker has its weights. */
  lemma PodWorkIsHonest(op: Instance, c: Store, id: nat)
    requires Honest(op.sha, c.volumes) && id in c.pods && c.pods[id].Warming? && c.pods[id].claim in c.volumes
    requires PodOk(op, c.volumes, c.rollouts, c.pods[id])
    ensures Grown(c.volumes, WarmPodStep(c, id).volumes) && Honest(op.sha, WarmPodStep(c, id).volumes)
    ensures PodOk(op, WarmPodStep(c, id).volumes, c.rollouts, WarmPodStep(c, id).pods[id])
  {
    var c', pod := WarmPodStep(c, id), c.pods[id];
    forall v, k | v in c'.volumes && k in c'.volumes[v].markers
      ensures HasWeights(op.sha, c'.volumes[v].weights, k)
    {
      if k in c.volumes[v].markers {
        var w :| w in c.volumes[v].weights && CacheKey(op.sha, w) == k;
        assert w in c'.volumes[v].weights;
      } else {
        assert v == pod.claim && k == pod.key && pod.identity in c'.volumes[v].weights;
      }
    }
  }

  lemma PodWorkKeeps(op: Instance, specs: set<Spec>, s: State, id: nat)
    requires Inv(op, specs, s) && id in s.c.pods
    requires s.c.pods[id].Warming? && s.c.pods[id].instance == op.name && s.c.pods[id].claim in s.c.volumes
    ensures Inv(op, specs, s.(c := WarmPodStep(s.c, id)))
  {
    var c' := WarmPodStep(s.c, id);
    PodWorkIsHonest(op, s.c, id);
    GrowthKeeps(op, specs, s, c'.volumes);
    assert forall i | i in c'.pods && i != id :: c'.pods[i] == s.c.pods[i];
  }

  lemma JobsKeep(op: Instance, specs: set<Spec>, s: State, a: WorldAction)
    requires Inv(op, specs, s) && (a.JobSucceeds? || a.JobFails? || a.JobDeleted?)
    ensures Inv(op, specs, s.(c := WorldStep(op, s.c, a)))
  {
    if OwnJob(op, s.c, a.job) {
      assert JobOk(op, specs, s.c.volumes, s.c.jobs[a.job]);
      if a.JobSucceeds? && a.pod in s.c.pods && s.c.pods[a.pod].instance == op.name {
        assert PodOk(op, s.c.volumes, s.c.rollouts, s.c.pods[a.pod]);
      }
    }
  }

  lemma PodsKeep(op: Instance, specs: set<Spec>, s: State, a: WorldAction)
    requires Inv(op, specs, s) && (a.WarmPodStarts? || a.PodGone? || a.ServingPodStarts?)
    ensures Inv(op, specs, s.(c := WorldStep(op, s.c, a)))
  {
    if a.WarmPodStarts? && OwnJob(op, s.c, a.job) {
      assert JobOk(op, specs, s.c.volumes, s.c.jobs[a.job]);
    }
  }

  lemma WorldKeeps(op: Instance, specs: set<Spec>, s: State, a: WorldAction)
    requires Inv(op, specs, s)
    ensures Inv(op, specs, s.(c := WorldStep(op, s.c, a)))
  {
    match a
    case ClaimCreated(claim) =>
      if claim !in s.c.volumes {
        var vs' := s.c.volumes[claim := Volume({}, {})];
        assert Honest(op.sha, vs');
        GrowthKeeps(op, specs, s, vs');
      }
    case WarmPodWorks(id) =>
      if id in s.c.pods && s.c.pods[id].Warming? && s.c.pods[id].instance == op.name
         && s.c.pods[id].claim in s.c.volumes {
        PodWorkKeeps(op, specs, s, id);
      }
    case WarmPodStarts(_, _) => PodsKeep(op, specs, s, a);
    case PodGone(_) => PodsKeep(op, specs, s, a);
    case ServingPodStarts(_, _) => PodsKeep(op, specs, s, a);
    case JobSucceeds(_, _) => JobsKeep(op, specs, s, a);
    case JobFails(_) => JobsKeep(op, specs, s, a);
    case JobDeleted(_) => JobsKeep(op, specs, s, a);
    case _ =>
  }

  lemma OthersKeep(op: Instance, specs: set<Spec>, s: State, a: Action)
    requires Inv(op, specs, s) && a.Others?
    ensures Inv(op, specs, Step(op, s, a))
  {
    if OthersOk(op, s.c, a.jobs, a.volumes, a.pods) {
      GrowthKeeps(op, specs, s, a.volumes);
    }
  }

  lemma StepKeeps(op: Instance, specs: set<Spec>, s: State, a: Action)
    requires ClaimConsistent(op, specs) && Inv(op, specs, s) && Allowed(specs, a)
    ensures Inv(op, specs, Step(op, s, a))
  {
    match a
    case Work(sig, pick) => WorkKeeps(op, specs, s, sig, pick);
    case Others(_, _, _) => OthersKeep(op, specs, s, a);
    case Wake =>
    case Fail =>
    case Deliver(_) =>
    case Catch(_) =>
    case User(u) => UserKeeps(op, specs, s, u);
    case World(e) => WorldKeeps(op, specs, s, e);
  }

  lemma {:induction false} ExecKeeps(op: Instance, specs: set<Spec>, s: State, acts: seq<Action>)
    requires ClaimConsistent(op, specs) && Inv(op, specs, s) && AllAllowed(specs, acts)
    ensures Inv(op, specs, Exec(op, s, acts))
    decreases |acts|
  {
    if acts != [] {
      assert Allowed(specs, acts[0]);
      StepKeeps(op, specs, s, acts[0]);
      ExecKeeps(op, specs, Step(op, s, acts[0]), acts[1..]);
    }
  }

  // ----------------------------------------------------------------- theorems

  lemma InvGates(op: Instance, specs: set<Spec>, s: State)
    requires Inv(op, specs, s)
    ensures GateHolds(op, s.c)
  {
    forall t | MayServe(op, s.c, t) && t.claim.Some?
      ensures t.key in Markers(s.c.volumes, t.claim.value)
    {
      assert t in s.c.rollouts;
      assert TemplateOk(op, s.c.volumes, t);
    }
  }

  /** The gate: in every run over claim-consistent specs, from any initial store, whatever the order of
      edits, deletions, retries, prunes, scalings, failures and other instances' work. */
  lemma GateIsSafe(op: Instance, specs: set<Spec>, s: State, acts: seq<Action>)
    requires Initial(op, s) && ClaimConsistent(op, specs) && AllAllowed(specs, acts)
    ensures GateHolds(op, Exec(op, s, acts).c)
  {
    ExecKeeps(op, specs, s, acts);
    InvGates(op, specs, Exec(op, s, acts));
  }

  /** And the marker means the weights: unless another model on the same claim has a digest that begins
      alike, what serves finds its own weights there. */
  lemma GateFindsWeights(op: Instance, specs: set<Spec>, s: State, acts: seq<Action>, t: Template)
    requires Initial(op, s) && ClaimConsistent(op, specs) && AllAllowed(specs, acts)
    requires MayServe(op, Exec(op, s, acts).c, t) && t.claim.Some?
    requires forall id | id in Weights(Exec(op, s, acts).c.volumes, t.claim.value) ::
               Fingerprint(op.sha, id) == Fingerprint(op.sha, t.identity) ==> id == t.identity
    ensures t.identity in Weights(Exec(op, s, acts).c.volumes, t.claim.value)
  {
    var end := Exec(op, s, acts);
    ExecKeeps(op, specs, s, acts);
    assert t in end.c.rollouts;
    assert TemplateOk(op, end.c.volumes, t);
    var weights := end.c.volumes[t.claim.value].weights;
    assert HasWeights(op.sha, weights, t.key);
    var id :| id in weights && CacheKey(op.sha, id) == t.key;
    SameKeyIff(op.sha, id, t.identity);
  }
}
