/** Progress is always possible: from every reachable state some continuation without any user action ends
    with the model released and settled, or, for a deleted object, with nothing. */
module Progress {
  import opened Api
  import opened Render
  import opened StatusModel
  import opened Cluster
  import opened Reconcile
  import opened Protocol
  import opened PassLaws
  import opened PassRuns
  import opened Versions
  import Interleavings
  import ScaleToZero

  // ----------------------------------------------------------------- invariants

  /** The API server keeps no deleted object without a finalizer. */
  ghost predicate Guarded(versions: seq<Option<Md>>) {
    forall i | 0 <= i < |versions| && versions[i].Some? && versions[i].value.deleting ::
      versions[i].value.finalizer || versions[i].value.foreignFinalizer
  }

  lemma OtherWorkGuarded(op: Instance, s: State, sig: Signals, pick: string)
    requires Tied(s) && Guarded(s.c.versions) && !s.w.Syncing?
    ensures Guarded(WorkerStep(op, s.c, s.v, s.w, sig, pick).0.versions)
  {
  }

  lemma GuardedSnoc(versions: seq<Option<Md>>, v: Option<Md>)
    requires Guarded(versions) && (v.Some? && v.value.deleting ==> v.value.finalizer || v.value.foreignFinalizer)
    ensures Guarded(versions + [v])
  {
  }

  lemma SyncGuarded(op: Instance, s: State, sig: Signals, pick: string)
    requires Tied(s) && Guarded(s.c.versions) && s.w.Syncing?
    ensures Guarded(SyncStep(op, s.c, s.v, s.w.at, s.w.pass, sig, pick).0.versions)
  {
    var p := s.w.pass;
    SyncShape(op, s.c, s.v, s.w.at, p, sig, pick);
    GuardedSnoc(s.c.versions, Some(WithReplicas(p.md, p.decision.replicas)));
    GuardedSnoc(s.c.versions, Some(p.md.(status := NextStatus(op, p, sig.wall))));
  }

  lemma UserGuarded(c: Store, u: UserAction)
    requires Guarded(c.versions)
    ensures Guarded(UserStep(c, u).versions)
  {
    var c' := UserStep(c, u);
    if c' != c {
      GuardedSnoc(c.versions, Current(c'));
    }
  }

  lemma StepGuarded(op: Instance, s: State, a: Action)
    requires Tied(s) && Guarded(s.c.versions)
    ensures Guarded(Step(op, s, a).c.versions)
  {
    match a
    case Work(sig, pick) =>
      if s.w.Syncing? {
        SyncGuarded(op, s, sig, pick);
      } else {
        OtherWorkGuarded(op, s, sig, pick);
      }
    case User(u) => UserGuarded(s.c, u);
    case World(e) => WorldVersions(op, s.c, e);
    case _ =>
  }

  /** Every Job of this instance mounts a claim that exists; so will the one about to be created. */
  ghost predicate Mounted(op: Instance, s: State) {
    && s.v.volumes.Keys <= s.c.volumes.Keys
    && (forall n | n in s.c.jobs && s.c.jobs[n].instance == op.name :: s.c.jobs[n].claim in s.c.volumes)
    && (s.w.Syncing? && s.w.at in {ReadingJob, CreatingJob} ==> Claim(op, s.w.pass.md.spec) in s.c.volumes)
  }

  lemma SyncMounted(op: Instance, s: State, sig: Signals, pick: string)
    requires Mounted(op, s) && s.w.Syncing?
    ensures var (c', w') := SyncStep(op, s.c, s.v, s.w.at, s.w.pass, sig, pick); Mounted(op, s.(c := c', w := w'))
  {
    if s.w.at == EnsuringClaim || s.w.at == ReadingJob {
      ClaimMounted(op, s, sig, pick);
    } else if s.w.at == CreatingJob || s.w.at == Pruning {
      JobMounted(op, s, sig, pick);
    } else {
      OtherPhaseMounted(op, s, sig, pick);
    }
  }

  lemma ClaimMounted(op: Instance, s: State, sig: Signals, pick: string)
    requires Mounted(op, s) && s.w.Syncing? && (s.w.at == EnsuringClaim || s.w.at == ReadingJob)
    ensures var (c', w') := SyncStep(op, s.c, s.v, s.w.at, s.w.pass, sig, pick); Mounted(op, s.(c := c', w := w'))
  {
  }

  lemma JobMounted(op: Instance, s: State, sig: Signals, pick: string)
    requires Mounted(op, s) && s.w.Syncing? && (s.w.at == CreatingJob || s.w.at == Pruning)
    ensures var (c', w') := SyncStep(op, s.c, s.v, s.w.at, s.w.pass, sig, pick); Mounted(op, s.(c := c', w := w'))
  {
  }

  lemma OtherPhaseFrame(op: Instance, c: Store, v: Store, at: Phase, p: Pass, sig: Signals, pick: string)
    requires at !in {EnsuringClaim, ReadingJob, CreatingJob, Pruning}
    ensures var (c', w') := SyncStep(op, c, v, at, p, sig, pick);
            && c'.jobs == c.jobs && c'.volumes == c.volumes
            && (w'.Syncing? ==> w'.at !in {ReadingJob, CreatingJob})
  {
  }

  lemma MountedFrame(op: Instance, s: State, c': Store, w': Worker)
    requires Mounted(op, s) && c'.jobs == s.c.jobs && c'.volumes == s.c.volumes
    requires w'.Syncing? ==> w'.at !in {ReadingJob, CreatingJob}
    ensures Mounted(op, s.(c := c', w := w'))
  {
  }

  lemma OtherPhaseMounted(op: Instance, s: State, sig: Signals, pick: string)
    requires Mounted(op, s) && s.w.Syncing?
    requires s.w.at !in {EnsuringClaim, ReadingJob, CreatingJob, Pruning}
    ensures var (c', w') := SyncStep(op, s.c, s.v, s.w.at, s.w.pass, sig, pick); Mounted(op, s.(c := c', w := w'))
  {
    OtherPhaseFrame(op, s.c, s.v, s.w.at, s.w.pass, sig, pick);
    var (c', w') := SyncStep(op, s.c, s.v, s.w.at, s.w.pass, sig, pick);
    MountedFrame(op, s, c', w');
  }

  lemma OtherWorkMounted(op: Instance, s: State, sig: Signals, pick: string)
    requires Mounted(op, s) && !s.w.Syncing?
    ensures var (c', w') := WorkerStep(op, s.c, s.v, s.w, sig, pick); Mounted(op, s.(c := c', w := w'))
  {
  }

  lemma WorldMounted(op: Instance, s: State, e: WorldAction)
    requires Mounted(op, s)
    ensures Mounted(op, s.(c := WorldStep(op, s.c, e)))
  {
    Interleavings.WorldGrows(op, s.c, e);
  }

  lemma StepMounted(op: Instance, s: State, a: Action)
    requires Mounted(op, s)
    ensures Mounted(op, Step(op, s, a))
  {
    match a
    case Work(sig, pick) =>
      if s.w.Syncing? {
        SyncMounted(op, s, sig, pick);
      } else {
        OtherWorkMounted(op, s, sig, pick);
      }
    case World(e) => WorldMounted(op, s, e);
    case User(u) => Interleavings.UserFrame(s.c, u);
    case _ =>
  }

  ghost predicate Inv(op: Instance, s: State) {
    Tied(s) && Guarded(s.c.versions) && Mounted(op, s) && WellNamed(s.c.jobs)
  }

  lemma {:induction false} ExecKeeps(op: Instance, s: State, acts: seq<Action>)
    requires Inv(op, s) && Interleavings.PassInv(op, s.c, s.v, s.w)
    ensures Inv(op, Exec(op, s, acts))
    decreases |acts|
  {
    if acts != [] {
      TiedStep(op, s, acts[0]);
      StepGuarded(op, s, acts[0]);
      StepMounted(op, s, acts[0]);
      Interleavings.StepKeeps(op, s, acts[0]);
      ExecKeeps(op, Step(op, s, acts[0]), acts[1..]);
    }
  }

  // ------------------------------------------------------------------- teardown

  /** The pods of the instance go away one after the other. */
  lemma {:induction false} PodsGo(op: Instance, s: State) returns (acts: seq<Action>)
    ensures NoUser(acts)
    ensures var s' := Exec(op, s, acts);
            s' == s.(c := s.c.(pods := s'.c.pods)) && OwnPods(op, s'.c) == {}
    decreases OwnPods(op, s.c)
  {
    if OwnPods(op, s.c) == {} {
      acts := [];
    } else {
      var i :| i in OwnPods(op, s.c);
      OwnByInstance(op, s.c);
      var gone := World(PodGone(i));
      var s1 := Step(op, s, gone);
      assert s1 == s.(c := s.c.(pods := s.c.pods - {i}));
      assert OwnPods(op, s1.c) == OwnPods(op, s.c) - {i};
      var rest := PodsGo(op, s1);
      acts := [gone] + rest;
      assert acts[1..] == rest;
    }
  }

  const CALL := Work(BLIND, "")

  lemma NoPodsInCache(op: Instance, c: Store, v: Store)
    requires v.pods == c.pods && OwnPods(op, c) == {}
    ensures OwnPods(op, v) == {}
  {
    assert OwnPods(op, v) == OwnPods(op, c);
  }

  lemma DeletesChildren(op: Instance, s: State, md: Md, rv: nat)
    requires s.w == Finalizing(DeletingDeployment, md, rv)
    ensures var s' := Exec(op, s, [CALL, CALL]);
            s' == s.(c := s'.c, w := Finalizing(ListingPods, md, rv)) && s'.c == s.c.(deployment := None, jobs := s'.c.jobs)
  {
    TwoSteps(op, s, CALL, CALL);
  }

  lemma ReleasesLast(op: Instance, s: State, md: Md, rv: nat)
    requires s.w == Finalizing(ListingPods, md, rv) && OwnPods(op, s.v) == {} && IsLatest(s.c, rv)
    requires md.deleting && !md.foreignFinalizer
    ensures Current(Exec(op, s, [CALL, CALL]).c).None?
  {
    TwoSteps(op, s, CALL, CALL);
  }

  /** A teardown that finds no pod. */
  lemma TearsDown(op: Instance, s: State, md: Md) returns (acts: seq<Action>)
    requires s.w == Idle && s.seen < |s.c.versions| && Current(s.c) == Some(md) && OwnPods(op, s.c) == {}
    requires md.deleting && md.finalizer && !md.foreignFinalizer
    ensures NoUser(acts) && Current(Exec(op, s, acts).c).None?
  {
    var last := |s.c.versions| - 1;
    var wake, pods := [Deliver(last), Wake], [Catch({Pods})];
    TwoSteps(op, s, Deliver(last), Wake);
    var s1 := Exec(op, s, wake);
    assert s1 == s.(seen := last, w := Finalizing(DeletingDeployment, md, last));
    ExecOne(op, s1, Catch({Pods}));
    var s2 := Exec(op, s1, pods);
    NoPodsInCache(op, s.c, s2.v);
    DeletesChildren(op, s2, md, last);
    ReleasesLast(op, Exec(op, s2, [CALL, CALL]), md, last);
    ExecConcat(op, s, wake, pods);
    ExecConcat(op, s, wake + pods, [CALL, CALL]);
    ExecConcat(op, s, wake + pods + [CALL, CALL], [CALL, CALL]);
    acts := wake + pods + [CALL, CALL] + [CALL, CALL];
  }

  /** From every reachable state in which the object is being deleted and no other controller holds it,
      it can go away without anybody's help. */
  lemma CanTearDown(op: Instance, s: State, acts: seq<Action>) returns (more: seq<Action>)
    requires Initial(op, s)
    requires var v := Current(Exec(op, s, acts).c); v.Some? && v.value.deleting && !v.value.foreignFinalizer
    ensures NoUser(more) && Current(Exec(op, s, acts + more).c).None?
  {
    ExecKeeps(op, s, acts);
    var s0 := Exec(op, s, acts);
    var md := Current(s0.c).value;
    ExecOne(op, s0, Fail);
    var idle := s0.(w := Idle);
    var pods := PodsGo(op, idle);
    var s1 := Exec(op, idle, pods);
    var down := TearsDown(op, s1, md);
    more := [Fail] + pods + down;
    ExecConcat(op, s0, [Fail], pods);
    ExecConcat(op, s0, [Fail] + pods, down);
    ExecConcat(op, s, acts, more);
  }

  // -------------------------------------------------------------------- release

  /** The operator's finalizer gets in place. */
  lemma GetsFinalizer(op: Instance, s: State) returns (acts: seq<Action>)
    requires s.w == Idle && s.seen < |s.c.versions| && Current(s.c).Some? && !Current(s.c).value.deleting
    ensures NoUser(acts)
    ensures var s' := Exec(op, s, acts);
            && AtRest(s') && s'.c == s.c.(versions := s'.c.versions)
            && Current(s'.c) == Some(Current(s.c).value.(finalizer := true))
  {
    if Current(s.c).value.finalizer {
      acts := [];
      assert Current(s.c).value == Current(s.c).value.(finalizer := true);
    } else {
      var last := |s.c.versions| - 1;
      TwoSteps(op, s, Deliver(last), Wake);
      var woken := Exec(op, s, [Deliver(last), Wake]);
      assert woken == s.(seen := last, w := AddingFinalizer(Current(s.c).value, last));
      ExecOne(op, woken, CALL);
      ExecConcat(op, s, [Deliver(last), Wake], [CALL]);
      acts := [Deliver(last), Wake] + [CALL];
    }
  }

  /** A live object with its finalizer, and a claim it can use. */
  ghost predicate Startable(op: Instance, c: Store, spec: Spec) {
    && Current(c).Some? && Current(c).value.spec == spec
    && Current(c).value.finalizer && !Current(c).value.deleting
    && WellNamed(c.jobs) && (spec.cache.None? || Claim(op, spec) in c.volumes || OwnsClaim(spec))
    && (forall n | n in c.jobs && c.jobs[n].instance == op.name :: c.jobs[n].claim in c.volumes)
  }

  /** A blind pass keeps the count, and leaves the Job in place if there is a cache. */
  lemma BlindStore(op: Instance, c: Store, spec: Spec)
    requires Startable(op, c, spec)
    ensures var out := SyncPass(op, c, FreshPass(c), BLIND);
            && out.done.Some? && Startable(op, out.store, spec)
            && (spec.cache.Some? ==> JobName(op, spec) in out.store.jobs)
  {
    SyncCompletes(op, c, FreshPass(c), BLIND);
    var cached := CachePass(op, c, spec).value.0;
    CachedStartable(op, c, spec);
    KeepsStartable(op, cached, SyncPass(op, c, FreshPass(c), BLIND).store, spec);
  }

  /** The cache phase. */
  lemma CachedStartable(op: Instance, c: Store, spec: Spec)
    requires Startable(op, c, spec) && CachePass(op, c, spec).Some?
    ensures var cached := CachePass(op, c, spec).value.0;
            Startable(op, cached, spec) && (spec.cache.Some? ==> JobName(op, spec) in cached.jobs)
  {
    if spec.cache.Some? {
      RotatesWarmJobs(op, c, spec);
      var cached := CachePass(op, c, spec).value.0;
      assert JobName(op, spec) in OwnJobs(op, cached);
      FreshJobMounted(op, c, spec);
    }
  }

  lemma KeepsStartable(op: Instance, c: Store, c': Store, spec: Spec)
    requires Startable(op, c, spec) && c'.jobs == c.jobs && c'.volumes == c.volumes
    requires Current(c').Some? && Current(c').value.spec == spec
    requires Current(c').value.finalizer && !Current(c').value.deleting
    ensures Startable(op, c', spec)
  {
  }

  lemma FreshJobMounted(op: Instance, c: Store, spec: Spec)
    requires spec.cache.Some? && WellNamed(c.jobs) && CachePass(op, c, spec).Some?
    requires forall n | n in c.jobs && c.jobs[n].instance == op.name :: c.jobs[n].claim in c.volumes
    ensures var after := CachePass(op, c, spec).value.0;
            forall n | n in after.jobs && after.jobs[n].instance == op.name :: after.jobs[n].claim in after.volumes
  {
    RotatesWarmJobs(op, c, spec);
  }

  /** A pod of the Job runs its script to the end, and the Job counts it. */
  lemma JobRuns(op: Instance, s: State, name: string) returns (acts: seq<Action>)
    requires AtRest(s) && OwnJob(op, s.c, name) && s.c.jobs[name].claim in s.c.volumes && WellNamed(s.c.jobs)
    ensures NoUser(acts)
    ensures var s' := Exec(op, s, acts);
            && AtRest(s') && s'.c.versions == s.c.versions && WellNamed(s'.c.jobs)
            && s'.c.jobs.Keys == s.c.jobs.Keys && s'.c.jobs[name].succeeded > 0
            && s'.c.volumes.Keys == s.c.volumes.Keys
            && (forall n | n in s.c.jobs :: s'.c.jobs[n].instance == s.c.jobs[n].instance && s'.c.jobs[n].claim == s.c.jobs[n].claim)
  {
    var id := ScaleToZero.Above(s.c.pods.Keys);
    var start, work, done := World(WarmPodStarts(id, name)), World(WarmPodWorks(id)), World(JobSucceeds(name, id));
    TwoSteps(op, s, start, work);
    var s2 := Exec(op, s, [start, work]);
    PodDownloads(op, s, name, id);
    TwoSteps(op, s2, work, done);
    PodFinishes(op, s2, name, id);
    ExecConcat(op, s, [start, work], [work, done]);
    acts := [start, work] + [work, done];
  }

  lemma PodDownloads(op: Instance, s: State, name: string, id: nat)
    requires OwnJob(op, s.c, name) && s.c.jobs[name].claim in s.c.volumes && id !in s.c.pods
    ensures var s' := Step(op, Step(op, s, World(WarmPodStarts(id, name))), World(WarmPodWorks(id)));
            var j := s.c.jobs[name];
            && s' == s.(c := s.c.(pods := s'.c.pods, volumes := s'.c.volumes)) && s'.c.volumes.Keys == s.c.volumes.Keys
            && id in s'.c.pods && s'.c.pods[id] == Warming(op.name, name, j.key, j.identity, j.claim, Downloaded)
  {
  }

  lemma PodFinishes(op: Instance, s: State, name: string, id: nat)
    requires OwnJob(op, s.c, name) && s.c.jobs[name].claim in s.c.volumes && id in s.c.pods
    requires var j := s.c.jobs[name]; s.c.pods[id] == Warming(op.name, name, j.key, j.identity, j.claim, Downloaded)
    ensures var s' := Step(op, Step(op, s, World(WarmPodWorks(id))), World(JobSucceeds(name, id)));
            var j := s.c.jobs[name];
            && s' == s.(c := s.c.(pods := s'.c.pods, volumes := s'.c.volumes, jobs := s'.c.jobs))
            && s'.c.volumes.Keys == s.c.volumes.Keys
            && s'.c.jobs == s.c.jobs[name := j.(succeeded := j.succeeded + 1)]
  {
  }

  /** Released and served by what the spec asks for, and nothing left to write. */
  ghost predicate Done(op: Instance, c: Store, spec: Spec) {
    && Current(c).Some? && Current(c).value.spec == spec
    && c.deployment.Some? && !c.deployment.value.paused
    && c.deployment.value.template == TemplateOf(op, spec) && c.deployment.value.replicas == spec.replicas
    && exists state :: Settled(op, c, BLIND, state)
  }

  lemma LastPass(op: Instance, c: Store, spec: Spec)
    requires Startable(op, c, spec)
    requires spec.cache.Some? ==> JobName(op, spec) in c.jobs && c.jobs[JobName(op, spec)].succeeded > 0
    ensures Done(op, SyncPass(op, c, FreshPass(c), BLIND).store, spec)
  {
    var p := FreshPass(c);
    SyncCompletes(op, c, p, BLIND);
    FirstPassSettles(op, c, p, BLIND, 0);
    if spec.cache.Some? {
      CacheStateOfPass(op, c, p, BLIND);
    }
  }

  lemma StillStartable(op: Instance, c: Store, c': Store, spec: Spec)
    requires Startable(op, c, spec) && c'.versions == c.versions && WellNamed(c'.jobs)
    requires c'.jobs.Keys == c.jobs.Keys && c'.volumes.Keys == c.volumes.Keys
    requires forall n | n in c.jobs :: c'.jobs[n].instance == c.jobs[n].instance && c'.jobs[n].claim == c.jobs[n].claim
    ensures Startable(op, c', spec)
  {
  }

  lemma FirstPassRuns(op: Instance, s: State, spec: Spec) returns (acts: seq<Action>)
    requires AtRest(s) && Startable(op, s.c, spec) && spec.cache.Some?
    ensures NoUser(acts)
    ensures var s' := Exec(op, s, acts); AtRest(s') && Startable(op, s'.c, spec) && OwnJob(op, s'.c, JobName(op, spec))
  {
    acts := PassRun(op, s, BLIND);
    BlindStore(op, s.c, spec);
    JobByName(op, Exec(op, s, acts).c, spec);
  }

  lemma WarmsUp(op: Instance, s: State, spec: Spec) returns (acts: seq<Action>)
    requires AtRest(s) && Startable(op, s.c, spec) && spec.cache.Some?
    ensures NoUser(acts)
    ensures var s' := Exec(op, s, acts);
            && AtRest(s') && Startable(op, s'.c, spec)
            && JobName(op, spec) in s'.c.jobs && s'.c.jobs[JobName(op, spec)].succeeded > 0
  {
    var first := FirstPassRuns(op, s, spec);
    var s1 := Exec(op, s, first);
    var run := JobRuns(op, s1, JobName(op, spec));
    StillStartable(op, s1.c, Exec(op, s1, run).c, spec);
    ExecConcat(op, s, first, run);
    acts := first + run;
  }

  lemma GetsReleased(op: Instance, s: State, spec: Spec) returns (acts: seq<Action>)
    requires AtRest(s) && Startable(op, s.c, spec)
    ensures NoUser(acts) && Done(op, Exec(op, s, acts).c, spec)
  {
    var warm: seq<Action> := [];
    if spec.cache.Some? {
      warm := WarmsUp(op, s, spec);
    }
    var s1 := Exec(op, s, warm);
    var last := PassRun(op, s1, BLIND);
    LastPass(op, s1.c, spec);
    ExecConcat(op, s, warm, last);
    acts := warm + last;
  }

  /** From every reachable state in which the object is live and can have its claim, the model can be
      released and settled without anybody's help. */
  lemma CanRelease(op: Instance, s: State, acts: seq<Action>) returns (more: seq<Action>)
    requires Initial(op, s)
    requires var c := Exec(op, s, acts).c;
             && Current(c).Some? && !Current(c).value.deleting
             && var spec := Current(c).value.spec;
                spec.cache.None? || Claim(op, spec) in c.volumes || OwnsClaim(spec)
    ensures NoUser(more)
    ensures Done(op, Exec(op, s, acts + more).c, Current(Exec(op, s, acts).c).value.spec)
  {
    ExecKeeps(op, s, acts);
    var s0 := Exec(op, s, acts);
    ExecOne(op, s0, Fail);
    var finalizer := GetsFinalizer(op, s0.(w := Idle));
    var s1 := Exec(op, s0.(w := Idle), finalizer);
    var rest := GetsReleased(op, s1, Current(s0.c).value.spec);
    more := [Fail] + finalizer + rest;
    ExecConcat(op, s0, [Fail], finalizer);
    ExecConcat(op, s0, [Fail] + finalizer, rest);
    ExecConcat(op, s, acts, more);
  }
}
