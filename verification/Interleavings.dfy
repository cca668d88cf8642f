/** What else every interleaving keeps: markers, other instances' objects, and the result of a pass that
    completed while everybody else was busy. */
module Interleavings {
  import opened Api
  import opened Render
  import opened Cluster
  import opened Reconcile
  import opened Protocol
  import RolloutGate

  // ------------------------------------------------------------------ markers

  lemma StepGrows(op: Instance, s: State, a: Action)
    ensures Grown(s.c.volumes, Step(op, s, a).c.volumes)
  {
    match a
    case Work(sig, pick) => WorkGrows(op, s, sig, pick);
    case Others(_, _, _) =>
    case Wake =>
    case Fail =>
    case Deliver(_) =>
    case Catch(_) =>
    case User(u) => UserFrame(s.c, u);
    case World(e) => WorldGrows(op, s.c, e);
  }

  lemma UserFrame(c: Store, u: UserAction)
    ensures UserStep(c, u) == c.(versions := UserStep(c, u).versions)
  {
  }

  lemma WorldGrows(op: Instance, c: Store, a: WorldAction)
    ensures Grown(c.volumes, WorldStep(op, c, a).volumes)
  {
  }

  lemma WorkGrows(op: Instance, s: State, sig: Signals, pick: string)
    ensures Grown(s.c.volumes, WorkerStep(op, s.c, s.v, s.w, sig, pick).0.volumes)
  {
    if s.w.Syncing? && s.w.at != EnsuringClaim {
      assert SyncStep(op, s.c, s.v, s.w.at, s.w.pass, sig, pick).0.volumes == s.c.volumes;
    }
  }

  /** Over any run nothing ever leaves a volume: pruned Jobs and finished teardowns leave the weights
      and markers of every key behind. */
  lemma {:induction false} MarkersOnlyGrow(op: Instance, s: State, acts: seq<Action>)
    ensures Grown(s.c.volumes, Exec(op, s, acts).c.volumes)
    decreases |acts|
  {
    if acts != [] {
      StepGrows(op, s, acts[0]);
      MarkersOnlyGrow(op, Step(op, s, acts[0]), acts[1..]);
    }
  }

  // ------------------------------------------------------------- pass results

  ghost predicate OwnName(op: Instance, n: string) {
    exists k :: |k| == KEY_LENGTH && n == WarmJobName(op.name, k)
  }

  lemma OwnNameIsOwn(op: Instance, jobs: map<string, Job>, n: string)
    requires WellNamed(jobs) && n in jobs
    ensures OwnName(op, n) <==> jobs[n].instance == op.name
  {
    if OwnName(op, n) {
      var k :| |k| == KEY_LENGTH && n == WarmJobName(op.name, k);
      WarmJobNameInjective(jobs[n].instance, jobs[n].key, op.name, k);
    }
  }

  /** This instance's Jobs are among these names. */
  ghost predicate OwnJobsAmong(op: Instance, jobs: map<string, Job>, names: set<string>) {
    forall n | n in jobs && jobs[n].instance == op.name :: n in names
  }

  /** The Deployment as the pass rendered it, apart from what its controller reports. */
  ghost predicate Rendered(op: Instance, c: Store, p: Pass) {
    && c.deployment.Some?
    && c.deployment.value.template == TemplateOf(op, p.md.spec)
    && c.deployment.value.replicas == p.md.spec.replicas
    && (c.deployment.value.paused <==> Paused(p))
  }

  predicate Applied(at: Phase) { at in {ApplyingService, ReconcilingPdb, Observing, WritingStatus} }

  predicate Budgeted(at: Phase) { at in {Observing, WritingStatus} }

  ghost predicate PassInv(op: Instance, c: Store, v: Store, w: Worker) {
    && WellNamed(c.jobs) && WellNamed(v.jobs)
    && match w
       case Syncing(at, p) =>
         && (forall n | n in p.stale :: OwnName(op, n))
         && (at in {ReadingJob, CreatingJob, ListingStale, Pruning} ==> p.md.spec.cache.Some?)
         && (Late(at) ==> p.decision.replicas == p.md.spec.replicas)
         && (Applied(at) ==> Rendered(op, c, p))
         && (Budgeted(at) ==> c.pdb == PDBMinAvailable(p.md.spec.minAvailable, p.md.spec.replicas))
       case Synced(p) => Completed(op, c, p)
       case _ => true
  }

  /** What a pass has achieved when it ends, no matter who else was active and how far its caches were
      behind: Deployment, pause and budget from one replica number. */
  ghost predicate Completed(op: Instance, c: Store, p: Pass) {
    && p.decision.replicas == p.md.spec.replicas
    && Rendered(op, c, p)
    && c.pdb == PDBMinAvailable(p.md.spec.minAvailable, p.md.spec.replicas)
  }

  /** Anything that leaves the operator's own fields alone. */
  lemma PassFrame(op: Instance, c: Store, v: Store, w: Worker, c': Store)
    requires PassInv(op, c, v, w) && WellNamed(c'.jobs) && c'.pdb == c.pdb
    requires c'.deployment.Some? == c.deployment.Some?
    requires c'.deployment.Some? ==>
               && c'.deployment.value.template == c.deployment.value.template
               && c'.deployment.value.replicas == c.deployment.value.replicas
               && c'.deployment.value.paused == c.deployment.value.paused
    ensures PassInv(op, c', v, w)
  {
  }

  lemma ListKeeps(op: Instance, c: Store, v: Store, at: Phase, p: Pass, sig: Signals, pick: string)
    requires PassInv(op, c, v, Syncing(at, p)) && at in {ReadingJob, CreatingJob, ListingStale}
    ensures var (c', w') := SyncStep(op, c, v, at, p, sig, pick); PassInv(op, c', v, w')
  {
    OwnByInstance(op, v);
    forall n | n in v.jobs
      ensures OwnName(op, n) <==> v.jobs[n].instance == op.name
    {
      OwnNameIsOwn(op, v.jobs, n);
    }
  }

  lemma PruneKeeps(op: Instance, c: Store, v: Store, at: Phase, p: Pass, sig: Signals, pick: string)
    requires PassInv(op, c, v, Syncing(at, p)) && at in {EnsuringClaim, Pruning}
    ensures var (c', w') := SyncStep(op, c, v, at, p, sig, pick); PassInv(op, c', v, w')
  {
  }

  lemma DecideKeeps(op: Instance, c: Store, v: Store, at: Phase, p: Pass, sig: Signals, pick: string)
    requires PassInv(op, c, v, Syncing(at, p)) && at in {Deciding, WritingSpec}
    ensures var (c', w') := SyncStep(op, c, v, at, p, sig, pick); PassInv(op, c', v, w')
  {
  }

  lemma ApplyKeeps(op: Instance, c: Store, v: Store, at: Phase, p: Pass, sig: Signals, pick: string)
    requires PassInv(op, c, v, Syncing(at, p)) && at in {ApplyingDeployment, ApplyingService}
    ensures var (c', w') := SyncStep(op, c, v, at, p, sig, pick); PassInv(op, c', v, w')
  {
  }

  lemma BudgetKeeps(op: Instance, c: Store, v: Store, at: Phase, p: Pass, sig: Signals, pick: string)
    requires PassInv(op, c, v, Syncing(at, p)) && at in {ReconcilingPdb, Observing}
    ensures var (c', w') := SyncStep(op, c, v, at, p, sig, pick); PassInv(op, c', v, w')
  {
  }

  lemma StatusShape(op: Instance, c: Store, v: Store, p: Pass, sig: Signals, pick: string)
    ensures var (c', w') := SyncStep(op, c, v, WritingStatus, p, sig, pick);
            c' == c.(versions := c'.versions) && (w' == Idle || w' == Synced(p))
  {
  }

  lemma StatusKeeps(op: Instance, c: Store, v: Store, p: Pass, c': Store, w': Worker)
    requires PassInv(op, c, v, Syncing(WritingStatus, p))
    requires c' == c.(versions := c'.versions) && (w' == Idle || w' == Synced(p))
    ensures PassInv(op, c', v, w')
  {
  }

  lemma WorkKeeps(op: Instance, c: Store, v: Store, w: Worker, sig: Signals, pick: string)
    requires PassInv(op, c, v, w)
    ensures var (c', w') := WorkerStep(op, c, v, w, sig, pick); PassInv(op, c', v, w')
  {
    match w
    case Syncing(at, p) =>
      if at in {ReadingJob, CreatingJob, ListingStale} {
        ListKeeps(op, c, v, at, p, sig, pick);
      } else if at in {EnsuringClaim, Pruning} {
        PruneKeeps(op, c, v, at, p, sig, pick);
      } else if at in {Deciding, WritingSpec} {
        DecideKeeps(op, c, v, at, p, sig, pick);
      } else if at == WritingStatus {
        StatusShape(op, c, v, p, sig, pick);
        var (c', w') := SyncStep(op, c, v, at, p, sig, pick);
        StatusKeeps(op, c, v, p, c', w');
      } else if at in {ReconcilingPdb, Observing} {
        BudgetKeeps(op, c, v, at, p, sig, pick);
      } else {
        ApplyKeeps(op, c, v, at, p, sig, pick);
      }
    case _ =>
  }

  lemma WorldKeeps(op: Instance, c: Store, v: Store, w: Worker, e: WorldAction)
    requires PassInv(op, c, v, w)
    ensures PassInv(op, WorldStep(op, c, e), v, w)
  {
    WorldFrame(op, c, e);
    PassFrame(op, c, v, w, WorldStep(op, c, e));
  }

  /** Jobs, pods and controllers add no Job of this instance and leave the operator's fields alone. */
  lemma WorldFrame(op: Instance, c: Store, e: WorldAction)
    requires WellNamed(c.jobs)
    ensures var c' := WorldStep(op, c, e);
            && WellNamed(c'.jobs) && c'.pdb == c.pdb && c'.deployment.Some? == c.deployment.Some?
            && (c.deployment.Some? ==>
                  && c'.deployment.value.template == c.deployment.value.template
                  && c'.deployment.value.replicas == c.deployment.value.replicas
                  && c'.deployment.value.paused == c.deployment.value.paused)
            && (forall n | n in c'.jobs && c'.jobs[n].instance == op.name :: n in c.jobs && c.jobs[n].instance == op.name)
  {
    if e.JobSucceeds? || e.JobFails? || e.JobDeleted? {
      JobEventFrame(op, c, e);
    } else {
      OtherEventFrame(op, c, e);
    }
  }

  lemma JobEventFrame(op: Instance, c: Store, e: WorldAction)
    requires WellNamed(c.jobs) && (e.JobSucceeds? || e.JobFails? || e.JobDeleted?)
    ensures var c' := WorldStep(op, c, e);
            && WellNamed(c'.jobs) && c' == c.(jobs := c'.jobs)
            && (forall n | n in c'.jobs && c'.jobs[n].instance == op.name :: n in c.jobs && c.jobs[n].instance == op.name)
  {
  }

  lemma OtherEventFrame(op: Instance, c: Store, e: WorldAction)
    requires !e.JobSucceeds? && !e.JobFails? && !e.JobDeleted?
    ensures var c' := WorldStep(op, c, e);
            && c'.jobs == c.jobs && c'.pdb == c.pdb && c'.deployment.Some? == c.deployment.Some?
            && (c.deployment.Some? ==>
                  && c'.deployment.value.template == c.deployment.value.template
                  && c'.deployment.value.replicas == c.deployment.value.replicas
                  && c'.deployment.value.paused == c.deployment.value.paused)
  {
  }

  lemma StepKeeps(op: Instance, s: State, a: Action)
    requires PassInv(op, s.c, s.v, s.w)
    ensures var s' := Step(op, s, a); PassInv(op, s'.c, s'.v, s'.w)
  {
    match a
    case Work(sig, pick) => WorkKeeps(op, s.c, s.v, s.w, sig, pick);
    case Others(jobs, volumes, pods) =>
      if OthersOk(op, s.c, jobs, volumes, pods) {
        PassFrame(op, s.c, s.v, s.w, s.c.(jobs := jobs, volumes := volumes, pods := pods));
      }
    case User(u) =>
      UserFrame(s.c, u);
      PassFrame(op, s.c, s.v, s.w, UserStep(s.c, u));
    case World(e) => WorldKeeps(op, s.c, s.v, s.w, e);
    case _ =>
  }

  lemma {:induction false} ExecKeeps(op: Instance, s: State, acts: seq<Action>)
    requires PassInv(op, s.c, s.v, s.w)
    ensures var s' := Exec(op, s, acts); PassInv(op, s'.c, s'.v, s'.w)
    decreases |acts|
  {
    if acts != [] {
      StepKeeps(op, s, acts[0]);
      ExecKeeps(op, Step(op, s, acts[0]), acts[1..]);
    }
  }

  /** Every pass that completes, in every run, ends with one replica number. */
  lemma CompletedPasses(op: Instance, s: State, acts: seq<Action>)
    requires Initial(op, s) && Exec(op, s, acts).w.Synced?
    ensures Completed(op, Exec(op, s, acts).c, Exec(op, s, acts).w.pass)
  {
    ExecKeeps(op, s, acts);
  }

  // ----------------------------------------------------------------- rotation

  /** This instance's Jobs other than the current one are still to be deleted by the pass. */
  ghost predicate Rotating(op: Instance, c: Store, w: Worker) {
    match w
    case Syncing(at, p) =>
      p.md.spec.cache.Some? && at !in {EnsuringClaim, ReadingJob, CreatingJob, ListingStale} ==>
        OwnJobsAmong(op, c.jobs, (if at == Pruning then p.stale else {}) + {JobName(op, p.md.spec)})
    case Synced(p) => p.md.spec.cache.Some? ==> OwnJobsAmong(op, c.jobs, {JobName(op, p.md.spec)})
    case _ => true
  }

  /** If this action lists stale Jobs, the cache misses none of them. */
  ghost predicate FullList(op: Instance, s: State, a: Action) {
    a.Work? && s.w.Syncing? && s.w.at == ListingStale ==>
      forall n | n in s.c.jobs && s.c.jobs[n].instance == op.name ::
        n in s.v.jobs || n == JobName(op, s.w.pass.md.spec)
  }

  ghost predicate FullLists(op: Instance, s: State, acts: seq<Action>)
    decreases |acts|
  {
    acts != [] ==> FullList(op, s, acts[0]) && FullLists(op, Step(op, s, acts[0]), acts[1..])
  }

  lemma StaleName(op: Instance, c: Store, v: Store, spec: Spec, n: string)
    requires WellNamed(c.jobs) && WellNamed(v.jobs) && n in c.jobs && c.jobs[n].instance == op.name
    requires n in v.jobs && n != JobName(op, spec)
    ensures n in StaleJobs(op, v, Key(op, spec))
  {
    OwnByInstance(op, v);
    OwnNameIsOwn(op, c.jobs, n);
    OwnNameIsOwn(op, v.jobs, n);
  }

  lemma StaleCovers(op: Instance, c: Store, v: Store, spec: Spec)
    requires WellNamed(c.jobs) && WellNamed(v.jobs)
    ensures OwnJobsAmong(op, c.jobs, StaleJobs(op, v, Key(op, spec)) + {JobName(op, spec)})
            <==> forall n | n in c.jobs && c.jobs[n].instance == op.name :: n in v.jobs || n == JobName(op, spec)
  {
    forall n | n in c.jobs && c.jobs[n].instance == op.name && n in v.jobs && n != JobName(op, spec)
      ensures n in StaleJobs(op, v, Key(op, spec))
    {
      StaleName(op, c, v, spec, n);
    }
  }

  /** Listing covers every Job to delete exactly when the cache misses none. */
  lemma ListingCovers(op: Instance, s: State, sig: Signals, pick: string)
    requires PassInv(op, s.c, s.v, s.w) && s.w.Syncing? && s.w.at == ListingStale
    ensures Rotating(op, s.c, SyncStep(op, s.c, s.v, ListingStale, s.w.pass, sig, pick).1)
            <==> FullList(op, s, Work(sig, pick))
  {
    StaleCovers(op, s.c, s.v, s.w.pass.md.spec);
  }

  lemma RotatingWork(op: Instance, s: State, sig: Signals, pick: string)
    requires PassInv(op, s.c, s.v, s.w) && Rotating(op, s.c, s.w) && s.w.Syncing?
    requires FullList(op, s, Work(sig, pick))
    ensures var (c', w') := SyncStep(op, s.c, s.v, s.w.at, s.w.pass, sig, pick); Rotating(op, c', w')
  {
    var p := s.w.pass;
    if s.w.at == ListingStale {
      ListingCovers(op, s, sig, pick);
    } else if s.w.at == Pruning {
      RotatingPrune(op, s.c, s.v, p, sig, pick);
    } else if s.w.at != CreatingJob {
      SyncLeavesJobs(op, s.c, s.v, s.w.at, p, sig, pick);
      SyncKeepsName(op, s.c, s.v, s.w.at, p, sig, pick);
    }
  }

  lemma RotatingPrune(op: Instance, c: Store, v: Store, p: Pass, sig: Signals, pick: string)
    requires Rotating(op, c, Syncing(Pruning, p))
    ensures var (c', w') := SyncStep(op, c, v, Pruning, p, sig, pick); Rotating(op, c', w')
  {
    if p.stale == {} {
      assert p.stale + {JobName(op, p.md.spec)} == {} + {JobName(op, p.md.spec)};
    }
  }

  /** The phases that touch no Job keep the name of the current one. */
  lemma SyncKeepsName(op: Instance, c: Store, v: Store, at: Phase, p: Pass, sig: Signals, pick: string)
    requires at !in {CreatingJob, ListingStale, Pruning}
    ensures var w' := SyncStep(op, c, v, at, p, sig, pick).1;
            && (w'.Syncing? ==>
                  && JobName(op, w'.pass.md.spec) == JobName(op, p.md.spec)
                  && w'.pass.md.spec.cache == p.md.spec.cache
                  && w'.at !in {Pruning, EnsuringClaim}
                  && (at == EnsuringClaim ==> w'.at == ReadingJob || p.md.spec.cache.None?)
                  && (at == ReadingJob ==> w'.at in {CreatingJob, ListingStale}))
            && (w'.Synced? ==> at == WritingStatus && w'.pass == p)
  {
  }

  lemma RotatingStep(op: Instance, s: State, a: Action)
    requires PassInv(op, s.c, s.v, s.w) && Rotating(op, s.c, s.w) && FullList(op, s, a)
    ensures var s' := Step(op, s, a); Rotating(op, s'.c, s'.w)
  {
    match a
    case Work(sig, pick) =>
      if s.w.Syncing? {
        RotatingWork(op, s, sig, pick);
      }
    case World(e) => WorldFrame(op, s.c, e);
    case User(u) => UserFrame(s.c, u);
    case _ =>
  }

  lemma {:induction false} RotatingExec(op: Instance, s: State, acts: seq<Action>)
    requires PassInv(op, s.c, s.v, s.w) && Rotating(op, s.c, s.w) && FullLists(op, s, acts)
    ensures var s' := Exec(op, s, acts); Rotating(op, s'.c, s'.w)
    decreases |acts|
  {
    if acts != [] {
      StepKeeps(op, s, acts[0]);
      RotatingStep(op, s, acts[0]);
      RotatingExec(op, Step(op, s, acts[0]), acts[1..]);
    }
  }

  /** Every pass that completes in a run whose Job lists miss nothing leaves no Job of this instance but
      the one for its key. */
  lemma CompletedPassesRotate(op: Instance, s: State, acts: seq<Action>)
    requires Initial(op, s) && FullLists(op, s, acts) && Exec(op, s, acts).w.Synced?
    requires Exec(op, s, acts).w.pass.md.spec.cache.Some?
    ensures OwnJobs(op, Exec(op, s, acts).c) <= {JobName(op, Exec(op, s, acts).w.pass.md.spec)}
  {
    RotatingExec(op, s, acts);
    OwnByInstance(op, Exec(op, s, acts).c);
  }

  /** The worker creates Jobs and deletes them; one that exists, even if the cache does not show it yet, is
      never rewritten, so what it achieved is not forgotten. */
  lemma JobsAreNeverRewritten(op: Instance, s: State, sig: Signals, pick: string, n: string)
    requires n in s.c.jobs && n in Step(op, s, Work(sig, pick)).c.jobs
    ensures Step(op, s, Work(sig, pick)).c.jobs[n] == s.c.jobs[n]
  {
    if s.w.Syncing? && s.w.at != Pruning && s.w.at != CreatingJob {
      SyncLeavesJobs(op, s.c, s.v, s.w.at, s.w.pass, sig, pick);
    }
  }

  // ---------------------------------------------------------------- isolation

  /** This instance's own part of the store is all that changed. */
  ghost predicate OnlyOwn(op: Instance, c: Store, c': Store) {
    && (forall n | n in c.jobs && c.jobs[n].instance != op.name :: n in c'.jobs && c'.jobs[n] == c.jobs[n])
    && (forall n | n in c'.jobs && c'.jobs[n].instance != op.name :: n in c.jobs && c.jobs[n] == c'.jobs[n])
    && (forall i | i in c.pods && c.pods[i].instance != op.name :: i in c'.pods && c'.pods[i] == c.pods[i])
    && (forall i | i in c'.pods && c'.pods[i].instance != op.name :: i in c.pods && c.pods[i] == c'.pods[i])
  }

  lemma SyncLeavesJobs(op: Instance, c: Store, v: Store, at: Phase, p: Pass, sig: Signals, pick: string)
    requires at != Pruning && at != CreatingJob
    ensures SyncStep(op, c, v, at, p, sig, pick).0.jobs == c.jobs
    ensures SyncStep(op, c, v, at, p, sig, pick).0.pods == c.pods
  {
  }

  lemma PruneOnlyOwn(op: Instance, c: Store, pick: string)
    requires WellNamed(c.jobs) && OwnName(op, pick)
    ensures OnlyOwn(op, c, DeleteJobs(c, {pick}))
  {
    if pick in c.jobs {
      OwnNameIsOwn(op, c.jobs, pick);
    }
  }

  lemma CreateOnlyOwn(op: Instance, c: Store, spec: Spec)
    ensures OnlyOwn(op, c, CreateJob(op, c, spec))
  {
  }

  lemma SyncOnlyOwn(op: Instance, c: Store, v: Store, at: Phase, p: Pass, sig: Signals, pick: string)
    requires PassInv(op, c, v, Syncing(at, p))
    ensures OnlyOwn(op, c, SyncStep(op, c, v, at, p, sig, pick).0)
  {
    var c' := SyncStep(op, c, v, at, p, sig, pick).0;
    if at == Pruning {
      assert c' == if pick in p.stale then DeleteJobs(c, {pick}) else c;
      if pick in p.stale {
        PruneOnlyOwn(op, c, pick);
      }
    } else if at == CreatingJob {
      assert c' == CreateJob(op, c, p.md.spec);
      CreateOnlyOwn(op, c, p.md.spec);
    } else {
      SyncLeavesJobs(op, c, v, at, p, sig, pick);
    }
  }

  lemma WorkOnlyOwn(op: Instance, c: Store, v: Store, w: Worker, sig: Signals, pick: string)
    requires PassInv(op, c, v, w)
    ensures OnlyOwn(op, c, WorkerStep(op, c, v, w, sig, pick).0)
  {
    match w
    case Syncing(at, p) => SyncOnlyOwn(op, c, v, at, p, sig, pick);
    case Finalizing(step, md, rv) => FinalizeOnlyOwn(op, c, v, step, md, rv);
    case _ =>
  }

  lemma TeardownOnlyOwn(op: Instance, c: Store)
    ensures OnlyOwn(op, c, DeleteJobs(c, OwnJobs(op, c)))
  {
    OwnByInstance(op, c);
  }

  lemma FinalizeOnlyOwn(op: Instance, c: Store, v: Store, step: Teardown, md: Md, rv: nat)
    ensures OnlyOwn(op, c, FinalizeStep(op, c, v, step, md, rv).0)
  {
    if step == DeletingJobs {
      TeardownOnlyOwn(op, c);
    }
  }

  lemma WorldOnlyOwn(op: Instance, c: Store, e: WorldAction)
    ensures OnlyOwn(op, c, WorldStep(op, c, e))
  {
    if !e.JobSucceeds? && !e.JobFails? && !e.JobDeleted? {
      OtherEventFrame(op, c, e);
      PodsOnlyOwn(op, c, e);
    }
  }

  lemma PodsOnlyOwn(op: Instance, c: Store, e: WorldAction)
    ensures var pods := WorldStep(op, c, e).pods;
            && (forall i | i in c.pods && c.pods[i].instance != op.name :: i in pods && pods[i] == c.pods[i])
            && (forall i | i in pods && pods[i].instance != op.name :: i in c.pods && c.pods[i] == pods[i])
  {
  }

  lemma StepOnlyOwn(op: Instance, s: State, a: Action)
    requires PassInv(op, s.c, s.v, s.w) && !a.Others?
    ensures OnlyOwn(op, s.c, Step(op, s, a).c)
  {
    match a
    case Work(sig, pick) => WorkOnlyOwn(op, s.c, s.v, s.w, sig, pick);
    case User(u) => UserFrame(s.c, u);
    case World(e) => WorldOnlyOwn(op, s.c, e);
    case _ =>
  }

  /** What the other instances may assume of this one is what it assumes of them: every step of this
      instance's worker, Jobs and pods is an allowed `Others` step for any instance of another name. */
  lemma OthersMayRely(op: Instance, other: Instance, specs: set<Spec>, s: State, a: Action)
    requires op.sha == other.sha && op.name != other.name
    requires PassInv(op, s.c, s.v, s.w) && RolloutGate.Inv(op, specs, s)
    requires RolloutGate.ClaimConsistent(op, specs) && RolloutGate.Allowed(specs, a) && !a.Others?
    ensures OthersOk(other, s.c, Step(op, s, a).c.jobs, Step(op, s, a).c.volumes, Step(op, s, a).c.pods)
  {
    StepGrows(op, s, a);
    RolloutGate.StepKeeps(op, specs, s, a);
    StepOnlyOwn(op, s, a);
    RelyFromOwn(op, other, s.c, Step(op, s, a).c);
  }

  lemma RelyFromOwn(op: Instance, other: Instance, c: Store, c': Store)
    requires op.sha == other.sha && op.name != other.name && OnlyOwn(op, c, c')
    requires WellNamed(c'.jobs) && Grown(c.volumes, c'.volumes) && Honest(op.sha, c'.volumes)
    ensures OthersOk(other, c, c'.jobs, c'.volumes, c'.pods)
  {
  }
}
