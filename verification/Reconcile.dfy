/** One pass of the operator, first as single API calls with the local variables between them, then
    as the result of an undisturbed pass. */
module Reconcile {
  import opened Api
  import opened Render
  import opened StatusModel
  import opened Cluster

  /** The next call of sync. */
  datatype Phase =
    | EnsuringClaim | ReadingJob | CreatingJob | ListingStale | Pruning | Deciding | WritingSpec
    | ApplyingDeployment | ApplyingService | ReconcilingPdb | Observing | WritingStatus

  /** The next call of finalize. */
  datatype Teardown = DeletingDeployment | DeletingJobs | ListingPods | Releasing

  /** The local variables of sync: the object as read (and updated by its own writes), its
      resourceVersion, and what the pass has learned so far. */
  datatype Pass = Pass(
    md: Md, rv: nat, cache: CacheState, stale: set<string>, decision: ReplicaDecision, workload: Workload)

  datatype Worker =
    | Idle
    | AddingFinalizer(md: Md, rv: nat)
    | Syncing(at: Phase, pass: Pass)
    | Synced(pass: Pass)
    | Finalizing(step: Teardown, md: Md, rv: nat)

  const NO_CACHE := CacheState(false, false, false)

  function NewPass(md: Md, rv: nat): Pass {
    Pass(md, rv, NO_CACHE, {}, ReplicaDecision(md.spec.replicas, false, md.status.observedQueueDepth, None),
         Workload(0, 0, false))
  }

  /** Reconcile's dispatch on the object it read. */
  function Begin(md: Option<Md>, rv: nat): Worker {
    if md.None? then Idle
    else if md.value.deleting then
      if md.value.finalizer then Finalizing(DeletingDeployment, md.value, rv) else Idle
    else if !md.value.finalizer then AddingFinalizer(md.value, rv)
    else Syncing(EnsuringClaim, NewPass(md.value, rv))
  }

  predicate Paused(p: Pass) { p.md.spec.cache.Some? && !p.cache.warm }

  function ObservedBy(op: Instance, p: Pass): Observed {
    Observed(p.md.generation, p.md.spec.replicas, SelectorLabels(op.name), Key(op, p.md.spec),
             p.cache, p.workload, Paused(p),
             p.decision.queueDepth, p.decision.lastScale, p.decision.scaleErr)
  }

  function NextStatus(op: Instance, p: Pass, wall: int): Status {
    BuildStatus(p.md.status, ObservedBy(op, p), wall)
  }

  // -------------------------------------------------------------- small steps

  /** One API call of sync. Jobs, claims and the Deployment are read from the cache `v`, writes go to the
      store `c`. `pick` is the stale Job deleted next. A failed call ends the pass. */
  function SyncStep(
    op: Instance, c: Store, v: Store, at: Phase, p: Pass, sig: Signals, pick: string): (Store, Worker)
  {
    match at
    case EnsuringClaim =>
      if p.md.spec.cache.None? then (c, Syncing(Deciding, p.(cache := NO_CACHE)))
      else
        var claimed := EnsureClaimFrom(op, c, v, p.md.spec);
        if claimed.None? then (c, Idle) else (claimed.value, Syncing(ReadingJob, p))
    case ReadingJob =>
      var name := JobName(op, p.md.spec);
      if name in v.jobs then (c, Syncing(ListingStale, p.(cache := CacheOf(v.jobs[name]))))
      else (c, Syncing(CreatingJob, p))
    case CreatingJob =>
      (CreateJob(op, c, p.md.spec), Syncing(ListingStale, p.(cache := CacheState(true, false, false))))
    case ListingStale =>
      (c, Syncing(Pruning, p.(stale := StaleJobs(op, v, Key(op, p.md.spec)))))
    case Pruning =>
      if p.stale == {} then (c, Syncing(Deciding, p))
      else if pick in p.stale then (DeleteJobs(c, {pick}), Syncing(Pruning, p.(stale := p.stale - {pick})))
      else (c, Syncing(Pruning, p))
    case Deciding =>
      (c, Syncing(WritingSpec, p.(decision := DecideReplicas(p.md, p.cache.warm, sig))))
    case WritingSpec =>
      if p.decision.replicas == p.md.spec.replicas then (c, Syncing(ApplyingDeployment, p))
      else if !IsLatest(c, p.rv) then (c, Idle)
      else
        var md := WithReplicas(p.md, p.decision.replicas);
        (PutMd(c, Some(md)), Syncing(ApplyingDeployment, p.(md := md, rv := |c.versions|)))
    case ApplyingDeployment =>
      (ApplyDeployment(op, c, p.md.spec, p.decision.replicas, Paused(p)), Syncing(ApplyingService, p))
    case ApplyingService =>
      (ApplyService(c), Syncing(ReconcilingPdb, p))
    case ReconcilingPdb =>
      (ReconcilePdb(c, p.md.spec, p.decision.replicas), Syncing(Observing, p))
    case Observing =>
      (c, Syncing(WritingStatus, p.(workload := Observe(v))))
    case WritingStatus =>
      var next := NextStatus(op, p, sig.wall);
      if next == p.md.status then (c, Synced(p))
      else if !IsLatest(c, p.rv) then (c, Idle)
      else (PutMd(c, Some(p.md.(status := next))), Synced(p))
  }

  function WithReplicas(md: Md, replicas: Count): Md {
    md.(spec := md.spec.(replicas := replicas), generation := md.generation + 1)
  }

  /** One API call of finalize; only the pods are listed from the cache. */
  function FinalizeStep(op: Instance, c: Store, v: Store, step: Teardown, md: Md, rv: nat): (Store, Worker) {
    match step
    case DeletingDeployment => (DeleteDeployment(c), Finalizing(DeletingJobs, md, rv))
    case DeletingJobs => (DeleteJobs(c, OwnJobs(op, c)), Finalizing(ListingPods, md, rv))
    case ListingPods => if OwnPods(op, v) != {} then (c, Idle) else (c, Finalizing(Releasing, md, rv))
    case Releasing => (if IsLatest(c, rv) then ReleaseFinalizer(c, md) else c, Idle)
  }

  function WorkerStep(op: Instance, c: Store, v: Store, w: Worker, sig: Signals, pick: string): (Store, Worker) {
    match w
    case Idle => (c, w)
    case Synced(_) => (c, w)
    case AddingFinalizer(md, rv) =>
      (if IsLatest(c, rv) then PutMd(c, Some(md.(finalizer := true))) else c, Idle)
    case Syncing(at, p) => SyncStep(op, c, v, at, p, sig, pick)
    case Finalizing(step, md, rv) => FinalizeStep(op, c, v, step, md, rv)
  }

  /** What a call of sync does to the version list and to the object it holds. */
  ghost predicate Shape(op: Instance, c: Store, at: Phase, p: Pass, sig: Signals, c': Store, w': Worker) {
    match at
    case WritingSpec =>
      if p.decision.replicas == p.md.spec.replicas then c' == c && w' == Syncing(ApplyingDeployment, p)
      else if !IsLatest(c, p.rv) then c' == c && w' == Idle
      else
        var md := WithReplicas(p.md, p.decision.replicas);
        c' == PutMd(c, Some(md)) && w' == Syncing(ApplyingDeployment, p.(md := md, rv := |c.versions|))
    case WritingStatus =>
      || (c' == c && (w' == Idle || w' == Synced(p)))
      || (IsLatest(c, p.rv) && c' == PutMd(c, Some(p.md.(status := NextStatus(op, p, sig.wall)))) && w' == Synced(p))
    case _ =>
      && c'.versions == c.versions
      && (w' == Idle || (w'.Syncing? && w'.pass.md == p.md && w'.pass.rv == p.rv && w'.at != EnsuringClaim
                         && (w'.at == WritingSpec <==> at == Deciding)
                         && (at == Deciding ==>
                               w'.pass == p.(decision := DecideReplicas(p.md, p.cache.warm, sig)))
                         && (Late(w'.at) ==> Late(at) && w'.pass.decision == p.decision)))
  }

  /** The phases after the spec write. */
  predicate Late(at: Phase) {
    at in {ApplyingDeployment, ApplyingService, ReconcilingPdb, Observing, WritingStatus}
  }

  lemma SyncShape(op: Instance, c: Store, v: Store, at: Phase, p: Pass, sig: Signals, pick: string)
    ensures var (c', w') := SyncStep(op, c, v, at, p, sig, pick); Shape(op, c, at, p, sig, c', w')
  {
  }

  // --------------------------------------------------------- undisturbed pass

  /** `done` is None when a call failed. */
  datatype Outcome = Outcome(store: Store, done: Option<Pass>)

  /** reconcileWeightCache as a whole. */
  function CachePass(op: Instance, c: Store, spec: Spec): Option<(Store, CacheState)> {
    if spec.cache.None? then Some((c, NO_CACHE))
    else
      var claimed := EnsureClaim(op, c, spec);
      if claimed.None? then None
      else
        var name := JobName(op, spec);
        var known := name in claimed.value.jobs;
        var state := if known then CacheOf(claimed.value.jobs[name]) else CacheState(true, false, false);
        var created := if known then claimed.value else CreateJob(op, claimed.value, spec);
        Some((DeleteJobs(created, StaleJobs(op, created, Key(op, spec))), state))
  }

  function RecordPass(op: Instance, c: Store, p: Pass, sig: Signals): Outcome {
    var next := NextStatus(op, p, sig.wall);
    if next == p.md.status then Outcome(c, Some(p))
    else if !IsLatest(c, p.rv) then Outcome(c, None)
    else Outcome(PutMd(c, Some(p.md.(status := next))), Some(p))
  }

  function StatusPass(op: Instance, c: Store, p: Pass, sig: Signals): Outcome {
    RecordPass(op, c, p.(workload := Observe(c)), sig)
  }

  function ApplyAll(op: Instance, c: Store, p: Pass): Store {
    ReconcilePdb(ApplyService(ApplyDeployment(op, c, p.md.spec, p.decision.replicas, Paused(p))),
                 p.md.spec, p.decision.replicas)
  }

  function ApplyPass(op: Instance, c: Store, p: Pass, sig: Signals): Outcome {
    StatusPass(op, ApplyAll(op, c, p), p, sig)
  }

  /** The spec write, if the decision needs one; None is a lost race. */
  function WriteSpec(c: Store, p: Pass): Option<(Store, Pass)> {
    if p.decision.replicas == p.md.spec.replicas then Some((c, p))
    else if !IsLatest(c, p.rv) then None
    else
      var md := WithReplicas(p.md, p.decision.replicas);
      Some((PutMd(c, Some(md)), p.(md := md, rv := |c.versions|)))
  }

  function WritePass(op: Instance, c: Store, p: Pass, sig: Signals): Outcome {
    var written := WriteSpec(c, p);
    if written.None? then Outcome(c, None) else ApplyPass(op, written.value.0, written.value.1, sig)
  }

  function DecidePass(op: Instance, c: Store, p: Pass, sig: Signals): Outcome {
    WritePass(op, c, p.(decision := DecideReplicas(p.md, p.cache.warm, sig)), sig)
  }

  function PrunePass(op: Instance, c: Store, p: Pass, sig: Signals): Outcome {
    DecidePass(op, DeleteJobs(c, StaleJobs(op, c, Key(op, p.md.spec))), p, sig)
  }

  /** sync as a whole. */
  function SyncPass(op: Instance, c: Store, p: Pass, sig: Signals): Outcome {
    var cached := CachePass(op, c, p.md.spec);
    if cached.None? then Outcome(c, None)
    else DecidePass(op, cached.value.0, p.(cache := cached.value.1), sig)
  }

  /** What is left of a pass from any point on, if nobody interferes. */
  function Finish(op: Instance, c: Store, w: Worker, sig: Signals): Outcome {
    match w
    case Syncing(at, p) =>
      var q := p.(stale := {});
      var cold := q.(cache := CacheState(true, false, false));
      (match at
       case EnsuringClaim => SyncPass(op, c, q, sig)
       case ReadingJob =>
         var name := JobName(op, p.md.spec);
         if name in c.jobs then PrunePass(op, c, q.(cache := CacheOf(c.jobs[name])), sig)
         else PrunePass(op, CreateJob(op, c, p.md.spec), cold, sig)
       case CreatingJob => PrunePass(op, CreateJob(op, c, p.md.spec), cold, sig)
       case ListingStale => PrunePass(op, c, q, sig)
       case Pruning => DecidePass(op, DeleteJobs(c, p.stale), q, sig)
       case Deciding => DecidePass(op, c, q, sig)
       case WritingSpec => WritePass(op, c, q, sig)
       case ApplyingDeployment => ApplyPass(op, c, q, sig)
       case ApplyingService =>
         StatusPass(op, ReconcilePdb(ApplyService(c), p.md.spec, p.decision.replicas), q, sig)
       case ReconcilingPdb => StatusPass(op, ReconcilePdb(c, p.md.spec, p.decision.replicas), q, sig)
       case Observing => StatusPass(op, c, q, sig)
       case WritingStatus => RecordPass(op, c, q, sig))
    case Synced(p) => Outcome(c, Some(p.(stale := {})))
    case _ => Outcome(c, None)
  }

  /** An undisturbed finalize. */
  function FinalizePass(op: Instance, c: Store, md: Md, rv: nat): Store {
    var c1 := FinalizeStep(op, c, c, DeletingDeployment, md, rv).0;
    var c2 := FinalizeStep(op, c1, c1, DeletingJobs, md, rv).0;
    var (c3, w) := FinalizeStep(op, c2, c2, ListingPods, md, rv);
    if w == Idle then c3 else FinalizeStep(op, c3, c3, Releasing, md, rv).0
  }

  /** An undisturbed Reconcile over the version its cache holds, which need not be the latest. */
  function ReconcilePass(op: Instance, c: Store, seen: nat, sig: Signals): Store
    requires seen < |c.versions|
  {
    if c.versions[seen].None? then c
    else
      var md := c.versions[seen].value;
      if md.deleting then if md.finalizer then FinalizePass(op, c, md, seen) else c
      else if !md.finalizer then if IsLatest(c, seen) then PutMd(c, Some(md.(finalizer := true))) else c
      else SyncPass(op, c, NewPass(md, seen), sig).store
  }

  /** It is what the worker does from its dispatch on. */
  lemma ReconcilePassIsWorker(op: Instance, c: Store, seen: nat, sig: Signals, pick: string)
    requires seen < |c.versions|
    ensures var w := Begin(c.versions[seen], seen);
            match w
            case Syncing(at, p) =>
              && at == EnsuringClaim && c.versions[seen] == Some(p.md) && p == NewPass(p.md, seen)
              && ReconcilePass(op, c, seen, sig) == SyncPass(op, c, p, sig).store == Finish(op, c, w, sig).store
            case Finalizing(step, md, rv) =>
              step == DeletingDeployment && ReconcilePass(op, c, seen, sig) == FinalizePass(op, c, md, rv)
            case AddingFinalizer(_, _) => ReconcilePass(op, c, seen, sig) == WorkerStep(op, c, c, w, sig, pick).0
            case _ => w == Idle && ReconcilePass(op, c, seen, sig) == c
  {
  }

  // --------------------------------------------------------------- refinement

  lemma RemoveOneMore<K, V>(m: map<K, V>, names: set<K>, pick: K)
    requires pick in names
    ensures (m - {pick}) - (names - {pick}) == m - names
  {
    assert ((m - {pick}) - (names - {pick})).Keys == (m - names).Keys;
  }

  lemma DeleteOneMore(c: Store, names: set<string>, pick: string)
    requires pick in names
    ensures DeleteJobs(DeleteJobs(c, {pick}), names - {pick}) == DeleteJobs(c, names)
  {
    RemoveOneMore(c.jobs, names, pick);
  }

  lemma DeleteNone(c: Store)
    ensures DeleteJobs(c, {}) == c
  {
    assert c.jobs - {} == c.jobs;
  }

  lemma ClaimStepKeepsFinish(op: Instance, c: Store, p: Pass, sig: Signals, pick: string)
    ensures var (c', w') := SyncStep(op, c, c, EnsuringClaim, p, sig, pick);
            Finish(op, c', w', sig) == Finish(op, c, Syncing(EnsuringClaim, p), sig)
  {
  }

  lemma JobStepKeepsFinish(op: Instance, c: Store, at: Phase, p: Pass, sig: Signals, pick: string)
    requires at in {ReadingJob, CreatingJob, ListingStale}
    ensures var (c', w') := SyncStep(op, c, c, at, p, sig, pick);
            Finish(op, c', w', sig) == Finish(op, c, Syncing(at, p), sig)
  {
  }

  lemma PruneStepKeepsFinish(op: Instance, c: Store, p: Pass, sig: Signals, pick: string)
    ensures var (c', w') := SyncStep(op, c, c, Pruning, p, sig, pick);
            Finish(op, c', w', sig) == Finish(op, c, Syncing(Pruning, p), sig)
  {
    if p.stale == {} {
      DeleteNone(c);
    } else if pick in p.stale {
      DeleteOneMore(c, p.stale, pick);
    }
  }

  lemma WriteStepKeepsFinish(op: Instance, c: Store, at: Phase, p: Pass, sig: Signals, pick: string)
    requires at == Deciding || at == WritingSpec
    ensures var (c', w') := SyncStep(op, c, c, at, p, sig, pick);
            Finish(op, c', w', sig) == Finish(op, c, Syncing(at, p), sig)
  {
  }

  lemma ApplyStepKeepsFinish(op: Instance, c: Store, at: Phase, p: Pass, sig: Signals, pick: string)
    requires at in {ApplyingDeployment, ApplyingService, ReconcilingPdb}
    ensures var (c', w') := SyncStep(op, c, c, at, p, sig, pick);
            Finish(op, c', w', sig) == Finish(op, c, Syncing(at, p), sig)
  {
  }

  lemma ReportStepKeepsFinish(op: Instance, c: Store, at: Phase, p: Pass, sig: Signals, pick: string)
    requires at in {Observing, WritingStatus}
    ensures var (c', w') := SyncStep(op, c, c, at, p, sig, pick);
            Finish(op, c', w', sig) == Finish(op, c, Syncing(at, p), sig)
  {
  }

  /** Each call leaves the result of the pass as it was. */
  lemma StepKeepsFinish(op: Instance, c: Store, at: Phase, p: Pass, sig: Signals, pick: string)
    ensures var (c', w') := SyncStep(op, c, c, at, p, sig, pick);
            Finish(op, c', w', sig) == Finish(op, c, Syncing(at, p), sig)
  {
    match at
    case EnsuringClaim => ClaimStepKeepsFinish(op, c, p, sig, pick);
    case Pruning => PruneStepKeepsFinish(op, c, p, sig, pick);
    case Deciding => WriteStepKeepsFinish(op, c, at, p, sig, pick);
    case WritingSpec => WriteStepKeepsFinish(op, c, at, p, sig, pick);
    case Observing => ReportStepKeepsFinish(op, c, at, p, sig, pick);
    case WritingStatus => ReportStepKeepsFinish(op, c, at, p, sig, pick);
    case ReadingJob => JobStepKeepsFinish(op, c, at, p, sig, pick);
    case CreatingJob => JobStepKeepsFinish(op, c, at, p, sig, pick);
    case ListingStale => JobStepKeepsFinish(op, c, at, p, sig, pick);
    case _ => ApplyStepKeepsFinish(op, c, at, p, sig, pick);
  }

  /** Successive calls of one pass; each stale Job may be deleted in any order. */
  function Drive(op: Instance, c: Store, w: Worker, sig: Signals, picks: seq<string>): (Store, Worker)
    decreases |picks|
  {
    if picks == [] || !w.Syncing? then (c, w)
    else
      var (c', w') := WorkerStep(op, c, c, w, sig, picks[0]);
      Drive(op, c', w', sig, picks[1..])
  }

  /** The calls of an undisturbed pass compute exactly the sequential result, whatever order the
      prune loop takes. */
  lemma {:induction false} DriveComputesSync(op: Instance, c: Store, w: Worker, sig: Signals, picks: seq<string>)
    requires w.Syncing?
    ensures var (c', w') := Drive(op, c, w, sig, picks);
            !w'.Syncing? ==>
              && c' == Finish(op, c, w, sig).store
              && (w'.Synced? <==> Finish(op, c, w, sig).done.Some?)
              && (w'.Synced? ==> w'.pass.(stale := {}) == Finish(op, c, w, sig).done.value)
    decreases |picks|
  {
    if picks != [] {
      StepKeepsFinish(op, c, w.at, w.pass, sig, picks[0]);
      var (c', w') := WorkerStep(op, c, c, w, sig, picks[0]);
      if w'.Syncing? {
        DriveComputesSync(op, c', w', sig, picks[1..]);
      }
    }
  }
}
