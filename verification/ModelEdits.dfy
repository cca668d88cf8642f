/** Two stories the operator is for, in every run: a model that is edited waits for its own weights, and a
    download that fails is reported. */
module ModelEdits {
  import opened Api
  import opened Render
  import opened StatusModel
  import opened Cluster
  import opened Reconcile
  import opened PassLaws
  import opened PassReport
  import opened Protocol
  import RolloutGate

  /** Held back, with the download of this model under way. */
  ghost predicate Waits(op: Instance, c: Store, id: Identity) {
    && c.deployment.Some? && c.deployment.value.paused && c.deployment.value.template.identity == id
    && exists n :: n in c.jobs && c.jobs[n].instance == op.name && c.jobs[n].identity == id && c.jobs[n].succeeded == 0
  }

  lemma PassWaits(op: Instance, specs: set<Spec>, c: Store, p: Pass, sig: Signals)
    requires Fresh(c, p) && p.md.spec.cache.Some? && SyncPass(op, c, p, sig).done.Some?
    requires RolloutGate.JobsOk(op, specs, c.volumes, c.jobs)
    requires forall n | n in c.jobs && c.jobs[n].instance == op.name ::
               Fingerprint(op.sha, c.jobs[n].identity) != Fingerprint(op.sha, p.md.spec.identity)
    ensures Waits(op, SyncPass(op, c, p, sig).store, p.md.spec.identity)
  {
    assert forall n | n in c.jobs && c.jobs[n].instance == op.name ::
             RolloutGate.JobOk(op, specs, c.volumes, c.jobs[n]);
    NewModelIsHeld(op, c, p, sig);
  }

  /** After any run: the user changes the spec to a model whose fingerprint no Job of the instance has. The
      next pass that completes holds the rollout back and starts the download of that very model. */
  lemma EditedModelWaits(op: Instance, specs: set<Spec>, s: State, acts: seq<Action>, b: Spec, sig: Signals)
    requires Initial(op, s) && RolloutGate.ClaimConsistent(op, specs) && RolloutGate.AllAllowed(specs, acts)
    requires var c := Exec(op, s, acts).c;
             && Current(c).Some? && Current(c).value.finalizer && !Current(c).value.deleting
             && Current(c).value.spec != b && b.cache.Some?
             && forall n | n in c.jobs && c.jobs[n].instance == op.name ::
                  Fingerprint(op.sha, c.jobs[n].identity) != Fingerprint(op.sha, b.identity)
    ensures var edited := UserStep(Exec(op, s, acts).c, Edit(b));
            && Current(edited).Some?
            && var out := SyncPass(op, edited, FreshPass(edited), sig);
               out.done.Some? ==> Waits(op, out.store, b.identity)
  {
    RolloutGate.ExecKeeps(op, specs, s, acts);
    var c := Exec(op, s, acts).c;
    var edited := UserStep(c, Edit(b));
    assert edited.jobs == c.jobs && edited.volumes == c.volumes && Fresh(edited, FreshPass(edited));
    if SyncPass(op, edited, FreshPass(edited), sig).done.Some? {
      PassWaits(op, specs, edited, FreshPass(edited), sig);
    }
  }

  /** A failure appended to any other conditions is found. */
  lemma FailureIsFound(job: Job)
    requires forall i | 0 <= i < |job.conditions| :: job.conditions[i].kind != "Failed"
    ensures JobFailed(job.(conditions := job.conditions + [JobCondition("Failed", true)]))
  {
    var failed := job.(conditions := job.conditions + [JobCondition("Failed", true)]);
    JobFailedByIndex(failed);
    assert failed.conditions[|job.conditions|] == JobCondition("Failed", true);
  }

  /** Both conditions report the failure. */
  ghost predicate Reports(c: Store) {
    && Current(c).Some?
    && var conditions := Current(c).value.status.conditions;
       var cached, degraded := Find(conditions, "WeightsCached"), Find(conditions, "Degraded");
       && cached.Some? && !cached.value.status && cached.value.reason == "WarmJobFailed"
       && degraded.Some? && degraded.value.status && degraded.value.reason == "WarmJobFailed"
  }

  lemma StoredFailure(op: Instance, c: Store, p: Pass, sig: Signals)
    requires Fresh(c, p) && SyncPass(op, c, p, sig).done.Some? && FoundFailed(op, c, p.md.spec)
    ensures Reports(SyncPass(op, c, p, sig).store)
  {
    StoredCached(op, c, p, sig);
    StoredVerdict(op, c, p, sig, DEGRADED);
    FoundByPass(op, c, p, sig);
    KindsDistinct();
  }

  /** The Job of the current model fails, after whatever else it reported: the next pass that completes
      stores the failure in both conditions. */
  lemma FailureIsReported(op: Instance, c: Store, spec: Spec, sig: Signals)
    requires Current(c).Some? && Current(c).value.finalizer && !Current(c).value.deleting
    requires Current(c).value.spec == spec && spec.cache.Some? && OwnJob(op, c, JobName(op, spec))
    requires var cs := c.jobs[JobName(op, spec)].conditions; forall i | 0 <= i < |cs| :: cs[i].kind != "Failed"
    ensures var c1 := WorldStep(op, c, JobFails(JobName(op, spec)));
            && Current(c1).Some?
            && var out := SyncPass(op, c1, FreshPass(c1), sig);
               out.done.Some? ==> Reports(out.store)
  {
    var c1 := WorldStep(op, c, JobFails(JobName(op, spec)));
    FailureIsFound(c.jobs[JobName(op, spec)]);
    assert c1.versions == c.versions && FoundFailed(op, c1, spec) && Fresh(c1, FreshPass(c1));
    if SyncPass(op, c1, FreshPass(c1), sig).done.Some? {
      StoredFailure(op, c1, FreshPass(c1), sig);
    }
  }
}
