/** The one disagreement between status and gate, as a run: a Job that succeeds and is then reported as
    failed. */
module MixedJob {
  import opened Api
  import opened StatusModel
  import opened Cluster
  import opened Reconcile
  import opened PassLaws
  import opened Protocol
  import opened RolloutGate
  import opened PassRuns

  /** Released to serve, and reported as neither cached nor in order. */
  ghost predicate Contradicts(c: Store) {
    && Current(c).Some? && c.deployment.Some? && !c.deployment.value.paused
    && var conditions := Current(c).value.status.conditions;
       var cached, degraded := Find(conditions, WEIGHTS_CACHED), Find(conditions, DEGRADED);
       && cached.Some? && !cached.value.status
       && degraded.Some? && degraded.value.status
  }

  lemma MixedPass(op: Instance, c: Store, a: Spec)
    requires Current(c).Some? && Current(c).value.spec == a && a.cache.Some?
    requires Current(c).value.finalizer && !Current(c).value.deleting && Claim(op, a) in c.volumes
    requires JobName(op, a) in c.jobs && c.jobs[JobName(op, a)].succeeded > 0 && JobFailed(c.jobs[JobName(op, a)])
    ensures Contradicts(SyncPass(op, c, FreshPass(c), BLIND).store)
  {
    var p := FreshPass(c);
    SyncCompletes(op, c, p, BLIND);
    StoredStatusMatchesGate(op, c, p, BLIND);
    StatusOfPass(op, c, p, BLIND, DEGRADED);
    CacheStateOfPass(op, c, p, BLIND);
    KindsDistinct();
  }

  /** The Job's failure arrives after its success. */
  lemma FailsLate(op: Instance, s: State, a: Spec, b: Spec)
    requires Warmed(op, s, a, b)
    ensures var s' := Step(op, s, World(JobFails(JobName(op, a))));
            && s' == s.(c := s.c.(jobs := s'.c.jobs)) && JobName(op, a) in s'.c.jobs
            && s'.c.jobs[JobName(op, a)].succeeded > 0 && JobFailed(s'.c.jobs[JobName(op, a)])
  {
    var name := JobName(op, a);
    var s' := Step(op, s, World(JobFails(name)));
    assert s'.c.jobs[name].conditions == [JobCondition("Failed", true)];
    assert FindJobCondition([JobCondition("Failed", true)], "Failed") == Some(JobCondition("Failed", true));
  }

  lemma FailsThenReconciled(op: Instance, s: State, a: Spec, b: Spec) returns (acts: seq<Action>)
    requires a.cache.Some? && Warmed(op, s, a, b)
    ensures NoUser(acts) && Contradicts(Exec(op, s, acts).c)
  {
    var fail := World(JobFails(JobName(op, a)));
    FailsLate(op, s, a, b);
    ExecOne(op, s, fail);
    var failed := Step(op, s, fail);
    var pass := PassRun(op, failed, BLIND);
    MixedPass(op, failed.c, a);
    ExecConcat(op, s, [fail], pass);
    acts := [fail] + pass;
  }

  /** For every spec with a cache, a run from nothing to the contradiction. */
  lemma SucceededAndFailed(op: Instance, a: Spec) returns (acts: seq<Action>)
    requires a.cache.Some?
    ensures Initial(op, EMPTY) && AllAllowed({a}, acts) && Contradicts(Exec(op, EMPTY, acts).c)
  {
    var b := a.(cache := Some(WeightCache(Claim(op, a) + "-2")));
    assert |Claim(op, b)| == |Claim(op, a)| + 2;
    var start := WarmStart(op, a, b);
    var rest := FailsThenReconciled(op, Exec(op, EMPTY, start), a, b);
    ExecConcat(op, EMPTY, start, rest);
    acts := start + rest;
  }
}
