/** What a completed pass leaves in the store, field by field, in the terms of the spec, the reading and what
    was there before. */
module PassReport {
  import opened Api
  import opened Render
  import opened StatusModel
  import opened Cluster
  import opened Reconcile
  import opened PassLaws
  import Queue
  import DecisionLaw

  // --------------------------------------------------------------------- status

  lemma SelectorIsExact(name: string, pod: Pod)
    ensures Selects(SelectorLabels(name), pod.Labels()) <==> pod.Serving? && pod.instance == name
  {
    SelectorSeparation(name, pod.instance, if pod.Warming? then pod.key else "");
  }

  /** What is reported of a Deployment, applied by a pass, is what its controller reported before. */
  predicate ReportOf(w: Workload, before: Option<Deployment>) {
    && w.present
    && w.replicas == (if before.Some? then before.value.observedReplicas else 0)
    && w.readyReplicas == (if before.Some? then before.value.readyReplicas else 0)
  }

  lemma ApplyReports(op: Instance, c: Store, p: Pass, sig: Signals)
    ensures var out := ApplyPass(op, c, p, sig); out.done.Some? ==> ReportOf(out.done.value.workload, c.deployment)
  {
  }

  lemma WriteReports(op: Instance, c: Store, p: Pass, sig: Signals)
    ensures var out := WritePass(op, c, p, sig); out.done.Some? ==> ReportOf(out.done.value.workload, c.deployment)
  {
    var written := WriteSpec(c, p);
    if written.Some? {
      ApplyReports(op, written.value.0, written.value.1, sig);
    }
  }

  lemma ReportedSurvives(op: Instance, c: Store, p: Pass, sig: Signals)
    requires SyncPass(op, c, p, sig).done.Some?
    ensures ReportOf(SyncPass(op, c, p, sig).done.value.workload, c.deployment)
  {
    var (cached, state) := CachePass(op, c, p.md.spec).value;
    assert cached.deployment == c.deployment;
    WriteReports(op, cached, p.(cache := state, decision := DecideReplicas(p.md, state.warm, sig)), sig);
  }

  /** The stored status: the numbers its controller reports of the Deployment, the key of the stored spec, a
      selector for exactly the instance's serving pods, and the time of a change if there was one. */
  lemma StoredStatusFields(op: Instance, c: Store, p: Pass, sig: Signals)
    requires Fresh(c, p) && SyncPass(op, c, p, sig).done.Some?
    ensures var after := SyncPass(op, c, p, sig).store;
            && Current(after).Some?
            && var md := Current(after).value;
               && md.status.replicas == (if c.deployment.Some? then c.deployment.value.observedReplicas else 0)
               && md.status.readyReplicas == (if c.deployment.Some? then c.deployment.value.readyReplicas else 0)
               && HexText(md.status.cacheKey) && |md.status.cacheKey| == 12
               && Unhex(md.status.cacheKey) == Fingerprint(op.sha, md.spec.identity)
               && (forall pod: Pod :: Selects(md.status.selector, pod.Labels()) <==> pod.Serving? && pod.instance == op.name)
               && md.status.observedGeneration == md.generation
               && md.status.lastScaleSecond == if md.spec.replicas != p.md.spec.replicas
                                               then Some(sig.now / 1_000_000_000) else p.md.status.lastScaleSecond
  {
    SyncCompletes(op, c, p, sig);
    ReportedSurvives(op, c, p, sig);
    KeyReadsBack(op.sha, p.md.spec.identity);
    TimeOfDecision(p.md, SyncPass(op, c, p, sig).done.value.cache.warm, sig);
    forall pod: Pod
      ensures Selects(SelectorLabels(op.name), pod.Labels()) <==> pod.Serving? && pod.instance == op.name
    {
      SelectorIsExact(op.name, pod);
    }
  }

  lemma TimeOfDecision(md: Md, warm: bool, sig: Signals)
    ensures var d := DecideReplicas(md, warm, sig);
            d.lastScale == if d.replicas != md.spec.replicas then Some(sig.now / 1_000_000_000) else None
  {
  }

  /** The Job of the current key, as the pass finds it, reports a failure. */
  predicate FoundFailed(op: Instance, c: Store, spec: Spec) {
    spec.cache.Some? && JobName(op, spec) in c.jobs && JobFailed(c.jobs[JobName(op, spec)])
  }

  predicate FoundWarm(op: Instance, c: Store, spec: Spec) {
    spec.cache.Some? && JobName(op, spec) in c.jobs && c.jobs[JobName(op, spec)].succeeded > 0
  }

  lemma FoundByPass(op: Instance, c: Store, p: Pass, sig: Signals)
    requires Fresh(c, p) && SyncPass(op, c, p, sig).done.Some?
    ensures SyncPass(op, c, p, sig).done.value.cache
         == CacheState(p.md.spec.cache.Some?, FoundWarm(op, c, p.md.spec), FoundFailed(op, c, p.md.spec))
  {
    SyncCompletes(op, c, p, sig);
    if p.md.spec.cache.Some? {
      CacheStateOfPass(op, c, p, sig);
    }
  }

  lemma StoredVerdict(op: Instance, c: Store, p: Pass, sig: Signals, kind: string)
    requires Fresh(c, p) && SyncPass(op, c, p, sig).done.Some? && Reported(kind)
    ensures var after, q := SyncPass(op, c, p, sig).store, SyncPass(op, c, p, sig).done.value;
            && Current(after).Some?
            && var cond := Find(Current(after).value.status.conditions, kind);
               && cond.Some? && cond.value.kind == kind
               && Verdict(cond.value.status, cond.value.reason) == VerdictOf(ObservedBy(op, q), kind)
  {
    SyncCompletes(op, c, p, sig);
    var q := SyncPass(op, c, p, sig).done.value;
    BuildConditions(q.md.status, ObservedBy(op, q), sig.wall, kind);
  }

  /** Degraded and the depth, from the Job and the reading. */
  lemma StoredReading(op: Instance, c: Store, p: Pass, sig: Signals, total: int, wraps: int)
    requires Fresh(c, p) && SyncPass(op, c, p, sig).done.Some?
    requires sig.read.Ok? ==> Queue.WholeRequests(sig.read.value) == total + wraps * 0x1_0000_0000_0000_0000
    requires -0x8000_0000_0000_0000 <= total < 0x8000_0000_0000_0000
    ensures var after := SyncPass(op, c, p, sig).store;
            var failed := FoundFailed(op, c, p.md.spec);
            var unread := p.md.spec.autoscaling.Some? && (sig.read.Err? || total < 0);
            && Current(after).Some?
            && var status := Current(after).value.status;
               var degraded := Find(status.conditions, "Degraded");
               && degraded.Some? && (degraded.value.status <==> failed || unread)
               && degraded.value.reason == (if failed then "WarmJobFailed" else if unread then "QueueMetricUnavailable" else "AsExpected")
               && status.observedQueueDepth == if p.md.spec.autoscaling.Some? && !unread then Min(total, 0x7FFF_FFFF)
                                               else p.md.status.observedQueueDepth
  {
    StoredVerdict(op, c, p, sig, DEGRADED);
    FoundByPass(op, c, p, sig);
    SyncCompletes(op, c, p, sig);
    DecisionLaw.DecisionError(p.md, SyncPass(op, c, p, sig).done.value.cache.warm, sig, total, wraps);
    KindsDistinct();
  }

  /** WeightsCached, from the Job alone. */
  lemma StoredCached(op: Instance, c: Store, p: Pass, sig: Signals)
    requires Fresh(c, p) && SyncPass(op, c, p, sig).done.Some?
    ensures var after := SyncPass(op, c, p, sig).store;
            && Current(after).Some?
            && var cached := Find(Current(after).value.status.conditions, "WeightsCached");
               && cached.Some?
               && (cached.value.status <==> FoundWarm(op, c, p.md.spec) && !FoundFailed(op, c, p.md.spec))
               && cached.value.reason == (if p.md.spec.cache.None? then "CacheDisabled"
                                          else if FoundFailed(op, c, p.md.spec) then "WarmJobFailed"
                                          else if FoundWarm(op, c, p.md.spec) then "Cached" else "Warming")
  {
    StoredVerdict(op, c, p, sig, WEIGHTS_CACHED);
    FoundByPass(op, c, p, sig);
  }

  /** Ready, from the Job, the count and what the Deployment's controller reports. */
  lemma StoredReady(op: Instance, c: Store, p: Pass, sig: Signals)
    requires Fresh(c, p) && SyncPass(op, c, p, sig).done.Some?
    ensures var after := SyncPass(op, c, p, sig).store;
            && Current(after).Some?
            && var md := Current(after).value;
               var ready := Find(md.status.conditions, "Ready");
               var held := md.spec.cache.Some? && !FoundWarm(op, c, p.md.spec);
               var serving := if c.deployment.Some? then c.deployment.value.readyReplicas else 0;
               && ready.Some?
               && (ready.value.status <==> md.spec.replicas > 0 && !held && serving >= md.spec.replicas)
               && ready.value.reason == (if md.spec.replicas == 0 then "ScaledToZero" else if held then "WaitingForWeights"
                                         else if serving >= md.spec.replicas then "ReplicasReady" else "ReplicasUnavailable")
  {
    StoredVerdict(op, c, p, sig, READY);
    FoundByPass(op, c, p, sig);
    ReportedSurvives(op, c, p, sig);
    SyncCompletes(op, c, p, sig);
    KindsDistinct();
  }

  // ------------------------------------------------------------- claim and model

  /** The claim a spec with a cache uses: the one the user names, or the instance's own. */
  function ClaimOf(name: string, cache: WeightCache): string {
    if cache.existingClaimName != "" then cache.existingClaimName else name + "-weights"
  }

  /** A pass needs the claim the user names to exist; it creates only its own. Template and Job name that
      claim, this model, and the fingerprint of this model. */
  lemma PassUsesClaim(op: Instance, c: Store, p: Pass, sig: Signals, cache: WeightCache)
    requires Fresh(c, p) && p.md.spec.cache == Some(cache) && WellNamed(c.jobs)
    ensures var out := SyncPass(op, c, p, sig);
            var x, id := cache.existingClaimName, p.md.spec.identity;
            var name := op.name + "-warm-" + CacheKey(op.sha, id);
            && (out.done.Some? <==> x == "" || x in c.volumes)
            && (out.done.Some? ==>
                  && ClaimOf(op.name, cache) in out.store.volumes
                  && out.store.deployment.Some?
                  && var t := out.store.deployment.value.template;
                     && t.claim == Some(ClaimOf(op.name, cache)) && t.identity == id
                     && HexText(t.key) && Unhex(t.key) == Fingerprint(op.sha, id)
                     && name in out.store.jobs
                     && (name !in c.jobs ==>
                           out.store.jobs[name] == Job(op.name, t.key, id, ClaimOf(op.name, cache), 0, [])))
  {
    NamesAsDocumented(op.name, p.md.spec, op.name, p.md.spec, "");
    SyncCompletes(op, c, p, sig);
    KeyReadsBack(op.sha, p.md.spec.identity);
    assert JobName(op, p.md.spec) == op.name + "-warm-" + CacheKey(op.sha, p.md.spec.identity);
    if SyncPass(op, c, p, sig).done.Some? {
      RotatesWarmJobs(op, c, p.md.spec);
      NewJob(op, c, p.md.spec);
    }
  }

  lemma NewJob(op: Instance, c: Store, spec: Spec)
    requires spec.cache.Some? && WellNamed(c.jobs) && CachePass(op, c, spec).Some?
    ensures var jobs := CachePass(op, c, spec).value.0.jobs;
            && JobName(op, spec) in jobs
            && (JobName(op, spec) !in c.jobs ==>
                  jobs[JobName(op, spec)] == Job(op.name, Key(op, spec), spec.identity, Claim(op, spec), 0, []))
  {
    var claimed := EnsureClaim(op, c, spec).value;
    PruneLaw(op, CreateJob(op, claimed, spec), spec);
  }

  /** Without a cache there is no Job to wait for, and nothing is mounted. */
  lemma PassWithoutCache(op: Instance, c: Store, p: Pass, sig: Signals)
    requires Fresh(c, p) && p.md.spec.cache.None?
    ensures var out := SyncPass(op, c, p, sig);
            && out.done.Some? && out.store.jobs == c.jobs && out.store.volumes == c.volumes
            && out.store.deployment.Some? && !out.store.deployment.value.paused
            && out.store.deployment.value.template.claim.None?
            && out.store.deployment.value.template.identity == p.md.spec.identity
  {
    SyncCompletes(op, c, p, sig);
  }

  /** A model whose fingerprint no Job of the instance has is held back: its own Job is created and the
      Deployment is paused. */
  lemma NewModelIsHeld(op: Instance, c: Store, p: Pass, sig: Signals)
    requires Fresh(c, p) && p.md.spec.cache.Some? && SyncPass(op, c, p, sig).done.Some? && WellNamed(c.jobs)
    requires forall n | n in c.jobs && c.jobs[n].instance == op.name ::
               && c.jobs[n].key == CacheKey(op.sha, c.jobs[n].identity)
               && Fingerprint(op.sha, c.jobs[n].identity) != Fingerprint(op.sha, p.md.spec.identity)
    ensures var after := SyncPass(op, c, p, sig).store;
            && after.deployment.Some? && after.deployment.value.paused
            && after.deployment.value.template.identity == p.md.spec.identity
            && exists n :: n in after.jobs && after.jobs[n].instance == op.name
                           && after.jobs[n].identity == p.md.spec.identity && after.jobs[n].succeeded == 0
  {
    var name := JobName(op, p.md.spec);
    if name in c.jobs {
      JobByName(op, c, p.md.spec);
      SameKeyIff(op.sha, c.jobs[name].identity, p.md.spec.identity);
      assert false;
    }
    PassUsesClaim(op, c, p, sig, p.md.spec.cache.value);
    FoundByPass(op, c, p, sig);
    HeldPassNeverGrows(op, c, p, sig);
  }
}
