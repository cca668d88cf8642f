/** What a pass nobody interferes with achieves, and that a second one achieves nothing more. */
module PassLaws {
  import opened Api
  import opened Render
  import opened StatusModel
  import opened Cluster
  import opened Reconcile
  import Queue
  import Scaling
  import ScalingRuns

  /** A pass that has just read the current object, which is live and holds the finalizer. */
  ghost predicate Fresh(c: Store, p: Pass) {
    && c.versions != [] && Current(c) == Some(p.md) && p.rv == |c.versions| - 1
    && p == NewPass(p.md, p.rv) && p.md.finalizer && !p.md.deleting
  }

  function FreshPass(c: Store): Pass
    requires Current(c).Some?
  {
    NewPass(Current(c).value, |c.versions| - 1)
  }

  // -------------------------------------------------------------- cache phase

  /** Pruning keeps the current Job and every Job of another instance, and no other own Job. */
  lemma PruneLaw(op: Instance, c: Store, spec: Spec)
    requires WellNamed(c.jobs) && JobName(op, spec) in c.jobs
    ensures var after := DeleteJobs(c, StaleJobs(op, c, Key(op, spec)));
            && (forall n :: n in after.jobs <==>
                  n in c.jobs && (c.jobs[n].instance == op.name ==> n == JobName(op, spec)))
            && OwnJobs(op, after) == {JobName(op, spec)}
            && WellNamed(after.jobs)
  {
    var after := DeleteJobs(c, StaleJobs(op, c, Key(op, spec)));
    JobByName(op, c, spec);
    OwnByInstance(op, c);
    OwnByInstance(op, after);
  }

  /** Rotation: afterwards this instance's warm Jobs are exactly the one for the current key, for any
      set of Jobs before; the Jobs of other instances and everything else stay as they were. */
  lemma RotatesWarmJobs(op: Instance, c: Store, spec: Spec)
    requires spec.cache.Some? && WellNamed(c.jobs) && CachePass(op, c, spec).Some?
    ensures var after := CachePass(op, c, spec).value.0;
            && WellNamed(after.jobs)
            && OwnJobs(op, after) == {JobName(op, spec)}
            && (forall n | n in c.jobs && c.jobs[n].instance != op.name :: n in after.jobs && after.jobs[n] == c.jobs[n])
            && (forall n | n in after.jobs && n != JobName(op, spec) :: n in c.jobs && after.jobs[n] == c.jobs[n])
            && (JobName(op, spec) in c.jobs ==> after.jobs[JobName(op, spec)] == c.jobs[JobName(op, spec)])
            && after == c.(jobs := after.jobs, volumes := after.volumes)
            && Claim(op, spec) in after.volumes
            && (forall v | v in c.volumes :: v in after.volumes && after.volumes[v] == c.volumes[v])
  {
    var claimed := EnsureClaim(op, c, spec).value;
    PruneLaw(op, CreateJob(op, claimed, spec), spec);
  }

  /** Two specs that differ only in their replica count share key, Job and claim. */
  lemma SameWorkload(op: Instance, spec: Spec, replicas: Count)
    ensures var other := spec.(replicas := replicas);
            && Key(op, other) == Key(op, spec) && JobName(op, other) == JobName(op, spec)
            && Claim(op, other) == Claim(op, spec) && TemplateOf(op, other) == TemplateOf(op, spec)
            && WarmJob(op, other) == WarmJob(op, spec)
  {
  }

  /** Nothing is left to do about the cache. */
  ghost predicate CacheSettled(op: Instance, c: Store, spec: Spec, state: CacheState) {
    if spec.cache.None? then state == NO_CACHE
    else
      && Claim(op, spec) in c.volumes
      && JobName(op, spec) in c.jobs && CacheOf(c.jobs[JobName(op, spec)]) == state
      && StaleJobs(op, c, Key(op, spec)) == {}
  }

  lemma CachePassSettles(op: Instance, c: Store, spec: Spec)
    requires WellNamed(c.jobs) && CachePass(op, c, spec).Some?
    ensures CacheSettled(op, CachePass(op, c, spec).value.0, spec, CachePass(op, c, spec).value.1)
  {
    if spec.cache.Some? {
      var (after, state) := CachePass(op, c, spec).value;
      RotatesWarmJobs(op, c, spec);
      OwnByInstance(op, after);
      assert JobName(op, spec) in OwnJobs(op, after);
      JobByName(op, after, spec);
      assert StaleJobs(op, after, Key(op, spec)) <= OwnJobs(op, after);
      if JobName(op, spec) !in c.jobs {
        assert after.jobs[JobName(op, spec)] == WarmJob(op, spec);
      }
    }
  }

  lemma SettledCachePass(op: Instance, c: Store, spec: Spec, state: CacheState)
    requires CacheSettled(op, c, spec, state)
    ensures CachePass(op, c, spec) == Some((c, state))
  {
    if spec.cache.Some? {
      DeleteNone(c);
    }
  }

  lemma SettledCarriesOver(op: Instance, c: Store, c': Store, spec: Spec, replicas: Count, state: CacheState)
    requires CacheSettled(op, c, spec, state) && c'.jobs == c.jobs && c'.volumes == c.volumes
    ensures CacheSettled(op, c', spec.(replicas := replicas), state)
  {
    SameWorkload(op, spec, replicas);
    assert StaleJobs(op, c', Key(op, spec)) == StaleJobs(op, c, Key(op, spec));
  }

  // ----------------------------------------------------------------- one pass

  /** The number and everything derived from it, in one place: the spec, the Deployment, the budget
      and the count Ready compares against agree; the template is the spec's; the Deployment is held
      exactly while the cache is cold. */
  ghost predicate Consistent(op: Instance, c: Store, q: Pass) {
    && q.decision.replicas == q.md.spec.replicas == ObservedBy(op, q).desired
    && c.deployment.Some?
    && c.deployment.value.replicas == q.md.spec.replicas
    && c.deployment.value.template == TemplateOf(op, q.md.spec)
    && (c.deployment.value.paused <==> Paused(q))
    && (!Paused(q) ==> c.deployment.value.template in c.rollouts)
    && c.service
    && c.pdb == PDBMinAvailable(q.md.spec.minAvailable, q.md.spec.replicas)
    && q.workload == Observe(c)
  }

  lemma ApplyAllLaw(op: Instance, c: Store, p: Pass)
    requires p.decision.replicas == p.md.spec.replicas
    ensures var after := ApplyAll(op, c, p);
            && Consistent(op, after, p.(workload := Observe(after)))
            && after.versions == c.versions && after.jobs == c.jobs && after.volumes == c.volumes
            && after.pods == c.pods && after.replicaSets == c.replicaSets
            && Observe(after).replicas == Observe(c).replicas
            && Observe(after).readyReplicas == Observe(c).readyReplicas
  {
  }

  lemma ApplyAllTwice(op: Instance, c: Store, p: Pass)
    requires Consistent(op, c, p)
    ensures ApplyDeployment(op, c, p.md.spec, p.decision.replicas, Paused(p)) == c
    ensures ApplyService(c) == c && ReconcilePdb(c, p.md.spec, p.decision.replicas) == c
  {
    assert c.rollouts + {TemplateOf(op, p.md.spec)} == c.rollouts || Paused(p);
  }

  /** The spec write of a pass that holds the latest version always succeeds. */
  lemma WriteSpecLaw(c: Store, p: Pass)
    requires IsLatest(c, p.rv) && Current(c) == Some(p.md)
    ensures var out := WriteSpec(c, p);
            && out.Some?
            && var (c', q) := out.value;
               && IsLatest(c', q.rv) && Current(c') == Some(q.md)
               && c' == c.(versions := c'.versions)
               && q.md.spec == p.md.spec.(replicas := p.decision.replicas)
               && q == p.(md := q.md, rv := q.rv)
               && q.md.status == p.md.status
               && (q.md.generation == p.md.generation <==> p.decision.replicas == p.md.spec.replicas)
               && (c' == c <==> p.decision.replicas == p.md.spec.replicas)
  {
  }

  lemma RecordPassLaw(op: Instance, c: Store, q: Pass, sig: Signals)
    requires IsLatest(c, q.rv) && Current(c) == Some(q.md)
    ensures var out := RecordPass(op, c, q, sig);
            && out.done == Some(q)
            && out.store == c.(versions := out.store.versions)
            && Current(out.store) == Some(q.md.(status := NextStatus(op, q, sig.wall)))
  {
  }

  /** What the applies and the status write leave behind. */
  ghost predicate Recorded(op: Instance, out: Outcome, c: Store, p: Pass, sig: Signals) {
    && out.done.Some?
    && var q := out.done.value;
       && q == p.(md := q.md, rv := q.rv, workload := q.workload)
       && q.md == p.md.(spec := p.md.spec.(replicas := p.decision.replicas), generation := q.md.generation)
       && Consistent(op, out.store, q)
       && Current(out.store) == Some(q.md.(status := NextStatus(op, q, sig.wall)))
       && out.store.jobs == c.jobs && out.store.volumes == c.volumes && out.store.pods == c.pods
  }

  lemma ApplyPassLaw(op: Instance, c: Store, p: Pass, sig: Signals)
    requires IsLatest(c, p.rv) && Current(c) == Some(p.md) && p.decision.replicas == p.md.spec.replicas
    ensures Recorded(op, ApplyPass(op, c, p, sig), c, p, sig)
  {
    ApplyAllLaw(op, c, p);
    var after := ApplyAll(op, c, p);
    RecordPassLaw(op, after, p.(workload := Observe(after)), sig);
  }

  /** A pass that holds the latest version completes. */
  lemma DecidePassLaw(op: Instance, c: Store, p: Pass, sig: Signals)
    requires IsLatest(c, p.rv) && Current(c) == Some(p.md)
    ensures Recorded(op, DecidePass(op, c, p, sig), c,
                     p.(decision := DecideReplicas(p.md, p.cache.warm, sig)), sig)
  {
    var p1 := p.(decision := DecideReplicas(p.md, p.cache.warm, sig));
    WriteSpecLaw(c, p1);
    var (c', q) := WriteSpec(c, p1).value;
    ApplyPassLaw(op, c', q, sig);
  }

  /** An undisturbed pass completes unless it needs a claim that neither exists nor is the operator's
      to create, and then it writes nothing at all. */
  lemma SyncCompletes(op: Instance, c: Store, p: Pass, sig: Signals)
    requires Fresh(c, p)
    ensures var out := SyncPass(op, c, p, sig);
            && (out.done.Some? <==>
                  p.md.spec.cache.None? || Claim(op, p.md.spec) in c.volumes || OwnsClaim(p.md.spec))
            && (out.done.None? ==> out.store == c)
            && (out.done.Some? ==>
                  var (cached, state) := CachePass(op, c, p.md.spec).value;
                  Recorded(op, out, cached,
                           p.(cache := state, decision := DecideReplicas(p.md, state.warm, sig)), sig))
  {
    var cached := CachePass(op, c, p.md.spec);
    if cached.Some? {
      DecidePassLaw(op, cached.value.0, p.(cache := cached.value.1), sig);
    }
  }

  /** What a pass adds to the version list: versions of the live object with the count it decided on. */
  ghost predicate Appended(before: seq<Option<Md>>, after: seq<Option<Md>>, md: Md, replicas: Count) {
    && |before| <= |after| && after[..|before|] == before
    && forall i | |before| <= i < |after| ::
         && after[i].Some? && after[i].value.finalizer == md.finalizer && after[i].value.deleting == md.deleting
         && after[i].value.spec == md.spec.(replicas := replicas)
  }

  lemma AppendsOne(before: seq<Option<Md>>, mid: seq<Option<Md>>, v: Md, md: Md, replicas: Count)
    requires Appended(before, mid, md, replicas)
    requires v.finalizer == md.finalizer && v.deleting == md.deleting && v.spec == md.spec.(replicas := replicas)
    ensures Appended(before, mid + [Some(v)], md, replicas)
  {
  }

  lemma ApplyAppends(op: Instance, c: Store, q: Pass, sig: Signals)
    ensures var after := ApplyPass(op, c, q, sig).store.versions;
            after == c.versions || after == c.versions + [Some(q.md.(status := after[|c.versions|].value.status))]
  {
  }

  lemma WriteAppends(c: Store, p: Pass)
    requires IsLatest(c, p.rv) && Current(c) == Some(p.md)
    ensures var (c', q) := WriteSpec(c, p).value;
            && Appended(c.versions, c'.versions, p.md, p.decision.replicas)
            && q.md.finalizer == p.md.finalizer && q.md.deleting == p.md.deleting
            && q.md.spec == p.md.spec.(replicas := p.decision.replicas)
  {
    if p.decision.replicas != p.md.spec.replicas {
      AppendsOne(c.versions, c.versions, WithReplicas(p.md, p.decision.replicas), p.md, p.decision.replicas);
    }
  }

  lemma DecideAppends(op: Instance, c: Store, p: Pass, sig: Signals)
    requires IsLatest(c, p.rv) && Current(c) == Some(p.md)
    ensures Appended(c.versions, DecidePass(op, c, p, sig).store.versions, p.md,
                     DecideReplicas(p.md, p.cache.warm, sig).replicas)
  {
    var decided := p.(decision := DecideReplicas(p.md, p.cache.warm, sig));
    WriteAppends(c, decided);
    WriteSpecLaw(c, decided);
    var (written, q) := WriteSpec(c, decided).value;
    ApplyAppends(op, written, q, sig);
    var after := ApplyPass(op, written, q, sig).store.versions;
    if after != written.versions {
      AppendsOne(c.versions, written.versions, after[|written.versions|].value, p.md, decided.decision.replicas);
    }
  }

  lemma SyncAppends(op: Instance, c: Store, p: Pass, sig: Signals)
    requires Fresh(c, p) && CachePass(op, c, p.md.spec).Some?
    ensures Appended(c.versions, SyncPass(op, c, p, sig).store.versions, p.md,
                     DecideReplicas(p.md, CachePass(op, c, p.md.spec).value.1.warm, sig).replicas)
  {
    var (cached, state) := CachePass(op, c, p.md.spec).value;
    DecideAppends(op, cached, p.(cache := state), sig);
  }

  /** One replica number after every completed pass, held when the metric cannot be read; and a budget
      exactly when it can be met. */
  lemma OneReplicaNumber(op: Instance, c: Store, p: Pass, sig: Signals)
    requires Fresh(c, p) && SyncPass(op, c, p, sig).done.Some?
    ensures var after := SyncPass(op, c, p, sig).store;
            && Current(after).Some? && after.deployment.Some?
            && var md := Current(after).value;
               && after.deployment.value.replicas == md.spec.replicas
               && after.deployment.value.template == TemplateOf(op, md.spec)
               && md.spec == p.md.spec.(replicas := md.spec.replicas)
               && (p.md.spec.autoscaling.None? || Queue.DepthOf(sig.read).Err? ==>
                     md.spec.replicas == p.md.spec.replicas)
               && (after.pdb.Some? <==> md.spec.replicas >= 2 && md.spec.minAvailable >= 1)
               && (after.pdb.Some? ==> 1 <= after.pdb.value < md.spec.replicas)
  {
    SyncCompletes(op, c, p, sig);
  }

  /** The stored conditions of a completed pass: one verdict per kind on what the pass saw, stamped with
      the generation after its own spec write; Ready means served and released. */
  lemma StatusOfPass(op: Instance, c: Store, p: Pass, sig: Signals, kind: string)
    requires Fresh(c, p) && Reported(kind) && SyncPass(op, c, p, sig).done.Some?
    ensures var after := SyncPass(op, c, p, sig).store;
            var q := SyncPass(op, c, p, sig).done.value;
            && FromSync(ObservedBy(op, q))
            && Current(after).Some? && after.deployment.Some?
            && var md := Current(after).value;
               var cond := Find(md.status.conditions, kind);
               && cond.Some?
               && cond.value.status == VerdictOf(ObservedBy(op, q), kind).status
               && cond.value.observedGeneration == md.generation == md.status.observedGeneration
               && (kind == READY && cond.value.status ==>
                     && md.spec.replicas > 0 && !after.deployment.value.paused
                     && after.deployment.value.readyReplicas >= md.spec.replicas
                     && (md.spec.cache.None? || q.cache.warm))
  {
    SyncCompletes(op, c, p, sig);
    var q := SyncPass(op, c, p, sig).done.value;
    BuildConditions(q.md.status, ObservedBy(op, q), sig.wall, kind);
    KindsDistinct();
  }

  /** The stored WeightsCached says that the rollout is released, except after exactly one finding: a Job
      that reports both a success and a failure. It releases, and counts as not cached. */
  lemma StoredStatusMatchesGate(op: Instance, c: Store, p: Pass, sig: Signals)
    requires Fresh(c, p) && p.md.spec.cache.Some? && SyncPass(op, c, p, sig).done.Some?
    ensures var after := SyncPass(op, c, p, sig).store;
            var name := JobName(op, p.md.spec);
            var both := name in c.jobs && c.jobs[name].succeeded > 0 && JobFailed(c.jobs[name]);
            && Current(after).Some? && after.deployment.Some?
            && var cached := Find(Current(after).value.status.conditions, WEIGHTS_CACHED);
               && cached.Some?
               && (cached.value.status == !after.deployment.value.paused <==> !both)
               && (both ==> !after.deployment.value.paused && !cached.value.status)
  {
    StatusOfPass(op, c, p, sig, WEIGHTS_CACHED);
    CacheStateOfPass(op, c, p, sig);
    HeldPassNeverGrows(op, c, p, sig);
  }

  lemma CacheStateOfPass(op: Instance, c: Store, p: Pass, sig: Signals)
    requires Fresh(c, p) && p.md.spec.cache.Some? && SyncPass(op, c, p, sig).done.Some?
    ensures SyncPass(op, c, p, sig).done.value.cache ==
            if JobName(op, p.md.spec) in c.jobs then CacheOf(c.jobs[JobName(op, p.md.spec)])
            else CacheState(true, false, false)
  {
    SyncCompletes(op, c, p, sig);
  }

  /** The pause is the exact negation of the permission to grow: a pass that leaves the Deployment held
      has not raised the count, whatever the queue or a raised floor asked for. */
  lemma HeldPassNeverGrows(op: Instance, c: Store, p: Pass, sig: Signals)
    requires Fresh(c, p) && SyncPass(op, c, p, sig).done.Some?
    ensures var out := SyncPass(op, c, p, sig);
            && out.store.deployment.Some?
            && (out.store.deployment.value.paused <==>
                  !(out.done.value.cache.warm || p.md.spec.cache.None?))
            && (out.store.deployment.value.paused ==>
                  out.store.deployment.value.replicas <= p.md.spec.replicas)
  {
    SyncCompletes(op, c, p, sig);
  }

  /** The numbers the scaling loop carries from pass to pass. */
  function LoopOf(md: Md): ScalingRuns.Loop {
    ScalingRuns.Loop(md.spec.replicas, LastScale(md.status))
  }

  /** A completed pass is one step of the timed scaling system, with its time recorded. */
  lemma SyncIsScalingPass(op: Instance, c: Store, p: Pass, sig: Signals)
    requires Fresh(c, p) && p.md.spec.autoscaling.Some? && SyncPass(op, c, p, sig).done.Some?
    ensures var out := SyncPass(op, c, p, sig);
            && Current(out.store).Some?
            && LoopOf(Current(out.store).value) == ScalingRuns.Pass(LoopOf(p.md), ScalingRuns.Observation(
                 PolicyOf(p.md.spec.autoscaling.value), Queue.DepthOf(sig.read),
                 !Paused(out.done.value), sig.now, true))
  {
    SyncCompletes(op, c, p, sig);
  }

  // -------------------------------------------------------------- second pass

  /** A decision on this object with this reading is one after which the next pass rests. */
  predicate RestsOn(md: Md, warm: bool, sig: Signals) {
    md.spec.autoscaling.Some? && Queue.DepthOf(sig.read).Ok? ==>
      Scaling.RestsAfter(PolicyOf(md.spec.autoscaling.value), Scaling.State(
        md.spec.replicas, Queue.DepthOf(sig.read).value, warm || md.spec.cache.None?,
        LastScale(md.status), sig.now))
  }

  /** The policies under which every decision is one. */
  predicate Calm(spec: Spec) {
    spec.autoscaling.Some? ==>
      var a := spec.autoscaling.value;
      a.minReplicas <= a.maxReplicas && a.scaleUpSeconds >= 1 && a.scaleDownSeconds >= 1
  }

  /** What a decision on the first state makes of the state for the second. */
  lemma SecondState(md: Md, after: Md, depth: int32, warm: bool, sig: Signals)
    requires md.spec.autoscaling.Some? && Queue.DepthOf(sig.read) == Ok(depth)
    requires var d := DecideReplicas(md, warm, sig);
             && after.spec == md.spec.(replicas := d.replicas)
             && after.status.lastScaleSecond == if d.lastScale.Some? then d.lastScale else md.status.lastScaleSecond
    ensures var p := PolicyOf(md.spec.autoscaling.value);
            var cached := warm || md.spec.cache.None?;
            var s := Scaling.State(md.spec.replicas, depth, cached, LastScale(md.status), sig.now);
            Scaling.After(p, s) == Scaling.State(after.spec.replicas, depth, cached, LastScale(after.status), sig.now)
  {
  }

  /** Deciding again at the same instant, on what the first decision left, moves nothing: exactly then. */
  lemma DecisionRests(md: Md, after: Md, warm: bool, sig: Signals, later: int)
    requires var d := DecideReplicas(md, warm, sig);
             && after.spec == md.spec.(replicas := d.replicas)
             && after.status.observedQueueDepth == d.queueDepth
             && after.status.lastScaleSecond == if d.lastScale.Some? then d.lastScale else md.status.lastScaleSecond
    ensures var first, second := DecideReplicas(md, warm, sig), DecideReplicas(after, warm, sig.(wall := later));
            && (RestsOn(md, warm, sig) ==> second == first.(lastScale := None))
            && (!RestsOn(md, warm, sig) ==> second.replicas != first.replicas)
    ensures Calm(md.spec) ==> RestsOn(md, warm, sig)
  {
    if md.spec.autoscaling.Some? && Queue.DepthOf(sig.read).Ok? {
      var depth := Queue.DepthOf(sig.read).value;
      SecondState(md, after, depth, warm, sig);
      Scaling.DecideTwice(PolicyOf(md.spec.autoscaling.value), Scaling.State(
        md.spec.replicas, depth, warm || md.spec.cache.None?, LastScale(md.status), sig.now));
    }
  }

  /** A store on which every call of a pass is a no-op. */
  ghost predicate Settled(op: Instance, c: Store, sig: Signals, state: CacheState) {
    && Current(c).Some?
    && var p := FreshPass(c);
       var d := DecideReplicas(p.md, state.warm, sig);
       var q := p.(cache := state, decision := d, workload := Observe(c));
       && CacheSettled(op, c, p.md.spec, state)
       && Consistent(op, c, q)
       && NextStatus(op, q, sig.wall) == p.md.status
  }

  lemma RecordedSettles(op: Instance, out: Outcome, c: Store, p: Pass, sig: Signals, later: int)
    requires RestsOn(p.md, p.cache.warm, sig) && p.decision == DecideReplicas(p.md, p.cache.warm, sig)
    requires p == NewPass(p.md, p.rv).(cache := p.cache, decision := p.decision)
    requires Recorded(op, out, c, p, sig) && CacheSettled(op, c, p.md.spec, p.cache)
    ensures Settled(op, out.store, sig.(wall := later), p.cache)
  {
    var q, md := out.done.value, Current(out.store).value;
    SettledCarriesOver(op, c, out.store, p.md.spec, q.decision.replicas, q.cache);
    DecisionRests(p.md, md, q.cache.warm, sig, later);
    BuildIdempotent(p.md.status, ObservedBy(op, q), sig.wall, later);
    SameWorkload(op, p.md.spec, q.decision.replicas);
  }

  lemma FirstPassSettles(op: Instance, c: Store, p: Pass, sig: Signals, later: int)
    requires Fresh(c, p) && WellNamed(c.jobs) && SyncPass(op, c, p, sig).done.Some?
    requires RestsOn(p.md, SyncPass(op, c, p, sig).done.value.cache.warm, sig)
    ensures Settled(op, SyncPass(op, c, p, sig).store, sig.(wall := later), SyncPass(op, c, p, sig).done.value.cache)
  {
    SyncCompletes(op, c, p, sig);
    CachePassSettles(op, c, p.md.spec);
    var (cached, state) := CachePass(op, c, p.md.spec).value;
    RecordedSettles(op, SyncPass(op, c, p, sig), cached,
                    p.(cache := state, decision := DecideReplicas(p.md, state.warm, sig)), sig, later);
  }

  lemma SettledPass(op: Instance, c: Store, sig: Signals, state: CacheState)
    requires Settled(op, c, sig, state)
    ensures SyncPass(op, c, FreshPass(c), sig).store == c
    ensures SyncPass(op, c, FreshPass(c), sig).done.Some?
  {
    var p := FreshPass(c);
    SettledCachePass(op, c, p.md.spec, state);
    var q := p.(cache := state, decision := DecideReplicas(p.md, state.warm, sig));
    ApplyAllTwice(op, c, q.(workload := Observe(c)));
    assert ApplyAll(op, c, q) == c;
    assert WriteSpec(c, q) == Some((c, q));
  }

  /** The local variables of a pass over a settled store, at every phase. */
  ghost predicate Resting(op: Instance, c: Store, w: Worker, sig: Signals, state: CacheState)
    requires Current(c).Some?
  {
    var p := FreshPass(c);
    var d := DecideReplicas(p.md, state.warm, sig);
    match w
    case Syncing(at, q) =>
      && q.md == p.md && q.stale == {}
      && (at !in {EnsuringClaim, ReadingJob, CreatingJob} ==> q.cache == state)
      && (at !in {EnsuringClaim, ReadingJob, CreatingJob, ListingStale, Pruning, Deciding} ==> q.decision == d)
      && (at == WritingStatus ==> q.workload == Observe(c))
      && at != CreatingJob && (at in {ReadingJob, ListingStale, Pruning} ==> p.md.spec.cache.Some?)
    case Synced(_) => true
    case _ => false
  }

  lemma RestingStep(op: Instance, c: Store, at: Phase, q: Pass, sig: Signals, state: CacheState, pick: string)
    requires Settled(op, c, sig, state) && Resting(op, c, Syncing(at, q), sig, state)
    ensures var (c', w') := SyncStep(op, c, c, at, q, sig, pick);
            c' == c && Resting(op, c, w', sig, state)
  {
    var p := FreshPass(c);
    var r := p.(cache := state, decision := DecideReplicas(p.md, state.warm, sig), workload := Observe(c));
    if at in {ApplyingDeployment, ApplyingService, ReconcilingPdb} {
      ApplyAllTwice(op, c, r);
    } else if at == WritingStatus {
      assert ObservedBy(op, q) == ObservedBy(op, r);
    }
  }

  lemma {:induction false} RestingDrive(
    op: Instance, c: Store, w: Worker, sig: Signals, state: CacheState, picks: seq<string>)
    requires Settled(op, c, sig, state) && Resting(op, c, w, sig, state)
    ensures Drive(op, c, w, sig, picks).0 == c
    decreases |picks|
  {
    if picks != [] && w.Syncing? {
      RestingStep(op, c, w.at, w.pass, sig, state, picks[0]);
      RestingDrive(op, c, WorkerStep(op, c, c, w, sig, picks[0]).1, sig, state, picks[1..]);
    }
  }

  /** The fixpoint: after one completed pass from any store, a second pass over the same signals makes
      no call that changes anything - not at its end and not at any point on the way - exactly when
      the first decision was one to rest on. */
  lemma SecondPassWritesNothing(
    op: Instance, c: Store, p: Pass, sig: Signals, later: int, picks: seq<string>)
    requires Fresh(c, p) && WellNamed(c.jobs)
    ensures var out := SyncPass(op, c, p, sig);
            var again := sig.(wall := later);
            var rests := out.done.None? || RestsOn(p.md, out.done.value.cache.warm, sig);
            && Current(out.store).Some?
            && (SyncPass(op, out.store, FreshPass(out.store), again).store == out.store <==> rests)
            && (rests ==> Drive(op, out.store, Syncing(EnsuringClaim, FreshPass(out.store)), again, picks).0 == out.store)
            && (Calm(p.md.spec) ==> rests)
  {
    var out := SyncPass(op, c, p, sig);
    var again := sig.(wall := later);
    SyncCompletes(op, c, p, sig);
    if out.done.Some? {
      var state := out.done.value.cache;
      DecisionRests(p.md, Current(out.store).value, state.warm, sig, later);
      if RestsOn(p.md, state.warm, sig) {
        FirstPassSettles(op, c, p, sig, later);
        SettledPass(op, out.store, again, state);
        RestingDrive(op, out.store, Syncing(EnsuringClaim, FreshPass(out.store)), again, state, picks);
      } else {
        SecondPassMoves(op, c, p, sig, later);
      }
    } else {
      BlockedDrive(op, c, FreshPass(c), again, picks);
    }
  }

  /** Otherwise the second pass reads the same cache state and writes a new replica count. */
  lemma SecondPassMoves(op: Instance, c: Store, p: Pass, sig: Signals, later: int)
    requires Fresh(c, p) && WellNamed(c.jobs) && SyncPass(op, c, p, sig).done.Some?
    requires !RestsOn(p.md, SyncPass(op, c, p, sig).done.value.cache.warm, sig)
    ensures var first := SyncPass(op, c, p, sig).store;
            && Current(first).Some?
            && SyncPass(op, first, FreshPass(first), sig.(wall := later)).store != first
  {
    SyncCompletes(op, c, p, sig);
    CachePassSettles(op, c, p.md.spec);
    var out, again := SyncPass(op, c, p, sig), sig.(wall := later);
    var (cached, state) := CachePass(op, c, p.md.spec).value;
    var md := Current(out.store).value;
    SettledCarriesOver(op, cached, out.store, p.md.spec, md.spec.replicas, state);
    SettledCachePass(op, out.store, md.spec, state);
    DecisionRests(p.md, md, state.warm, sig, later);
    SyncCompletes(op, out.store, FreshPass(out.store), again);
  }

  /** A pass blocked on a missing claim stops at its first call. */
  lemma BlockedDrive(op: Instance, c: Store, p: Pass, sig: Signals, picks: seq<string>)
    requires p.md.spec.cache.Some? && EnsureClaim(op, c, p.md.spec).None?
    ensures Drive(op, c, Syncing(EnsuringClaim, p), sig, picks).0 == c
  {
    if picks != [] {
      assert WorkerStep(op, c, c, Syncing(EnsuringClaim, p), sig, picks[0]) == (c, Idle);
      assert Drive(op, c, Idle, sig, picks[1..]) == (c, Idle);
    }
  }

  // ----------------------------------------------------------------- teardown

  /** Teardown removes the Deployment and this instance's Jobs, no other instance's, and lets go of the
      object exactly when none of its pods of either kind is left. */
  lemma FinalizeLaw(op: Instance, c: Store, md: Md, rv: nat)
    requires Current(c) == Some(md) && md.deleting && md.finalizer && rv == |c.versions| - 1
    ensures var after := FinalizePass(op, c, md, rv);
            && after.deployment.None? && OwnJobs(op, after) == {}
            && (forall n | n in c.jobs && c.jobs[n].instance != op.name :: n in after.jobs && after.jobs[n] == c.jobs[n])
            && after.volumes == c.volumes && after.pods == c.pods
            && (Current(after).Some? && Current(after).value.finalizer <==>
                  exists i :: i in c.pods && c.pods[i].instance == op.name)
  {
    var after := FinalizePass(op, c, md, rv);
    FinalizeUnfolds(op, c, md, rv);
    OwnByInstance(op, c);
    OwnByInstance(op, after);
    if OwnPods(op, c) != {} {
      var i :| i in OwnPods(op, c);
      assert i in c.pods && c.pods[i].instance == op.name;
    } else {
      assert forall i | i in c.pods :: i !in OwnPods(op, c);
    }
  }

  lemma FinalizeUnfolds(op: Instance, c: Store, md: Md, rv: nat)
    ensures var after := FinalizePass(op, c, md, rv);
            && after == c.(deployment := None, jobs := c.jobs - OwnJobs(op, c), versions := after.versions)
            && after.versions == if OwnPods(op, c) == {} && IsLatest(c, rv)
                                 then ReleaseFinalizer(c, md).versions else c.versions
  {
    assert OwnJobs(op, DeleteDeployment(c)) == OwnJobs(op, c);
    assert OwnPods(op, DeleteJobs(DeleteDeployment(c), OwnJobs(op, c))) == OwnPods(op, c);
  }
}
