/** The reconciler as it is written: objects updated in place by one call after another, proved to
    compute the passes of module Reconcile. */
module Controller {
  import opened Api
  import opened Render
  import opened StatusModel
  import opened Cluster
  import opened Reconcile
  import Queue
  import Scaling

  /** The in-memory copy of the object, updated by the client on every write. */
  class ModelObject {
    var value: Md
    var resourceVersion: nat

    constructor (value: Md, resourceVersion: nat)
      ensures this.value == value && this.resourceVersion == resourceVersion
    {
      this.value, this.resourceVersion := value, resourceVersion;
    }
  }

  /** What the API server stores when `next` replaces `stored`: the generation follows the spec. */
  function Stored(stored: Md, next: Md): Md {
    next.(generation := if next.spec == stored.spec then stored.generation else stored.generation + 1)
  }

  predicate Gone(md: Md) { md.deleting && !md.finalizer && !md.foreignFinalizer }

  /** What the client holds was stored under the resourceVersion it holds, latest or not. */
  predicate Read(c: Store, md: Md, rv: nat) { rv < |c.versions| && c.versions[rv] == Some(md) }

  class ApiServer {
    var versions: seq<Option<Md>>
    var volumes: map<string, Volume>
    var jobs: map<string, Job>
    var deployment: Option<Deployment>
    var rollouts: set<Template>
    var replicaSets: set<Template>
    var service: bool
    var pdb: Option<int32>
    var pods: map<nat, Pod>

    function State(): Store
      reads this
    {
      Store(versions, volumes, jobs, deployment, rollouts, replicaSets, service, pdb, pods)
    }

    /** Copies the version the client's cache has reached; null is the error for not found. */
    method Get(seen: nat) returns (md: ModelObject?)
      requires seen < |versions|
      ensures md == null <==> versions[seen].None?
      ensures md != null ==> fresh(md) && md.resourceVersion == seen && Read(State(), md.value, seen)
    {
      if versions[seen].None? {
        return null;
      }
      return new ModelObject(versions[seen].value, seen);
    }

    method Update(md: ModelObject) returns (ok: bool)
      modifies this`versions, md
      ensures ok <==> old(IsLatest(State(), md.resourceVersion))
      ensures !ok ==> State() == old(State()) && md.value == old(md.value)
      ensures ok ==>
                && md.value == Stored(old(Current(State())).value, old(md.value))
                && md.resourceVersion == |old(versions)|
                && State() == PutMd(old(State()), if Gone(md.value) then None else Some(md.value))
    {
      ok := IsLatest(State(), md.resourceVersion);
      if ok {
        md.value := Stored(Current(State()).value, md.value);
        md.resourceVersion := |versions|;
        versions := versions + [if Gone(md.value) then None else Some(md.value)];
      }
    }

    method UpdateStatus(md: ModelObject) returns (ok: bool)
      modifies this`versions, md`resourceVersion
      ensures ok <==> old(IsLatest(State(), md.resourceVersion))
      ensures State() == if ok then PutMd(old(State()), Some(old(Current(State())).value.(status := md.value.status)))
                         else old(State())
    {
      ok := IsLatest(State(), md.resourceVersion);
      if ok {
        md.resourceVersion := |versions|;
        versions := versions + [Some(Current(State()).value.(status := md.value.status))];
      }
    }

    /** The names of the Jobs a selector matches, in no particular order. */
    method ListJobs(selector: Labels) returns (names: seq<string>)
      ensures forall n :: n in names <==> n in jobs && Selects(selector, jobs[n].Labels())
    {
      names := [];
      var todo := jobs.Keys;
      while todo != {}
        invariant todo <= jobs.Keys
        invariant forall n :: n in names <==> n in jobs.Keys - todo && Selects(selector, jobs[n].Labels())
        decreases todo
      {
        var n :| n in todo;
        if Selects(selector, jobs[n].Labels()) {
          names := names + [n];
        }
        todo := todo - {n};
      }
    }

    method DeleteJob(name: string)
      modifies this`jobs
      ensures State() == DeleteJobs(old(State()), {name})
    {
      jobs := jobs - {name};
    }
  }

  // ------------------------------------------------------------ status builder

  class StatusBuilder {
    const md: ModelObject
    const selector: Labels
    const cacheKey: string
    var cache: CacheState
    var workload: Workload
    var paused: bool
    var queueDepth: int32
    var lastScale: Option<int>
    var scaleErr: bool

    constructor (md: ModelObject, selector: Labels, cacheKey: string)
      ensures this.md == md && this.selector == selector && this.cacheKey == cacheKey
      ensures cache == NO_CACHE && workload == Workload(0, 0, false) && !paused
      ensures queueDepth == md.value.status.observedQueueDepth && lastScale.None? && !scaleErr
    {
      this.md, this.selector, this.cacheKey := md, selector, cacheKey;
      cache, workload, paused := NO_CACHE, Workload(0, 0, false), false;
      queueDepth, lastScale, scaleErr := md.value.status.observedQueueDepth, None, false;
    }

    /** Reads the object through the shared reference, so it sees the generation and the replica count
        the pass itself wrote in between. */
    function Observation(): Observed
      reads this, md
    {
      Observed(md.value.generation, md.value.spec.replicas, selector, cacheKey,
               cache, workload, paused, queueDepth, lastScale, scaleErr)
    }

    method ApplyCache(c: CacheState)
      modifies this`cache
      ensures cache == c
    {
      cache := c;
    }

    method ApplyWorkload(w: Workload, p: bool)
      modifies this`workload, this`paused
      ensures workload == w && paused == p
    {
      workload, paused := w, p;
    }

    method Build(prev: Status, wall: int) returns (next: Status)
      ensures next == BuildStatus(prev, Observation(), wall)
    {
      var o := Observation();
      next := prev.(observedGeneration := o.generation, cacheKey := cacheKey,
                    replicas := workload.replicas, readyReplicas := workload.readyReplicas,
                    observedQueueDepth := queueDepth, selector := selector);
      if lastScale.Some? {
        next := next.(lastScaleSecond := lastScale);
      }
      var verdicts := Verdicts(o);
      ghost var base := next;
      for i := 0 to |verdicts|
        invariant next == base.(conditions := SetAll(prev.conditions, verdicts[..i], o.generation, wall))
      {
        assert verdicts[..i + 1][..i] == verdicts[..i];
        next := next.(conditions := SetCondition(next.conditions, verdicts[i].0, verdicts[i].1, o.generation, wall));
      }
      assert verdicts[..|verdicts|] == verdicts;
    }
  }

  // --------------------------------------------------------------- reconciler

  class Reconciler {
    const api: ApiServer
    const op: Instance

    constructor (api: ApiServer, op: Instance)
      ensures this.api == api && this.op == op
    {
      this.api, this.op := api, op;
    }

    method EnsureClaim(spec: Spec) returns (ok: bool)
      modifies api`volumes
      ensures var out := Cluster.EnsureClaim(op, old(api.State()), spec);
              ok == out.Some? && api.State() == if ok then out.value else old(api.State())
    {
      var name := Claim(op, spec);
      if name in api.volumes {
        return true;
      }
      if !OwnsClaim(spec) {
        return false;
      }
      api.volumes := api.volumes[name := Volume({}, {})];
      return true;
    }

    method FindCondition(job: Job, kind: string) returns (found: Option<JobCondition>)
      ensures found == FindJobCondition(job.conditions, kind)
    {
      var cs := job.conditions;
      for i := 0 to |cs|
        invariant FindJobCondition(cs, kind) == FindJobCondition(cs[i..], kind)
      {
        if cs[i].kind == kind {
          return Some(cs[i]);
        }
        assert cs[i..][1..] == cs[i + 1..];
      }
      return None;
    }

    /** Deletes one listed Job after another, skipping those of the current key. */
    method PruneStaleWarmJobs(key: string)
      modifies api`jobs
      ensures api.State() == DeleteJobs(old(api.State()), StaleJobs(op, old(api.State()), key))
    {
      var before := api.jobs;
      var names := api.ListJobs(WarmSelector(op.name));
      for i := 0 to |names|
        invariant api.jobs == before - (set n | n in names[..i] && before[n].Labels()[LABEL_CACHE_KEY] != key)
      {
        if before[names[i]].Labels()[LABEL_CACHE_KEY] != key {
          api.DeleteJob(names[i]);
        }
        assert names[..i + 1] == names[..i] + [names[i]];
      }
      assert (set n | n in names[..|names|] && before[n].Labels()[LABEL_CACHE_KEY] != key)
          == StaleJobs(op, old(api.State()), key);
    }

    method ReconcileWeightCache(spec: Spec) returns (ok: bool, state: CacheState)
      modifies api`volumes, api`jobs
      ensures var out := CachePass(op, old(api.State()), spec);
              && ok == out.Some?
              && (ok ==> api.State() == out.value.0 && state == out.value.1)
              && (!ok ==> api.State() == old(api.State()))
    {
      state := NO_CACHE;
      if spec.cache.None? {
        return true, state;
      }
      ok := EnsureClaim(spec);
      if !ok {
        return;
      }
      var name := JobName(op, spec);
      if name in api.jobs {
        var job := api.jobs[name];
        var failure := FindCondition(job, "Failed");
        state := CacheState(true, job.succeeded > 0, failure.Some? && failure.value.status);
      } else {
        api.jobs := api.jobs[name := WarmJob(op, spec)];
        state := CacheState(true, false, false);
      }
      PruneStaleWarmJobs(Key(op, spec));
    }

    method DecideReplicas(md: ModelObject, warm: bool, st: StatusBuilder, sig: Signals)
      returns (replicas: Count, err: bool)
      requires st.queueDepth == md.value.status.observedQueueDepth && st.lastScale.None?
      modifies st`queueDepth, st`lastScale
      ensures ReplicaDecision(replicas, err, st.queueDepth, st.lastScale)
           == Cluster.DecideReplicas(md.value, warm, sig)
    {
      var current := md.value.spec.replicas;
      if md.value.spec.autoscaling.None? {
        return current, false;
      }
      var depth := Queue.Depth(sig.read);
      if depth.Err? {
        return current, true;
      }
      st.queueDepth := depth.value;
      var decision := Scaling.Decide(PolicyOf(md.value.spec.autoscaling.value), Scaling.State(
        current, depth.value, warm || md.value.spec.cache.None?, LastScale(md.value.status), sig.now));
      if decision.changed {
        st.lastScale := Some(sig.now / SECOND);
      }
      return decision.replicas, false;
    }

    method ApplyDeployment(spec: Spec, replicas: Count, paused: bool)
      modifies api`deployment, api`rollouts
      ensures api.State() == Cluster.ApplyDeployment(op, old(api.State()), spec, replicas, paused)
    {
      var seen := ObserveDeployment();
      api.deployment := Some(Deployment(TemplateOf(op, spec), replicas, paused, seen.replicas, seen.readyReplicas));
      if !paused {
        api.rollouts := api.rollouts + {TemplateOf(op, spec)};
      }
    }

    method ObserveDeployment() returns (w: Workload)
      ensures w == Observe(api.State())
    {
      if api.deployment.None? {
        return Workload(0, 0, false);
      }
      return Workload(api.deployment.value.observedReplicas, api.deployment.value.readyReplicas, true);
    }

    method ReconcilePDB(spec: Spec, replicas: Count)
      modifies api`pdb
      ensures api.State() == ReconcilePdb(old(api.State()), spec, replicas)
    {
      var budget := PDBMinAvailable(spec.minAvailable, replicas);
      if budget.Some? {
        api.pdb := Some(budget.value);
      } else {
        api.pdb := None;
      }
    }

    /** `p` names the local variables of the pass for the specification. */
    method WriteStatus(md: ModelObject, st: StatusBuilder, sig: Signals, ghost p: Pass) returns (ok: bool)
      requires p.md == md.value && p.rv == md.resourceVersion && Read(api.State(), md.value, md.resourceVersion)
      requires st.md == md && st.Observation() == ObservedBy(op, p)
      modifies api`versions, md
      ensures var out := RecordPass(op, old(api.State()), p, sig);
              api.State() == out.store && ok == out.done.Some?
    {
      var next := st.Build(md.value.status, sig.wall);
      if next == md.value.status {
        return true;
      }
      md.value := md.value.(status := next);
      ok := api.UpdateStatus(md);
    }

    /** The applies, in the order of the source, up to the status write. */
    method ApplyChildren(spec: Spec, replicas: Count, paused: bool)
      modifies api`deployment, api`rollouts, api`service, api`pdb
      ensures api.State() == ReconcilePdb(ApplyService(
                Cluster.ApplyDeployment(op, old(api.State()), spec, replicas, paused)), spec, replicas)
    {
      ApplyDeployment(spec, replicas, paused);
      api.service := true;
      ReconcilePDB(spec, replicas);
    }

    /** Writes the decision back to the spec if it changes it; the copy in memory follows. A copy that is
        no longer the latest loses the race. */
    method WriteDecision(md: ModelObject, replicas: Count, ghost p: Pass) returns (ok: bool)
      requires p.md == md.value && p.rv == md.resourceVersion && p.decision.replicas == replicas
      requires Read(api.State(), md.value, md.resourceVersion) && md.value.finalizer
      modifies api`versions, md
      ensures var out := WriteSpec(old(api.State()), p);
              && ok == out.Some?
              && (ok ==> out.value == (api.State(), p.(md := md.value, rv := md.resourceVersion)))
              && (!ok ==> api.State() == old(api.State()))
      ensures ok ==> Read(api.State(), md.value, md.resourceVersion) && md.value.spec == p.md.spec.(replicas := replicas)
    {
      if replicas == md.value.spec.replicas {
        return true;
      }
      md.value := md.value.(spec := md.value.spec.(replicas := replicas));
      ok := api.Update(md);
    }

    /** The second half of sync, from the decision on. */
    method ApplyAndReport(md: ModelObject, st: StatusBuilder, sig: Signals, ghost c: Store, ghost p: Pass)
      returns (ok: bool)
      requires api.State() == c
      requires p.md == md.value && p.rv == md.resourceVersion && Read(c, md.value, md.resourceVersion)
      requires p.decision.replicas == md.value.spec.replicas && st.md == md && st.cache == p.cache
      requires st.Observation() == ObservedBy(op, p).(workload := st.workload, paused := st.paused)
      modifies api, md, st
      ensures var out := ApplyPass(op, c, p, sig);
              api.State() == out.store && ok == out.done.Some?
    {
      var paused := md.value.spec.cache.Some? && !st.cache.warm;
      ApplyChildren(md.value.spec, md.value.spec.replicas, paused);
      var observed := ObserveDeployment();
      st.ApplyWorkload(observed, paused);
      ok := WriteStatus(md, st, sig, p.(workload := observed));
    }

    /** sync from the decision on. */
    method ScaleAndApply(md: ModelObject, st: StatusBuilder, sig: Signals, ghost c: Store, ghost p: Pass)
      returns (ok: bool)
      requires api.State() == c && Read(c, md.value, md.resourceVersion) && md.value.finalizer
      requires p.md == md.value && p.rv == md.resourceVersion
      requires st.md == md && st.selector == SelectorLabels(op.name) && st.cacheKey == Key(op, md.value.spec)
      requires st.cache == p.cache && st.queueDepth == md.value.status.observedQueueDepth && st.lastScale.None?
      modifies api, md, st
      ensures var out := DecidePass(op, c, p, sig); api.State() == out.store && ok == out.done.Some?
    {
      var replicas, scaleErr := DecideReplicas(md, st.cache.warm, st, sig);
      st.scaleErr := scaleErr;
      ghost var decided := p.(decision := Cluster.DecideReplicas(md.value, p.cache.warm, sig));
      ok := WriteDecision(md, replicas, decided);
      if !ok {
        return;
      }
      ghost var written, q := api.State(), decided.(md := md.value, rv := md.resourceVersion);
      ok := ApplyAndReport(md, st, sig, written, q);
    }

    method Sync(md: ModelObject, sig: Signals, ghost c: Store, ghost p: Pass) returns (ok: bool)
      requires api.State() == c && Read(c, md.value, md.resourceVersion) && md.value.finalizer
      requires p == NewPass(md.value, md.resourceVersion)
      modifies api, md
      ensures var out := SyncPass(op, c, p, sig); api.State() == out.store && ok == out.done.Some?
    {
      var st := new StatusBuilder(md, SelectorLabels(op.name), Key(op, md.value.spec));
      var fetched, cache := ReconcileWeightCache(md.value.spec);
      if !fetched {
        return false;
      }
      st.ApplyCache(cache);
      ok := ScaleAndApply(md, st, sig, api.State(), p.(cache := cache));
    }

    method Finalize(md: ModelObject)
      requires Read(api.State(), md.value, md.resourceVersion) && md.value.deleting && md.value.finalizer
      modifies api, md
      ensures api.State() == FinalizePass(op, old(api.State()), old(md.value), old(md.resourceVersion))
    {
      api.deployment := None;
      api.jobs := api.jobs - OwnJobs(op, api.State());
      if OwnPods(op, api.State()) != {} {
        return;
      }
      md.value := md.value.(finalizer := false);
      var released := api.Update(md);
    }

    method AddFinalizer(md: ModelObject)
      requires Read(api.State(), md.value, md.resourceVersion) && !md.value.deleting
      modifies api`versions, md
      ensures api.State() == if IsLatest(old(api.State()), old(md.resourceVersion))
                             then PutMd(old(api.State()), Some(old(md.value).(finalizer := true)))
                             else old(api.State())
    {
      md.value := md.value.(finalizer := true);
      var stored := api.Update(md);
    }

    method Reconcile(seen: nat, sig: Signals)
      requires seen < |api.versions|
      modifies api
      ensures api.State() == ReconcilePass(op, old(api.State()), seen, sig)
    {
      ghost var c := api.State();
      var md := api.Get(seen);
      assert api.State() == c;
      if md == null {
        return;
      }
      if md.value.deleting {
        if md.value.finalizer {
          Finalize(md);
        }
      } else if !md.value.finalizer {
        AddFinalizer(md);
      } else {
        var ok := Sync(md, sig, c, NewPass(c.versions[seen].value, seen));
      }
    }
  }
}
