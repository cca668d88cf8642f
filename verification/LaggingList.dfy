/** A Job list read from a cache that lags behind misses a stale Job, and the pass completes beside it. */
module LaggingList {
  import opened Api
  import opened Render
  import opened StatusModel
  import opened Cluster
  import opened Reconcile
  import opened Protocol
  import opened PassLaws
  import opened PassRuns

  const CALL := Work(BLIND, "")

  const THREE := [CALL, CALL] + [CALL]

  lemma ThreeSteps(op: Instance, s: State)
    ensures Exec(op, s, THREE) == Step(op, Step(op, Step(op, s, CALL), CALL), CALL)
  {
    TwoSteps(op, s, CALL, CALL);
    ExecSnoc(op, s, [CALL, CALL], CALL);
  }

  /** A pass that knows of no Job and no claim: it creates both if they are missing. */
  lemma CreatesBlindly(op: Instance, s: State, p: Pass)
    requires s.w == Syncing(EnsuringClaim, p) && s.v == NOTHING && OwnsClaim(p.md.spec)
    ensures var s' := Exec(op, s, THREE);
            && s'.w == Syncing(ListingStale, p.(cache := CacheState(true, false, false)))
            && s'.c == CreateJob(op, s.c.(volumes := s'.c.volumes), p.md.spec)
            && s'.v == NOTHING && s'.seen == s.seen
  {
    ThreeSteps(op, s);
  }

  /** It lists nothing to prune and holds the count. */
  lemma ListsNothing(op: Instance, s: State, p: Pass)
    requires s.w == Syncing(ListingStale, p) && s.v == NOTHING && p.stale == {}
    ensures var s' := Exec(op, s, THREE);
            && s' == s.(w := Syncing(WritingSpec, p.(decision := DecideReplicas(p.md, p.cache.warm, BLIND))))
            && s'.w.pass.decision.replicas == p.md.spec.replicas
  {
    assert StaleJobs(op, NOTHING, Key(op, p.md.spec)) == {};
    ThreeSteps(op, s);
  }

  lemma AppliesBlindly(op: Instance, s: State, p: Pass)
    requires s.w == Syncing(WritingSpec, p) && p.decision.replicas == p.md.spec.replicas
    ensures var s' := Exec(op, s, THREE);
            && s'.w == Syncing(ReconcilingPdb, p) && s'.c.jobs == s.c.jobs && s'.c.versions == s.c.versions
            && s'.v == s.v
  {
    ThreeSteps(op, s);
  }

  lemma ReportsBlindly(op: Instance, s: State, p: Pass)
    requires s.w == Syncing(ReconcilingPdb, p) && IsLatest(s.c, p.rv)
    ensures var s' := Exec(op, s, THREE);
            s'.w.Synced? && s'.w.pass.md == p.md && s'.c.jobs == s.c.jobs
  {
    ThreeSteps(op, s);
  }

  const NINE := THREE + THREE + THREE

  /** The rest of the pass completes without touching a Job. */
  lemma CompletesBlindly(op: Instance, s: State, p: Pass)
    requires s.w == Syncing(ListingStale, p) && s.v == NOTHING && p.stale == {} && IsLatest(s.c, p.rv)
    ensures var s' := Exec(op, s, NINE);
            s'.w.Synced? && s'.w.pass.md == p.md && s'.c.jobs == s.c.jobs
  {
    ExecConcat(op, s, THREE + THREE, THREE);
    ExecConcat(op, s, THREE, THREE);
    ListsNothing(op, s, p);
    var s1 := Exec(op, s, THREE);
    AppliesBlindly(op, s1, s1.w.pass);
    ReportsBlindly(op, Exec(op, s1, THREE), s1.w.pass);
  }

  /** The object is current and live, its caches still know nothing. */
  ghost predicate Unseen(s: State, spec: Spec) {
    && AtRest(s) && s.v == NOTHING && Current(s.c).Some? && Current(s.c).value.spec == spec
    && Current(s.c).value.finalizer && !Current(s.c).value.deleting
  }

  /** Wakes up and creates the Job, blind to what is there. */
  lemma WakesAndCreates(op: Instance, s: State, spec: Spec)
    requires Unseen(s, spec) && OwnsClaim(spec)
    ensures var s', p := Exec(op, s, WakeUp(s) + THREE), FreshPass(s.c).(cache := CacheState(true, false, false));
            && s'.w == Syncing(ListingStale, p) && s'.v == NOTHING
            && s'.c.versions == s.c.versions && s'.seen == |s.c.versions| - 1
            && s'.c.jobs.Keys == s.c.jobs.Keys + {JobName(op, spec)}
  {
    WakesUp(op, s);
    var woken := Exec(op, s, WakeUp(s));
    CreatesBlindly(op, woken, woken.w.pass);
    ExecConcat(op, s, WakeUp(s), THREE);
  }

  lemma FailsAndIsEdited(op: Instance, s: State, a: Spec, b: Spec)
    requires s.v == NOTHING && s.seen < |s.c.versions| && Current(s.c).Some? && Current(s.c).value.spec == a != b
    requires Current(s.c).value.finalizer && !Current(s.c).value.deleting
    ensures var s' := Exec(op, s, [Fail, User(Edit(b))]); Unseen(s', b) && s'.c.jobs == s.c.jobs
  {
    TwoSteps(op, s, Fail, User(Edit(b)));
  }

  /** A first pass creates its Job and fails; the user then changes the model. */
  lemma LeavesJobBehind(op: Instance, s: State, a: Spec, b: Spec) returns (acts: seq<Action>)
    requires Unseen(s, a) && OwnsClaim(a) && a != b
    ensures var s' := Exec(op, s, acts); Unseen(s', b) && JobName(op, a) in s'.c.jobs
  {
    WakesAndCreates(op, s, a);
    var created := Exec(op, s, WakeUp(s) + THREE);
    assert Current(created.c) == Current(s.c);
    FailsAndIsEdited(op, created, a, b);
    acts := WakeUp(s) + THREE + [Fail, User(Edit(b))];
    ExecConcat(op, s, WakeUp(s) + THREE, [Fail, User(Edit(b))]);
  }

  lemma CompletesBeside(op: Instance, s: State, b: Spec) returns (acts: seq<Action>)
    requires Unseen(s, b) && OwnsClaim(b)
    ensures var s' := Exec(op, s, acts);
            && s'.w.Synced? && s'.w.pass.md.spec == b
            && s.c.jobs.Keys + {JobName(op, b)} == s'.c.jobs.Keys
  {
    WakesAndCreates(op, s, b);
    var created := Exec(op, s, WakeUp(s) + THREE);
    CompletesBlindly(op, created, created.w.pass);
    ExecConcat(op, s, WakeUp(s) + THREE, NINE);
    acts := WakeUp(s) + THREE + NINE;
  }

  /** For any two models with different keys, a run whose last pass completes for the second with the Job
      of the first still there. */
  lemma StaleJobSurvives(op: Instance, a: Spec, b: Spec) returns (acts: seq<Action>)
    requires OwnsClaim(a) && OwnsClaim(b) && Key(op, a) != Key(op, b)
    ensures Initial(op, EMPTY)
    ensures var s := Exec(op, EMPTY, acts);
            && s.w.Synced? && s.w.pass.md.spec == b
            && JobName(op, a) in s.c.jobs && JobName(op, a) != JobName(op, b)
  {
    var creation := Created(op, EMPTY, a);
    var s := Exec(op, EMPTY, creation);
    var first := LeavesJobBehind(op, s, a, b);
    var second := CompletesBeside(op, Exec(op, s, first), b);
    ExecConcat(op, EMPTY, creation, first);
    ExecConcat(op, EMPTY, creation + first, second);
    if JobName(op, a) == JobName(op, b) {
      WarmJobNameInjective(op.name, Key(op, a), op.name, Key(op, b));
    }
    acts := creation + first + second;
  }
}
