/** Runs that are spelled out: how an undisturbed pass, a first pass and a finished download look as
    sequences of actions of the interleaved system. */
module PassRuns {
  import opened Api
  import opened Cluster
  import opened Reconcile
  import opened PassLaws
  import opened Protocol
  import opened RolloutGate

  // ------------------------------------------------------- passes inside runs

  function Rank(at: Phase): nat {
    match at
    case EnsuringClaim => 12 case ReadingJob => 11 case CreatingJob => 10 case ListingStale => 9
    case Pruning => 8 case Deciding => 7 case WritingSpec => 6 case ApplyingDeployment => 5
    case ApplyingService => 4 case ReconcilingPdb => 3 case Observing => 2 case WritingStatus => 1
  }

  lemma StepDescends(op: Instance, c: Store, at: Phase, p: Pass, sig: Signals, pick: string)
    requires at == Pruning && p.stale != {} ==> pick in p.stale
    ensures var w' := SyncStep(op, c, c, at, p, sig, pick).1;
            w'.Syncing? ==> Rank(w'.at) < Rank(at) || (w'.at == at == Pruning && w'.pass.stale < p.stale)
  {
  }

  /** An undisturbed pass ends. */
  lemma {:induction false} PassEnds(op: Instance, c: Store, w: Worker, sig: Signals) returns (picks: seq<string>)
    requires w.Syncing?
    ensures !Drive(op, c, w, sig, picks).1.Syncing?
    decreases Rank(w.at), w.pass.stale
  {
    var pick := "";
    if w.at == Pruning && w.pass.stale != {} {
      pick :| pick in w.pass.stale;
    }
    StepDescends(op, c, w.at, w.pass, sig, pick);
    var (c', w') := WorkerStep(op, c, c, w, sig, pick);
    var rest: seq<string> := [];
    if w'.Syncing? {
      rest := PassEnds(op, c', w', sig);
    }
    picks := [pick] + rest;
    assert picks[1..] == rest;
  }

  const ALL := {Jobs, Pods, Claims, Deployments}

  /** The calls of a pass over caches that have caught up. */
  function Calls(sig: Signals, picks: seq<string>): seq<Action> {
    if picks == [] then [] else [Catch(ALL), Work(sig, picks[0])] + Calls(sig, picks[1..])
  }

  ghost predicate NoUser(acts: seq<Action>) {
    forall i | 0 <= i < |acts| :: !acts[i].User?
  }

  /** Nothing happens but the worker, on these signals, and the caches catching up. */
  ghost predicate ByWorker(acts: seq<Action>, sig: Signals) {
    forall i | 0 <= i < |acts| :: acts[i].Deliver? || acts[i].Wake? || acts[i].Catch? || (acts[i].Work? && acts[i].sig == sig)
  }

  lemma {:induction false} ExecConcat(op: Instance, s: State, a: seq<Action>, b: seq<Action>)
    ensures Exec(op, s, a + b) == Exec(op, Exec(op, s, a), b)
    decreases |a|
  {
    if a == [] {
      assert a + b == b;
    } else {
      assert (a + b)[1..] == a[1..] + b;
      ExecConcat(op, Step(op, s, a[0]), a[1..], b);
    }
  }

  lemma ExecOne(op: Instance, s: State, a: Action)
    ensures Exec(op, s, [a]) == Step(op, s, a)
  {
    assert [a][1..] == [];
  }

  lemma TwoSteps(op: Instance, s: State, a: Action, b: Action)
    ensures Exec(op, s, [a, b]) == Step(op, Step(op, s, a), b)
  {
    ExecOne(op, s, a);
    ExecSnoc(op, s, [a], b);
    assert [a] + [b] == [a, b];
  }

  /** Caches that have caught up serve like the store. */
  lemma CaughtUp(op: Instance, c: Store, v: Store, at: Phase, p: Pass, sig: Signals, pick: string)
    requires v.jobs == c.jobs && v.volumes == c.volumes && v.deployment == c.deployment
    ensures SyncStep(op, c, v, at, p, sig, pick) == SyncStep(op, c, c, at, p, sig, pick)
  {
    assert StaleJobs(op, v, Key(op, p.md.spec)) == StaleJobs(op, c, Key(op, p.md.spec));
  }

  lemma CallStep(op: Instance, s: State, sig: Signals, pick: string)
    requires s.w.Syncing?
    ensures var s' := Exec(op, s, [Catch(ALL), Work(sig, pick)]);
            (s'.c, s'.w) == WorkerStep(op, s.c, s.c, s.w, sig, pick) && s'.seen == s.seen
  {
    TwoSteps(op, s, Catch(ALL), Work(sig, pick));
    CaughtUp(op, s.c, CatchUp(s.c, s.v, ALL), s.w.at, s.w.pass, sig, pick);
  }

  lemma {:induction false} CallsDrive(op: Instance, s: State, sig: Signals, picks: seq<string>)
    requires s.w.Syncing? || s.w.Idle? || s.w.Synced?
    ensures var s' := Exec(op, s, Calls(sig, picks));
            (s'.c, s'.w) == Drive(op, s.c, s.w, sig, picks) && s'.seen == s.seen
    decreases |picks|
  {
    if picks != [] {
      var call := [Catch(ALL), Work(sig, picks[0])];
      ExecConcat(op, s, call, Calls(sig, picks[1..]));
      var s' := Exec(op, s, call);
      if s.w.Syncing? {
        CallStep(op, s, sig, picks[0]);
        SyncStepShape(op, s.c, s.w.at, s.w.pass, sig, picks[0]);
      } else {
        TwoSteps(op, s, call[0], call[1]);
        IdleDrive(op, s.c, s.w, sig, picks);
      }
      CallsDrive(op, s', sig, picks[1..]);
    }
  }

  lemma IdleDrive(op: Instance, c: Store, w: Worker, sig: Signals, picks: seq<string>)
    requires !w.Syncing? && picks != []
    ensures Drive(op, c, w, sig, picks) == Drive(op, c, w, sig, picks[1..]) == (c, w)
  {
  }

  lemma {:induction false} CallsByWorker(sig: Signals, picks: seq<string>)
    ensures ByWorker(Calls(sig, picks), sig)
  {
    if picks != [] {
      CallsByWorker(sig, picks[1..]);
    }
  }

  predicate AtRest(s: State) { (s.w.Idle? || s.w.Synced?) && s.seen < |s.c.versions| }

  function WakeUp(s: State): seq<Action>
    requires s.c.versions != []
  {
    [Deliver(|s.c.versions| - 1)] + [Wake]
  }

  lemma WakesUp(op: Instance, s: State)
    requires AtRest(s) && Current(s.c).Some? && Current(s.c).value.finalizer && !Current(s.c).value.deleting
    ensures Exec(op, s, WakeUp(s))
         == s.(seen := |s.c.versions| - 1, w := Syncing(EnsuringClaim, FreshPass(s.c)))
  {
    var last := |s.c.versions| - 1;
    ExecConcat(op, s, [Deliver(last)], [Wake]);
    ExecOne(op, s, Deliver(last));
    ExecOne(op, s.(seen := last), Wake);
  }

  lemma CallsRun(op: Instance, s: State, sig: Signals) returns (picks: seq<string>)
    requires s.w.Syncing? && s.w.at == EnsuringClaim && s.w.pass.stale == {} && s.seen < |s.c.versions|
    ensures var s' := Exec(op, s, Calls(sig, picks));
            var out := SyncPass(op, s.c, s.w.pass, sig);
            && AtRest(s') && s'.seen == s.seen && s'.c == out.store
            && (s'.w.Synced? <==> out.done.Some?)
  {
    picks := PassEnds(op, s.c, s.w, sig);
    DriveComputesSync(op, s.c, s.w, sig, picks);
    CallsDrive(op, s, sig, picks);
    DriveRests(op, s.c, s.w, sig, picks);
  }

  /** A whole undisturbed pass as part of a run: the watch catches up, the worker wakes and works. */
  lemma PassRun(op: Instance, s: State, sig: Signals) returns (acts: seq<Action>)
    requires AtRest(s) && Current(s.c).Some? && Current(s.c).value.finalizer && !Current(s.c).value.deleting
    ensures NoUser(acts) && ByWorker(acts, sig)
    ensures var s' := Exec(op, s, acts);
            && AtRest(s') && s'.seen == |s.c.versions| - 1
            && s'.c == SyncPass(op, s.c, FreshPass(s.c), sig).store
  {
    WakesUp(op, s);
    var picks := CallsRun(op, Exec(op, s, WakeUp(s)), sig);
    ExecConcat(op, s, WakeUp(s), Calls(sig, picks));
    CallsByWorker(sig, picks);
    acts := WakeUp(s) + Calls(sig, picks);
  }

  lemma SyncStepShape(op: Instance, c: Store, at: Phase, p: Pass, sig: Signals, pick: string)
    ensures var (c', w') := SyncStep(op, c, c, at, p, sig, pick);
            && (w'.Syncing? || w'.Idle? || w'.Synced?)
            && |c'.versions| >= |c.versions|
  {
  }

  lemma {:induction false} DriveRests(op: Instance, c: Store, w: Worker, sig: Signals, picks: seq<string>)
    requires w.Syncing? || w.Idle? || w.Synced?
    ensures var (c', w') := Drive(op, c, w, sig, picks);
            && (w'.Syncing? || w'.Idle? || w'.Synced?)
            && |c'.versions| >= |c.versions|
    decreases |picks|
  {
    if picks != [] && w.Syncing? {
      SyncStepShape(op, c, w.at, w.pass, sig, picks[0]);
      var (c', w') := WorkerStep(op, c, c, w, sig, picks[0]);
      DriveRests(op, c', w', sig, picks[1..]);
    }
  }

  // ------------------------------------------------------------- a warm start

  const BLIND := Signals(Err, 0, 0)

  /** The object and its warm Job after a first pass over spec a, both claims still empty. */
  ghost predicate WarmingUp(op: Instance, s: State, a: Spec, b: Spec) {
    && AtRest(s) && Current(s.c).Some?
    && Current(s.c).value.spec == a && Current(s.c).value.finalizer && !Current(s.c).value.deleting
    && WellNamed(s.c.jobs) && JobName(op, a) in s.c.jobs && s.c.jobs[JobName(op, a)] == WarmJob(op, a)
    && Claim(op, a) in s.c.volumes && Claim(op, b) in s.c.volumes
    && s.c.volumes[Claim(op, b)] == Volume({}, {}) && s.c.pods == map[]
  }

  const NOTHING := Store([None], map[], map[], None, {}, {}, false, None, map[])

  const EMPTY := State(NOTHING, Idle, 0, NOTHING)

  /** Two claims exist. */
  lemma Prepared(op: Instance, c1: string, c2: string) returns (acts: seq<Action>)
    ensures NoUser(acts)
    ensures Exec(op, EMPTY, acts) == EMPTY.(c := EMPTY.c.(volumes := map[c1 := Volume({}, {}), c2 := Volume({}, {})]))
  {
    acts := [World(ClaimCreated(c1)), World(ClaimCreated(c2))];
    TwoSteps(op, EMPTY, acts[0], acts[1]);
    assert WorldStep(op, WorldStep(op, EMPTY.c, ClaimCreated(c1)), ClaimCreated(c2)).volumes
        == map[c1 := Volume({}, {}), c2 := Volume({}, {})];
  }

  /** The user creates the object; the operator adds its finalizer. */
  lemma Created(op: Instance, s: State, a: Spec) returns (acts: seq<Action>)
    requires s.w == Idle && s.seen == 0 && s.c.versions == [None]
    ensures AllAllowed({a}, acts)
    ensures var md := Md(a, EMPTY_STATUS, 1, true, false, false);
            Exec(op, s, acts) == State(s.c.(versions := [None, Some(md.(finalizer := false)), Some(md)]), Idle, 1, s.v)
  {
    var md := Md(a, EMPTY_STATUS, 1, false, false, false);
    var s1 := s.(c := s.c.(versions := [None, Some(md)]), seen := 1);
    TwoSteps(op, s, User(Create(a, false, false)), Deliver(1));
    assert Exec(op, s, [User(Create(a, false, false)), Deliver(1)]) == s1;
    TwoSteps(op, s1, Wake, Work(BLIND, ""));
    assert Step(op, s1, Wake) == s1.(w := AddingFinalizer(md, 1));
    acts := [User(Create(a, false, false)), Deliver(1)] + [Wake, Work(BLIND, "")];
    ExecConcat(op, s, [User(Create(a, false, false)), Deliver(1)], [Wake, Work(BLIND, "")]);
    assert s1.c.versions + [Some(md.(finalizer := true))] == [None, Some(md), Some(md.(finalizer := true))];
  }

  /** What the first pass leaves in the store. */
  lemma FirstPassStore(op: Instance, c: Store, a: Spec)
    requires Current(c).Some? && a.cache.Some? && c.jobs == map[] && Claim(op, a) in c.volumes
    requires Current(c).value.spec == a && Current(c).value.finalizer && !Current(c).value.deleting
    ensures var after := SyncPass(op, c, FreshPass(c), BLIND).store;
            && after.pods == c.pods && after.volumes == c.volumes
            && Current(after).Some? && Current(after).value.spec == a
            && Current(after).value.finalizer && !Current(after).value.deleting
            && after.jobs == CachePass(op, c, a).value.0.jobs
  {
    SyncCompletes(op, c, FreshPass(c), BLIND);
  }

  lemma FirstJob(op: Instance, c: Store, a: Spec)
    requires a.cache.Some? && c.jobs == map[] && Claim(op, a) in c.volumes
    ensures CachePass(op, c, a).Some?
    ensures var jobs := CachePass(op, c, a).value.0.jobs;
            WellNamed(jobs) && JobName(op, a) in jobs && jobs[JobName(op, a)] == WarmJob(op, a)
  {
    PruneLaw(op, CreateJob(op, c, a), a);
    RotatesWarmJobs(op, c, a);
  }

  /** The first pass creates the Job for spec a on its claim. */
  lemma FirstPass(op: Instance, s: State, a: Spec, b: Spec) returns (acts: seq<Action>)
    requires AtRest(s) && Current(s.c).Some? && a.cache.Some?
    requires Current(s.c).value.spec == a && Current(s.c).value.finalizer && !Current(s.c).value.deleting
    requires s.c.jobs == map[] && s.c.pods == map[]
    requires Claim(op, a) in s.c.volumes && Claim(op, b) in s.c.volumes
    requires s.c.volumes[Claim(op, b)] == Volume({}, {})
    ensures NoUser(acts) && WarmingUp(op, Exec(op, s, acts), a, b)
  {
    acts := PassRun(op, s, BLIND);
    FirstPassStore(op, s.c, a);
    FirstJob(op, s.c, a);
  }

  /** The Job has finished on a's claim; b's claim is still empty. */
  ghost predicate Warmed(op: Instance, s: State, a: Spec, b: Spec) {
    && AtRest(s) && Current(s.c).Some?
    && Current(s.c).value.spec == a && Current(s.c).value.finalizer && !Current(s.c).value.deleting
    && WellNamed(s.c.jobs) && JobName(op, a) in s.c.jobs
    && s.c.jobs[JobName(op, a)] == WarmJob(op, a).(succeeded := 1)
    && Claim(op, a) in s.c.volumes
    && Claim(op, b) in s.c.volumes && s.c.volumes[Claim(op, b)] == Volume({}, {})
  }

  lemma Downloads(op: Instance, s: State, a: Spec, b: Spec) returns (acts: seq<Action>)
    requires WarmingUp(op, s, a, b) && Claim(op, a) != Claim(op, b)
    ensures NoUser(acts) && Warmed(op, Exec(op, s, acts), a, b)
  {
    var job := JobName(op, a);
    var pod := Warming(op.name, job, Key(op, a), a.identity, Claim(op, a), Started);
    var s2 := Step(op, Step(op, s, World(WarmPodStarts(0, job))), World(WarmPodWorks(0)));
    assert s2.c.pods[0] == pod.(progress := Downloaded) && s2.c == s.c.(pods := s2.c.pods, volumes := s2.c.volumes);
    assert s2.c.volumes[Claim(op, b)] == Volume({}, {});
    TwoSteps(op, s, World(WarmPodStarts(0, job)), World(WarmPodWorks(0)));
    var done := Marks(op, s2, a, b);
    acts := [World(WarmPodStarts(0, job)), World(WarmPodWorks(0))] + done;
    ExecConcat(op, s, [World(WarmPodStarts(0, job)), World(WarmPodWorks(0))], done);
  }

  lemma Marks(op: Instance, s: State, a: Spec, b: Spec) returns (acts: seq<Action>)
    requires AtRest(s) && Current(s.c).Some? && Claim(op, a) != Claim(op, b)
    requires Current(s.c).value.spec == a && Current(s.c).value.finalizer && !Current(s.c).value.deleting
    requires WellNamed(s.c.jobs) && JobName(op, a) in s.c.jobs && s.c.jobs[JobName(op, a)] == WarmJob(op, a)
    requires Claim(op, a) in s.c.volumes && Claim(op, b) in s.c.volumes
    requires s.c.volumes[Claim(op, b)] == Volume({}, {}) && 0 in s.c.pods
    requires s.c.pods[0] == Warming(op.name, JobName(op, a), Key(op, a), a.identity, Claim(op, a), Downloaded)
    ensures NoUser(acts) && Warmed(op, Exec(op, s, acts), a, b)
  {
    var job := JobName(op, a);
    acts := [World(WarmPodWorks(0)), World(JobSucceeds(job, 0))];
    TwoSteps(op, s, acts[0], acts[1]);
    var s1 := Step(op, s, acts[0]);
    assert s1.c.pods[0].progress == Finished && s1.c.jobs == s.c.jobs;
    assert Step(op, s1, acts[1]).c.jobs == s.c.jobs[job := WarmJob(op, a).(succeeded := 1)];
  }

  /** From nothing to a finished download on a's claim, with b's claim empty. */
  lemma WarmStart(op: Instance, a: Spec, b: Spec) returns (acts: seq<Action>)
    requires a.cache.Some? && Claim(op, a) != Claim(op, b)
    ensures AllAllowed({a}, acts) && Warmed(op, Exec(op, EMPTY, acts), a, b)
  {
    var claims := Prepared(op, Claim(op, a), Claim(op, b));
    var s0 := Exec(op, EMPTY, claims);
    var creation := Created(op, s0, a);
    var created := claims + creation;
    ExecConcat(op, EMPTY, claims, creation);
    var s1 := Exec(op, EMPTY, created);
    var first := FirstPass(op, s1, a, b);
    ExecConcat(op, EMPTY, created, first);
    var download := Downloads(op, Exec(op, s1, first), a, b);
    ExecConcat(op, EMPTY, created + first, download);
    acts := created + first + download;
    assert forall x | x in claims + creation + first + download :: Allowed({a}, x);
  }
}
