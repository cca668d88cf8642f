/** Scaling to zero in the closed loop: the metric lists serving pods, and pods come from the replica count
    of the Deployment. Zero persists exactly as long as nobody can act on an outdated count. */
module ScaleToZero {
  import opened Api
  import opened Cluster
  import opened Reconcile
  import opened Protocol
  import opened PassLaws
  import opened Versions
  import opened PassRuns
  import Queue
  import Scaling

  function ServingPods(op: Instance, c: Store): set<nat> {
    set i | i in c.pods && c.pods[i].Serving? && c.pods[i].instance == op.name
  }

  /** What the loop is closed by: a reading lists at most the serving pods there are, a serving pod starts
      only while the Deployment asks for replicas, and nobody edits the spec. */
  ghost predicate Plausible(op: Instance, s: State, a: Action) {
    && !Edits(a)
    && (a.Work? && a.sig.read.Ok? ==> |a.sig.read.value| <= |ServingPods(op, s.c)|)
    && (a.World? && a.event.ServingPodStarts? ==> s.c.deployment.Some? && s.c.deployment.value.replicas > 0)
  }

  ghost predicate PlausibleRun(op: Instance, s: State, acts: seq<Action>)
    decreases |acts|
  {
    acts != [] ==> Plausible(op, s, acts[0]) && PlausibleRun(op, Step(op, s, acts[0]), acts[1..])
  }

  // ------------------------------------------------------------ zero persists

  predicate ZeroSpec(spec: Spec) {
    spec.replicas == 0 && (spec.autoscaling.Some? ==> spec.autoscaling.value.minReplicas == 0)
  }

  ghost predicate ZeroWorker(w: Worker) {
    match w
    case AddingFinalizer(md, _) => ZeroSpec(md.spec)
    case Finalizing(_, md, _) => ZeroSpec(md.spec)
    case Syncing(at, p) => ZeroSpec(p.md.spec) && (at == WritingSpec || Late(at) ==> p.decision.replicas == 0)
    case _ => true
  }

  predicate ZeroDeployment(c: Store) { c.deployment.Some? ==> c.deployment.value.replicas == 0 }

  /** Zero everywhere the worker can still read it from: in every version its cache may show, in its own
      copy, in the Deployment, and in the pods. */
  ghost predicate Zero(op: Instance, s: State) {
    && s.seen < |s.c.versions|
    && (forall i | s.seen <= i < |s.c.versions| && s.c.versions[i].Some? :: ZeroSpec(s.c.versions[i].value.spec))
    && ZeroDeployment(s.c) && ServingPods(op, s.c) == {} && ZeroWorker(s.w)
  }

  /** The one decision that leaves zero on an empty reading: a floor above zero, warm weights, and a metric
      that could be read. */
  lemma LeavingZero(md: Md, warm: bool, sig: Signals)
    requires md.spec.replicas == 0 && (sig.read.Ok? ==> sig.read.value == [])
    ensures DecideReplicas(md, warm, sig).replicas != 0 <==>
            && md.spec.autoscaling.Some? && md.spec.autoscaling.value.minReplicas >= 1
            && (warm || md.spec.cache.None?) && sig.read.Ok?
  {
    assert Queue.DepthOf(Ok([])) == Ok(0);
  }

  lemma SyncChildren(op: Instance, c: Store, v: Store, at: Phase, p: Pass, sig: Signals, pick: string)
    ensures var c' := SyncStep(op, c, v, at, p, sig, pick).0;
            && c'.pods == c.pods
            && (c'.deployment == c.deployment
                || (at == ApplyingDeployment && c'.deployment.Some?
                    && c'.deployment.value.replicas == p.decision.replicas))
  {
  }

  lemma SyncStaysZero(op: Instance, s: State, sig: Signals, pick: string)
    requires Zero(op, s) && s.w.Syncing? && Plausible(op, s, Work(sig, pick))
    ensures var (c', w') := SyncStep(op, s.c, s.v, s.w.at, s.w.pass, sig, pick); Zero(op, s.(c := c', w := w'))
  {
    var p := s.w.pass;
    SyncShape(op, s.c, s.v, s.w.at, p, sig, pick);
    SyncChildren(op, s.c, s.v, s.w.at, p, sig, pick);
    SamePods(op, s.c, SyncStep(op, s.c, s.v, s.w.at, p, sig, pick).0);
    if s.w.at == Deciding {
      LeavingZero(p.md, p.cache.warm, sig);
    }
  }

  lemma SamePods(op: Instance, c: Store, c': Store)
    requires c'.pods == c.pods
    ensures ServingPods(op, c') == ServingPods(op, c)
  {
  }

  lemma FinalizeShape(op: Instance, c: Store, v: Store, step: Teardown, md: Md, rv: nat)
    ensures var (c', w') := FinalizeStep(op, c, v, step, md, rv);
            && c'.pods == c.pods && (c'.deployment == c.deployment || c'.deployment.None?)
            && (w' == Idle || (w'.Finalizing? && w'.md == md))
            && (c'.versions == c.versions
                || (c'.versions == c.versions + [Current(c')]
                    && (Current(c').Some? ==> Current(c').value.spec == md.spec)))
  {
  }

  lemma OtherWorkStaysZero(op: Instance, s: State, sig: Signals, pick: string)
    requires Zero(op, s) && !s.w.Syncing?
    ensures var (c', w') := WorkerStep(op, s.c, s.v, s.w, sig, pick); Zero(op, s.(c := c', w := w'))
  {
    SamePods(op, s.c, WorkerStep(op, s.c, s.v, s.w, sig, pick).0);
    if s.w.Finalizing? {
      FinalizeShape(op, s.c, s.v, s.w.step, s.w.md, s.w.rv);
    }
  }

  lemma UserStaysZero(op: Instance, s: State, u: UserAction)
    requires Zero(op, s) && !Edits(User(u))
    ensures Zero(op, s.(c := UserStep(s.c, u)))
  {
    SamePods(op, s.c, UserStep(s.c, u));
  }

  lemma WorldStaysZero(op: Instance, s: State, e: WorldAction)
    requires Zero(op, s) && Plausible(op, s, World(e))
    ensures Zero(op, s.(c := WorldStep(op, s.c, e)))
  {
    WorldVersions(op, s.c, e);
    WorldPods(op, s.c, e);
  }

  lemma WorldPods(op: Instance, c: Store, e: WorldAction)
    requires !e.ServingPodStarts? && ServingPods(op, c) == {}
    ensures ServingPods(op, WorldStep(op, c, e)) == {}
    ensures ZeroDeployment(c) ==> ZeroDeployment(WorldStep(op, c, e))
  {
    var c' := WorldStep(op, c, e);
    forall i | i in c'.pods && c'.pods[i].Serving? && c'.pods[i].instance == op.name
      ensures false
    {
      assert i in ServingPods(op, c);
    }
  }

  lemma OthersStayZero(op: Instance, s: State, a: Action)
    requires Zero(op, s) && a.Others?
    ensures Zero(op, Step(op, s, a))
  {
    forall i | i in Step(op, s, a).c.pods && i in ServingPods(op, Step(op, s, a).c)
      ensures false
    {
      assert i in ServingPods(op, s.c);
    }
  }

  lemma StepStaysZero(op: Instance, s: State, a: Action)
    requires Zero(op, s) && Plausible(op, s, a)
    ensures Zero(op, Step(op, s, a))
  {
    match a
    case Work(sig, pick) =>
      if s.w.Syncing? {
        SyncStaysZero(op, s, sig, pick);
      } else {
        OtherWorkStaysZero(op, s, sig, pick);
      }
    case User(u) => UserStaysZero(op, s, u);
    case World(e) => WorldStaysZero(op, s, e);
    case Others(_, _, _) => OthersStayZero(op, s, a);
    case _ =>
  }

  /** Zero is for good: in every plausible run all of it persists. */
  lemma {:induction false} ZeroPersists(op: Instance, s: State, acts: seq<Action>)
    requires Zero(op, s) && PlausibleRun(op, s, acts)
    ensures Zero(op, Exec(op, s, acts))
    decreases |acts|
  {
    if acts != [] {
      StepStaysZero(op, s, acts[0]);
      ZeroPersists(op, Step(op, s, acts[0]), acts[1..]);
    }
  }

  // --------------------------------------------------------- an outdated count

  /** An instance without a cache, scaled to zero and at rest, whose later versions differ in the count
      alone. */
  ghost predicate AtZero(op: Instance, s: State, md: Md, a: Autoscaling) {
    && AtRest(s) && Current(s.c) == Some(md) && md.spec.replicas == 0 && md.spec.cache.None?
    && md.spec.autoscaling == Some(a) && a.minReplicas == 0
    && ZeroDeployment(s.c) && ServingPods(op, s.c) == {}
    && (forall i | s.seen <= i < |s.c.versions| :: Differs(s.c.versions[i], md))
  }

  /** A live version with the same spec up to the count. */
  predicate Differs(v: Option<Md>, md: Md) {
    && v.Some? && v.value.finalizer && !v.value.deleting
    && v.value.spec == md.spec.(replicas := v.value.spec.replicas)
  }

  const BLIND_CALL := Work(BLIND, "")

  /** Actions that are plausible wherever they happen. */
  predicate Harmless(a: Action) {
    a.Deliver? || a.Wake? || a.Fail? || a == BLIND_CALL || (a.World? && a.event.RollsOut?)
  }

  lemma {:induction false} HarmlessRun(op: Instance, s: State, acts: seq<Action>)
    requires forall i | 0 <= i < |acts| :: Harmless(acts[i])
    ensures PlausibleRun(op, s, acts)
    decreases |acts|
  {
    if acts != [] {
      HarmlessRun(op, Step(op, s, acts[0]), acts[1..]);
    }
  }

  lemma {:induction false} PlausibleConcat(op: Instance, s: State, a: seq<Action>, b: seq<Action>)
    requires PlausibleRun(op, s, a) && PlausibleRun(op, Exec(op, s, a), b)
    ensures PlausibleRun(op, s, a + b)
    decreases |a|
  {
    if a == [] {
      assert a + b == b;
    } else {
      assert (a + b)[1..] == a[1..] + b;
      PlausibleConcat(op, Step(op, s, a[0]), a[1..], b);
    }
  }

  lemma {:induction false} Above(ks: set<nat>) returns (bound: nat)
    ensures forall k | k in ks :: k < bound
    decreases ks
  {
    bound := 0;
    if ks != {} {
      var k :| k in ks;
      var rest := Above(ks - {k});
      bound := if k < rest then rest else k + 1;
      assert forall x | x in ks :: x == k || x in ks - {k};
    }
  }

  /** A pass over a version that still asks for replicas, blind to the queue, applies them and fails. */
  lemma FourCalls(op: Instance, s: State, p: Pass)
    requires s.w == Syncing(EnsuringClaim, p) && p.md.spec.cache.None?
    ensures var s' := Exec(op, s, [BLIND_CALL, BLIND_CALL] + [BLIND_CALL, BLIND_CALL] + [Fail]);
            && s'.w == Idle && s'.seen == s.seen && s'.c.versions == s.c.versions && s'.c.pods == s.c.pods
            && s'.c.deployment.Some? && s'.c.deployment.value.replicas == p.md.spec.replicas
            && s'.c.deployment.value.template in s'.c.rollouts
  {
    var two := [BLIND_CALL, BLIND_CALL];
    ExecConcat(op, s, two + two, [Fail]);
    ExecConcat(op, s, two, two);
    TwoSteps(op, s, BLIND_CALL, BLIND_CALL);
    var s2 := Exec(op, s, two);
    var q := p.(cache := NO_CACHE);
    assert s2 == s.(w := Syncing(WritingSpec, q.(decision := DecideReplicas(p.md, false, BLIND))));
    TwoSteps(op, s2, BLIND_CALL, BLIND_CALL);
    ExecOne(op, Exec(op, s2, two), Fail);
  }

  lemma OutdatedApply(op: Instance, s: State, i: nat) returns (acts: seq<Action>)
    requires AtRest(s) && s.seen <= i < |s.c.versions| && s.c.versions[i].Some?
    requires var md := s.c.versions[i].value; md.finalizer && !md.deleting && md.spec.cache.None?
    ensures PlausibleRun(op, s, acts)
    ensures var s' := Exec(op, s, acts);
            && AtRest(s') && s'.c.versions == s.c.versions && s'.c.pods == s.c.pods
            && s'.c.deployment.Some? && s'.c.deployment.value.replicas == s.c.versions[i].value.spec.replicas
            && s'.c.deployment.value.template in s'.c.rollouts
  {
    var wake := [Deliver(i), Wake];
    var calls := [BLIND_CALL, BLIND_CALL] + [BLIND_CALL, BLIND_CALL] + [Fail];
    TwoSteps(op, s, Deliver(i), Wake);
    var woken := Exec(op, s, wake);
    FourCalls(op, woken, woken.w.pass);
    ExecConcat(op, s, wake, calls);
    acts := wake + calls;
    HarmlessRun(op, s, acts);
  }

  /** The Deployment that asks for replicas gets a serving pod. */
  lemma PodAppears(op: Instance, s: State) returns (acts: seq<Action>)
    requires AtRest(s) && s.c.deployment.Some? && s.c.deployment.value.replicas > 0
    requires s.c.deployment.value.template in s.c.rollouts
    ensures PlausibleRun(op, s, acts)
    ensures var s' := Exec(op, s, acts);
            AtRest(s') && s'.c.versions == s.c.versions && |ServingPods(op, s'.c)| >= 1
  {
    var t := s.c.deployment.value.template;
    var id := Above(s.c.pods.Keys);
    var roll, start := World(RollsOut(t)), World(ServingPodStarts(id, t));
    var rolled := Step(op, s, roll);
    acts := [roll] + [start];
    HarmlessRun(op, s, [roll]);
    ExecOne(op, s, roll);
    ExecConcat(op, s, [roll], [start]);
    ExecOne(op, rolled, start);
    assert PlausibleRun(op, rolled, [start]) by {
      assert [start][1..] == [];
    }
    PlausibleConcat(op, s, [roll], [start]);
    var end := Exec(op, s, acts);
    assert id in ServingPods(op, end.c);
    assert {id} <= ServingPods(op, end.c);
    Subset({id}, ServingPods(op, end.c));
  }

  lemma Subset(a: set<nat>, b: set<nat>)
    requires a <= b
    ensures |a| <= |b|
  {
    assert b == a + (b - a);
  }

  /** One request waiting, read when every window is open. */
  function OneWaiting(md: Md, a: Autoscaling): Signals {
    Signals(Ok([1000]), (if LastScale(md.status).Some? then LastScale(md.status).value else 0) + a.scaleUpSeconds * SECOND, 0)
  }

  lemma OneWaitingScales(md: Md, a: Autoscaling)
    requires md.spec.replicas == 0 && md.spec.cache.None? && md.spec.autoscaling == Some(a) && a.minReplicas == 0
    ensures DecideReplicas(md, false, OneWaiting(md, a)).replicas == 1
  {
    var values: seq<int64> := [1000];
    assert values[..0] == [];
    assert Queue.WholeRequests(values) == Queue.WholeRequests([]) + TruncDiv(1000, 1000);
    assert Queue.DepthOf(Ok(values)) == Ok(1);
    Scaling.CeilDivExact(1, a.targetQueueDepth);
    Scaling.CeilDivAbove(1, a.targetQueueDepth, 0);
    Scaling.CeilDivAbove(1, a.targetQueueDepth, 1);
    assert Scaling.Target(PolicyOf(a), 1) == 1;
  }

  lemma ReadsOne(op: Instance, s: State, sig: Signals)
    requires sig.read.Ok? && |sig.read.value| == 1 && |ServingPods(op, s.c)| >= 1
    ensures PlausibleRun(op, s, [Work(sig, "")] + [BLIND_CALL])
  {
    var rest := [BLIND_CALL];
    assert ([Work(sig, "")] + rest)[1..] == rest;
    HarmlessRun(op, Step(op, s, Work(sig, "")), rest);
  }

  lemma DecidesAndWrites(op: Instance, s: State, md: Md, sig: Signals)
    requires Current(s.c) == Some(md) && s.w == Syncing(Deciding, FreshPass(s.c))
    requires DecideReplicas(md, false, sig).replicas == 1 && md.spec.replicas == 0
    ensures var s' := Exec(op, s, [Work(sig, "")] + [BLIND_CALL]);
            Current(s'.c).Some? && Current(s'.c).value.spec.replicas == 1
  {
    ExecConcat(op, s, [Work(sig, "")], [BLIND_CALL]);
    ExecOne(op, s, Work(sig, ""));
    var writing := Step(op, s, Work(sig, ""));
    assert writing == s.(w := Syncing(WritingSpec, FreshPass(s.c).(decision := DecideReplicas(md, false, sig))));
    ExecOne(op, writing, BLIND_CALL);
  }

  /** An up-to-date pass that reads a pod with a waiting request stores a positive count. */
  lemma ReadsAndScales(op: Instance, s: State, md: Md, a: Autoscaling) returns (acts: seq<Action>)
    requires AtRest(s) && Current(s.c) == Some(md) && md.finalizer && !md.deleting && md.spec.cache.None?
    requires md.spec.replicas == 0 && md.spec.autoscaling == Some(a) && a.minReplicas == 0
    requires |ServingPods(op, s.c)| >= 1
    ensures PlausibleRun(op, s, acts)
    ensures Current(Exec(op, s, acts).c).Some? && Current(Exec(op, s, acts).c).value.spec.replicas == 1
  {
    var sig := OneWaiting(md, a);
    OneWaitingScales(md, a);
    WakesUp(op, s);
    var wake := WakeUp(s);
    var first, rest := wake + [BLIND_CALL], [Work(sig, "")] + [BLIND_CALL];
    HarmlessRun(op, s, first);
    ExecConcat(op, s, wake, [BLIND_CALL]);
    var woken := Exec(op, s, wake);
    ExecOne(op, woken, BLIND_CALL);
    var deciding := Exec(op, s, first);
    assert deciding == woken.(w := Syncing(Deciding, FreshPass(s.c)));
    SamePods(op, s.c, deciding.c);
    ReadsOne(op, deciding, sig);
    DecidesAndWrites(op, deciding, md, sig);
    PlausibleConcat(op, s, first, rest);
    ExecConcat(op, s, first, rest);
    acts := first + rest;
  }

  /** An outdated count brings the instance back: it is applied, a pod starts, and the pod is read. */
  lemma OutdatedCountRevives(op: Instance, s: State, md: Md, a: Autoscaling, i: nat) returns (acts: seq<Action>)
    requires AtZero(op, s, md, a) && s.seen <= i < |s.c.versions| && s.c.versions[i].value.spec.replicas > 0
    ensures PlausibleRun(op, s, acts)
    ensures Current(Exec(op, s, acts).c).Some? && Current(Exec(op, s, acts).c).value.spec.replicas == 1
  {
    assert Differs(s.c.versions[i], md) && Differs(s.c.versions[|s.c.versions| - 1], md);
    var apply := OutdatedApply(op, s, i);
    var s1 := Exec(op, s, apply);
    var pod := PodAppears(op, s1);
    PlausibleConcat(op, s, apply, pod);
    ExecConcat(op, s, apply, pod);
    var s2 := Exec(op, s, apply + pod);
    var scale := ReadsAndScales(op, s2, md, a);
    PlausibleConcat(op, s, apply + pod, scale);
    ExecConcat(op, s, apply + pod, scale);
    acts := apply + pod + scale;
  }

  /** The exact condition: an instance at zero stays there in every plausible run if and only if every
      version its cache may still show asks for zero as well. */
  lemma ZeroPersistsIff(op: Instance, s: State, md: Md, a: Autoscaling)
    requires AtZero(op, s, md, a)
    ensures (forall acts | PlausibleRun(op, s, acts) ::
               var v := Current(Exec(op, s, acts).c); v.Some? ==> v.value.spec.replicas == 0)
            <==> forall i | s.seen <= i < |s.c.versions| :: s.c.versions[i].value.spec.replicas == 0
  {
    if forall i | s.seen <= i < |s.c.versions| :: s.c.versions[i].value.spec.replicas == 0 {
      forall i | s.seen <= i < |s.c.versions| && s.c.versions[i].Some?
        ensures ZeroSpec(s.c.versions[i].value.spec)
      {
        assert Differs(s.c.versions[i], md);
      }
      assert Zero(op, s);
      forall acts | PlausibleRun(op, s, acts)
        ensures var v := Current(Exec(op, s, acts).c); v.Some? ==> v.value.spec.replicas == 0
      {
        ZeroPersists(op, s, acts);
      }
    } else {
      var i :| s.seen <= i < |s.c.versions| && s.c.versions[i].value.spec.replicas != 0;
      var acts := OutdatedCountRevives(op, s, md, a, i);
      assert PlausibleRun(op, s, acts);
    }
  }

  const SLEEPY := Autoscaling(0, 8, 4, 60, 900, 2)

  const NO_PODS := Signals(Ok([]), 0, 0)

  lemma DecidesZero(md: Md)
    requires md.spec.replicas == 1 && md.spec.cache.None? && md.spec.autoscaling == Some(SLEEPY)
    requires md.status.lastScaleSecond.None?
    ensures DecideReplicas(md, false, NO_PODS).replicas == 0
  {
    assert Queue.DepthOf(Ok([])) == Ok(0);
  }

  lemma FirstPassToZero(op: Instance, c: Store, md: Md)
    requires Current(c) == Some(md) && md.finalizer && !md.deleting && md.status.lastScaleSecond.None?
    requires md.spec.replicas == 1 && md.spec.cache.None? && md.spec.autoscaling == Some(SLEEPY)
    ensures var after := SyncPass(op, c, FreshPass(c), NO_PODS).store;
            && after.pods == c.pods && ZeroDeployment(after)
            && Appended(c.versions, after.versions, md, 0) && |after.versions| > |c.versions|
  {
    DecidesZero(md);
    SyncCompletes(op, c, FreshPass(c), NO_PODS);
    SyncAppends(op, c, FreshPass(c), NO_PODS);
  }

  /** Such an instance is reached from nothing: its first pass finds no pods and scales from one to zero,
      while its cache still shows the version that asks for one. */
  lemma ReachesZero(op: Instance, identity: Identity) returns (acts: seq<Action>, md: Md)
    ensures Initial(op, EMPTY)
    ensures var s := Exec(op, EMPTY, acts);
            AtZero(op, s, md, SLEEPY) && s.c.versions[s.seen].value.spec.replicas == 1
  {
    var spec := Spec(identity, 1, None, Some(SLEEPY), 1);
    var creation := Created(op, EMPTY, spec);
    var s := Exec(op, EMPTY, creation);
    var md0 := Md(spec, EMPTY_STATUS, 1, true, false, false);
    var pass := PassRun(op, s, NO_PODS);
    ExecConcat(op, EMPTY, creation, pass);
    acts := creation + pass;
    FirstPassToZero(op, s.c, md0);
    md := Current(Exec(op, s, pass).c).value;
    LeftAtZero(op, s, Exec(op, s, pass), md0, md);
  }

  lemma LeftAtZero(op: Instance, s: State, s': State, md0: Md, md: Md)
    requires s.c.versions != [] && Current(s.c) == Some(md0) && s.c.pods == map[] && md0.finalizer && !md0.deleting
    requires md0.spec.cache.None? && md0.spec.autoscaling == Some(SLEEPY)
    requires AtRest(s') && s'.seen == |s.c.versions| - 1 && s'.c.pods == s.c.pods && ZeroDeployment(s'.c)
    requires Appended(s.c.versions, s'.c.versions, md0, 0) && |s'.c.versions| > |s.c.versions|
    requires Current(s'.c) == Some(md)
    ensures AtZero(op, s', md, SLEEPY) && s'.c.versions[s'.seen] == Some(md0)
  {
    assert s'.c.versions[s'.seen] == s'.c.versions[..|s.c.versions|][s'.seen];
    assert ServingPods(op, s'.c) == {};
  }
}
