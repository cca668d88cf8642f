/** What one pass observed and the status it makes of it: internal/controller/status.go. */
module StatusModel {
  import opened Api

  /** What the pass learned about the weight cache. */
  datatype CacheState = CacheState(enabled: bool, warm: bool, failed: bool)

  /** What the Deployment controller made of the spec; `present` is false for no Deployment. */
  datatype Workload = Workload(replicas: int32, readyReplicas: int32, present: bool)

  /** The fields of the status builder, with the object's generation, replica count and selector. */
  datatype Observed = Observed(
    generation: nat, desired: int32, selector: map<string, string>, cacheKey: string,
    cache: CacheState, workload: Workload, paused: bool,
    queueDepth: int32, lastScale: Option<int>, scaleErr: bool)

  datatype Verdict = Verdict(status: bool, reason: string)

  const WEIGHTS_CACHED := "WeightsCached"
  const READY := "Ready"
  const DEGRADED := "Degraded"

  function WeightsCached(o: Observed): Verdict {
    if !o.cache.enabled then Verdict(false, "CacheDisabled")
    else if o.cache.failed then Verdict(false, "WarmJobFailed")
    else if o.cache.warm then Verdict(true, "Cached")
    else Verdict(false, "Warming")
  }

  function Ready(o: Observed): Verdict {
    if o.desired == 0 then Verdict(false, "ScaledToZero")
    else if o.paused then Verdict(false, "WaitingForWeights")
    else if o.workload.present && o.workload.readyReplicas >= o.desired then Verdict(true, "ReplicasReady")
    else Verdict(false, "ReplicasUnavailable")
  }

  function Degraded(o: Observed): Verdict {
    if o.cache.failed then Verdict(true, "WarmJobFailed")
    else if o.scaleErr then Verdict(true, "QueueMetricUnavailable")
    else Verdict(false, "AsExpected")
  }

  /** The three verdicts in the order build reports them. */
  function Verdicts(o: Observed): seq<(string, Verdict)> {
    [(WEIGHTS_CACHED, WeightsCached(o)), (READY, Ready(o)), (DEGRADED, Degraded(o))]
  }

  function Find(cs: seq<Condition>, kind: string): Option<Condition> {
    if cs == [] then None
    else if cs[0].kind == kind then Some(cs[0])
    else Find(cs[1..], kind)
  }

  /** By index: nothing found means no condition of the kind, and the one found is the first. */
  lemma {:induction false} FindByIndex(cs: seq<Condition>, kind: string)
    ensures Find(cs, kind).None? <==> forall i | 0 <= i < |cs| :: cs[i].kind != kind
    ensures Find(cs, kind).Some? ==>
              exists i :: 0 <= i < |cs| && cs[i] == Find(cs, kind).value && cs[i].kind == kind
                          && forall j | 0 <= j < i :: cs[j].kind != kind
  {
    if cs != [] && cs[0].kind != kind {
      var tail := cs[1..];
      FindByIndex(tail, kind);
      assert forall i | 1 <= i < |cs| :: cs[i] == tail[i - 1];
      if Find(tail, kind).Some? {
        var i :| 0 <= i < |tail| && tail[i] == Find(tail, kind).value && tail[i].kind == kind
                 && forall j | 0 <= j < i :: tail[j].kind != kind;
        assert cs[i + 1] == tail[i];
      }
    }
  }

  /** Kubernetes' SetStatusCondition: updates the first condition of the kind or appends one; the
      transition time moves only with the status. */
  function SetCondition(cs: seq<Condition>, kind: string, v: Verdict, generation: nat, wall: int): seq<Condition> {
    if cs == [] then
      [Condition(kind, v.status, v.reason, generation, wall)]
    else if cs[0].kind == kind then
      [Condition(kind, v.status, v.reason, generation,
                 if cs[0].status != v.status then wall else cs[0].lastTransition)] + cs[1..]
    else
      [cs[0]] + SetCondition(cs[1..], kind, v, generation, wall)
  }

  function SetAll(cs: seq<Condition>, vs: seq<(string, Verdict)>, generation: nat, wall: int): seq<Condition> {
    if vs == [] then cs
    else SetCondition(SetAll(cs, vs[..|vs| - 1], generation, wall),
                      vs[|vs| - 1].0, vs[|vs| - 1].1, generation, wall)
  }

  function BuildStatus(prev: Status, o: Observed, wall: int): Status {
    Status(o.generation, SetAll(prev.conditions, Verdicts(o), o.generation, wall), o.cacheKey,
           o.workload.replicas, o.workload.readyReplicas, o.queueDepth,
           if o.lastScale.Some? then o.lastScale else prev.lastScaleSecond, o.selector)
  }

  // ----------------------------------------------------------------- verdicts

  /** The link between the pause and the cache that sync establishes. */
  predicate FromSync(o: Observed) {
    && (o.paused <==> o.cache.enabled && !o.cache.warm)
    && (o.cache.failed || o.cache.warm ==> o.cache.enabled)
  }

  /** The conditions say exactly what the gate does. The two disagree in one case only: a Job that
      reports both a success and a failure releases the rollout but counts as not cached. */
  lemma StatusAgreesWithGate(o: Observed)
    requires FromSync(o)
    ensures Ready(o).status <==>
            && o.desired != 0 && !o.paused && o.workload.present
            && o.workload.readyReplicas >= o.desired
    ensures Ready(o).status ==> !o.cache.enabled || o.cache.warm
    ensures WeightsCached(o).status <==> o.cache.enabled && !o.paused && !o.cache.failed
    ensures Degraded(o).status <==> o.cache.failed || o.scaleErr
    ensures o.cache.failed ==> !WeightsCached(o).status && Degraded(o) == Verdict(true, "WarmJobFailed")
    ensures WeightsCached(o).reason == "Warming" <==> o.paused && !o.cache.failed
    ensures WeightsCached(o).reason == "CacheDisabled" <==> !o.cache.enabled
    ensures Ready(o).reason == "WaitingForWeights" <==> o.desired != 0 && o.paused
    ensures Ready(o).reason == "ScaledToZero" <==> o.desired == 0
    ensures Degraded(o).reason == "QueueMetricUnavailable" <==> o.scaleErr && !o.cache.failed
    ensures WeightsCached(o).reason == "Cached" <==> WeightsCached(o).status
    ensures WeightsCached(o).reason == "WarmJobFailed" <==> o.cache.failed
    ensures Ready(o).reason == "ReplicasReady" <==> Ready(o).status
    ensures Ready(o).reason == "ReplicasUnavailable" <==>
            o.desired != 0 && !o.paused && !(o.workload.present && o.workload.readyReplicas >= o.desired)
    ensures Degraded(o).reason == "WarmJobFailed" <==> o.cache.failed
    ensures Degraded(o).reason == "AsExpected" <==> !o.cache.failed && !o.scaleErr
  {
    assert |"Cached"| != |"CacheDisabled"| && |"Cached"| != |"WarmJobFailed"|;
    assert |"ReplicasReady"| != |"ReplicasUnavailable"| && |"ScaledToZero"| != |"ReplicasUnavailable"|;
    assert |"WarmJobFailed"| != |"AsExpected"|;
    assert |"Warming"| != |"CacheDisabled"| && |"Warming"| != |"Cached"| && "Warming"[1] == 'a';
    assert |"ReplicasReady"| != |"WaitingForWeights"| && |"ReplicasUnavailable"| != |"WaitingForWeights"|;
    assert |"ReplicasReady"| != |"ScaledToZero"|;
    assert |"WarmJobFailed"| != |"QueueMetricUnavailable"| && |"AsExpected"| != |"QueueMetricUnavailable"|;
    assert "WarmJobFailed"[0] != "CacheDisabled"[0] && |"WarmJobFailed"| != |"Warming"|;
  }

  // --------------------------------------------------------------- conditions

  lemma {:induction false} FindSet(
    cs: seq<Condition>, kind: string, v: Verdict, generation: nat, wall: int, other: string)
    ensures Find(SetCondition(cs, kind, v, generation, wall), other) ==
            if other != kind then Find(cs, other)
            else Some(Condition(kind, v.status, v.reason, generation,
                                if Find(cs, kind).Some? && Find(cs, kind).value.status == v.status
                                then Find(cs, kind).value.lastTransition else wall))
  {
    if cs != [] && cs[0].kind != kind {
      FindSet(cs[1..], kind, v, generation, wall, other);
      var tail := SetCondition(cs[1..], kind, v, generation, wall);
      assert ([cs[0]] + tail)[1..] == tail;
    } else if cs != [] {
      var next := SetCondition(cs, kind, v, generation, wall);
      assert next[1..] == cs[1..];
    }
  }

  lemma {:induction false} SetNoop(cs: seq<Condition>, kind: string, v: Verdict, generation: nat, wall: int)
    requires var c := Find(cs, kind);
             c.Some? && c.value.status == v.status && c.value.reason == v.reason
             && c.value.observedGeneration == generation
    ensures SetCondition(cs, kind, v, generation, wall) == cs
  {
    if cs[0].kind != kind {
      SetNoop(cs[1..], kind, v, generation, wall);
    }
    assert cs == [cs[0]] + cs[1..];
  }

  function Kinds(cs: seq<Condition>): seq<string> {
    seq(|cs|, i requires 0 <= i < |cs| => cs[i].kind)
  }

  ghost predicate OnePerKind(cs: seq<Condition>) {
    forall i, j | 0 <= i < j < |cs| :: cs[i].kind != cs[j].kind
  }

  lemma {:induction false} AbsentKind(cs: seq<Condition>, kind: string)
    ensures Find(cs, kind).None? ==> forall i | 0 <= i < |cs| :: cs[i].kind != kind
  {
    if cs != [] {
      AbsentKind(cs[1..], kind);
      assert forall i | 1 <= i < |cs| :: cs[i] == cs[1..][i - 1];
    }
  }

  lemma KindsCons(c: Condition, tail: seq<Condition>)
    ensures Kinds([c] + tail) == [c.kind] + Kinds(tail)
  {
  }

  lemma KindsOfSetHead(c: Condition, tail: seq<Condition>, v: Verdict, generation: nat, wall: int)
    ensures Kinds(SetCondition([c] + tail, c.kind, v, generation, wall)) == Kinds([c] + tail)
  {
    var next := SetCondition([c] + tail, c.kind, v, generation, wall);
    assert ([c] + tail)[1..] == tail;
    assert next == [next[0]] + tail;
    KindsCons(next[0], tail);
    KindsCons(c, tail);
  }

  /** Setting a kind keeps the order of the others and adds it at most once. */
  lemma {:induction false} SetKinds(cs: seq<Condition>, kind: string, v: Verdict, generation: nat, wall: int)
    ensures Kinds(SetCondition(cs, kind, v, generation, wall))
            == if Find(cs, kind).Some? then Kinds(cs) else Kinds(cs) + [kind]
  {
    if cs != [] && cs[0].kind != kind {
      SetKinds(cs[1..], kind, v, generation, wall);
      var tail := SetCondition(cs[1..], kind, v, generation, wall);
      KindsCons(cs[0], tail);
      KindsCons(cs[0], cs[1..]);
      assert cs == [cs[0]] + cs[1..];
    } else if cs != [] {
      assert cs == [cs[0]] + cs[1..];
      KindsOfSetHead(cs[0], cs[1..], v, generation, wall);
    }
  }

  lemma SetOnePerKind(cs: seq<Condition>, kind: string, v: Verdict, generation: nat, wall: int)
    requires OnePerKind(cs)
    ensures OnePerKind(SetCondition(cs, kind, v, generation, wall))
  {
    var next := SetCondition(cs, kind, v, generation, wall);
    SetKinds(cs, kind, v, generation, wall);
    AbsentKind(cs, kind);
    assert forall i | 0 <= i < |next| :: next[i].kind == Kinds(next)[i];
    assert forall i | 0 <= i < |cs| :: cs[i].kind == Kinds(cs)[i];
  }

  // -------------------------------------------------------------------- build

  function VerdictOf(o: Observed, kind: string): Verdict {
    if kind == WEIGHTS_CACHED then WeightsCached(o) else if kind == READY then Ready(o) else Degraded(o)
  }

  predicate Reported(kind: string) { kind in [WEIGHTS_CACHED, READY, DEGRADED] }

  lemma KindsDistinct()
    ensures WEIGHTS_CACHED != READY && READY != DEGRADED && WEIGHTS_CACHED != DEGRADED
  {
    assert |WEIGHTS_CACHED| != |READY| && |READY| != |DEGRADED| && |WEIGHTS_CACHED| != |DEGRADED|;
  }

  /** build as three successive updates. */
  lemma BuildUnfolds(prev: Status, o: Observed, wall: int)
    ensures BuildStatus(prev, o, wall).conditions ==
            SetCondition(SetCondition(SetCondition(prev.conditions,
              WEIGHTS_CACHED, WeightsCached(o), o.generation, wall),
              READY, Ready(o), o.generation, wall),
              DEGRADED, Degraded(o), o.generation, wall)
  {
    var vs := Verdicts(o);
    assert vs[..2][..1] == vs[..1] && vs[..1][..0] == [];
    assert SetAll(prev.conditions, vs[..1], o.generation, wall)
        == SetCondition(SetAll(prev.conditions, [], o.generation, wall), vs[0].0, vs[0].1, o.generation, wall);
    assert SetAll(prev.conditions, vs[..2], o.generation, wall)
        == SetCondition(SetAll(prev.conditions, vs[..1], o.generation, wall), vs[1].0, vs[1].1, o.generation, wall);
  }

  /** Every reported kind carries its verdict, this generation, and a transition time that moves only
      when the status flips; conditions of other writers are left alone. */
  lemma BuildConditions(prev: Status, o: Observed, wall: int, kind: string)
    ensures var next := BuildStatus(prev, o, wall).conditions;
            var before := Find(prev.conditions, kind);
            if Reported(kind) then
              Find(next, kind) == Some(Condition(
                kind, VerdictOf(o, kind).status, VerdictOf(o, kind).reason, o.generation,
                if before.Some? && before.value.status == VerdictOf(o, kind).status
                then before.value.lastTransition else wall))
            else Find(next, kind) == before
  {
    KindsDistinct();
    BuildUnfolds(prev, o, wall);
    var c1 := SetCondition(prev.conditions, WEIGHTS_CACHED, WeightsCached(o), o.generation, wall);
    var c2 := SetCondition(c1, READY, Ready(o), o.generation, wall);
    FindSet(prev.conditions, WEIGHTS_CACHED, WeightsCached(o), o.generation, wall, kind);
    FindSet(c1, READY, Ready(o), o.generation, wall, kind);
    FindSet(c2, DEGRADED, Degraded(o), o.generation, wall, kind);
  }

  /** One condition per kind, kept from one status to the next; from an empty status exactly the
      three reported kinds. */
  lemma BuildOnePerKind(prev: Status, o: Observed, wall: int)
    requires OnePerKind(prev.conditions)
    ensures OnePerKind(BuildStatus(prev, o, wall).conditions)
    ensures prev.conditions == [] ==>
              Kinds(BuildStatus(prev, o, wall).conditions) == [WEIGHTS_CACHED, READY, DEGRADED]
  {
    KindsDistinct();
    BuildUnfolds(prev, o, wall);
    var c1 := SetCondition(prev.conditions, WEIGHTS_CACHED, WeightsCached(o), o.generation, wall);
    var c2 := SetCondition(c1, READY, Ready(o), o.generation, wall);
    SetOnePerKind(prev.conditions, WEIGHTS_CACHED, WeightsCached(o), o.generation, wall);
    SetOnePerKind(c1, READY, Ready(o), o.generation, wall);
    SetOnePerKind(c2, DEGRADED, Degraded(o), o.generation, wall);
    if prev.conditions == [] {
      SetKinds([], WEIGHTS_CACHED, WeightsCached(o), o.generation, wall);
      SetKinds(c1, READY, Ready(o), o.generation, wall);
      SetKinds(c2, DEGRADED, Degraded(o), o.generation, wall);
      FindSet([], WEIGHTS_CACHED, WeightsCached(o), o.generation, wall, READY);
      FindSet([], WEIGHTS_CACHED, WeightsCached(o), o.generation, wall, DEGRADED);
      FindSet(c1, READY, Ready(o), o.generation, wall, DEGRADED);
    }
  }

  /** Building again from its own output changes nothing, at any later wall clock, whether or not the
      second pass scaled as well. */
  lemma BuildIdempotent(prev: Status, o: Observed, wall: int, later: int)
    ensures BuildStatus(BuildStatus(prev, o, wall), o, later) == BuildStatus(prev, o, wall)
    ensures BuildStatus(BuildStatus(prev, o, wall), o.(lastScale := None), later) == BuildStatus(prev, o, wall)
  {
    var next := BuildStatus(prev, o, wall);
    BuildConditions(prev, o, wall, WEIGHTS_CACHED);
    BuildConditions(prev, o, wall, READY);
    BuildConditions(prev, o, wall, DEGRADED);
    KindsDistinct();
    BuildUnfolds(next, o, later);
    BuildUnfolds(next, o.(lastScale := None), later);
    SetNoop(next.conditions, WEIGHTS_CACHED, WeightsCached(o), o.generation, later);
    SetNoop(next.conditions, READY, Ready(o), o.generation, later);
    SetNoop(next.conditions, DEGRADED, Degraded(o), o.generation, later);
  }

  // --------------------------------------------------------------------- runs

  /** The status after a sequence of passes. */
  function Builds(prev: Status, passes: seq<(Observed, int)>): Status {
    if passes == [] then prev
    else BuildStatus(Builds(prev, passes[..|passes| - 1]), passes[|passes| - 1].0, passes[|passes| - 1].1)
  }

  function ConditionAfter(prev: Status, passes: seq<(Observed, int)>, kind: string): Option<Condition> {
    Find(Builds(prev, passes).conditions, kind)
  }

  lemma LastPass(prev: Status, passes: seq<(Observed, int)>, kind: string)
    requires Reported(kind) && passes != []
    ensures var last := |passes| - 1;
            var before, after := ConditionAfter(prev, passes[..last], kind), ConditionAfter(prev, passes, kind);
            && after.Some? && after.value.status == VerdictOf(passes[last].0, kind).status
            && after.value.lastTransition == if before.Some? && before.value.status == after.value.status
                                             then before.value.lastTransition else passes[last].1
  {
    var last := |passes| - 1;
    BuildConditions(Builds(prev, passes[..last]), passes[last].0, passes[last].1, kind);
  }

  /** Over any run a transition time stands still as long as its status does, whatever else the
      passes observe. */
  lemma {:induction false} TransitionTimeStable(prev: Status, passes: seq<(Observed, int)>, kind: string, n: nat)
    requires Reported(kind) && 1 <= n <= |passes|
    requires forall i | n <= i < |passes| ::
               VerdictOf(passes[i].0, kind).status == VerdictOf(passes[n - 1].0, kind).status
    ensures var early, late := ConditionAfter(prev, passes[..n], kind), ConditionAfter(prev, passes, kind);
            && early.Some? && late.Some?
            && late.value.status == early.value.status == VerdictOf(passes[n - 1].0, kind).status
            && late.value.lastTransition == early.value.lastTransition
    decreases |passes|
  {
    LastPass(prev, passes, kind);
    if n < |passes| {
      var shorter := passes[..|passes| - 1];
      assert shorter[..n] == passes[..n];
      TransitionTimeStable(prev, shorter, kind, n);
    } else {
      assert passes[..n] == passes;
    }
  }
}
