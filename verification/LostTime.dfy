/** The scale time is written after the replica count, in a call of its own. A pass that ends in between
    loses it, and the next pass scales again inside the window. */
module LostTime {
  import opened Api
  import opened Cluster
  import opened Reconcile
  import opened Protocol
  import opened PassLaws
  import opened PassRuns
  import opened ScalingRuns
  import opened ScalingSystem
  import Queue
  import Scaling

  /** An object without a cache, at rest and up to date. */
  ghost predicate Scalable(s: State, md: Md) {
    && AtRest(s) && Current(s.c) == Some(md) && md.finalizer && !md.deleting && md.spec.cache.None?
  }

  lemma ThreeCalls(op: Instance, s: State, md: Md, sig: Signals)
    requires Current(s.c) == Some(md) && md.spec.cache.None?
    requires s.w == Syncing(EnsuringClaim, FreshPass(s.c)) && DecideReplicas(md, false, sig).replicas != md.spec.replicas
    ensures var s' := Exec(op, s, [Work(sig, ""), Work(sig, "")] + [Work(sig, ""), Fail]);
            s' == s.(c := PutMd(s.c, Some(WithReplicas(md, DecideReplicas(md, false, sig).replicas))), w := Idle)
  {
    var call := Work(sig, "");
    var s1 := Step(op, s, call);
    assert s1 == s.(w := Syncing(Deciding, FreshPass(s.c)));
    var s2 := Step(op, s1, call);
    assert s2.w == Syncing(WritingSpec, FreshPass(s.c).(decision := DecideReplicas(md, false, sig)));
    ExecConcat(op, s, [call, call], [call, Fail]);
    TwoSteps(op, s, call, call);
    TwoSteps(op, s2, call, Fail);
  }

  /** A pass that wrote its decision and then failed: the count moved and the time did not, which is the
      unrecorded pass of the timed system. */
  lemma ScalesAndFails(op: Instance, s: State, md: Md, a: Autoscaling, sig: Signals) returns (acts: seq<Action>)
    requires Scalable(s, md) && md.spec.autoscaling == Some(a)
    requires DecideReplicas(md, false, sig).replicas != md.spec.replicas
    ensures Unedited(acts, sig.now, sig.now)
    ensures var d := DecideReplicas(md, false, sig);
            var s' := Exec(op, s, acts);
            && s'.c == PutMd(s.c, Some(WithReplicas(md, d.replicas)))
            && Scalable(s', WithReplicas(md, d.replicas))
            && LoopOf(WithReplicas(md, d.replicas)) == ScalingRuns.Pass(
                 LoopOf(md), Observation(PolicyOf(a), Queue.DepthOf(sig.read), true, sig.now, false))
  {
    WakesUp(op, s);
    var wake := WakeUp(s);
    var calls := [Work(sig, ""), Work(sig, "")] + [Work(sig, ""), Fail];
    ThreeCalls(op, Exec(op, s, wake), md, sig);
    ExecConcat(op, s, wake, calls);
    acts := wake + calls;
  }

  // ----------------------------------------------------------------- example

  const POLICY := Autoscaling(1, 8, 4, 60, 900, 2)

  function Reading(now: int): Signals { Signals(Ok([400_000]), now, 0) }

  lemma ReadingIs400(now: int)
    ensures Queue.DepthOf(Reading(now).read) == Ok(400)
  {
    var values: seq<int64> := [400_000];
    assert values[..0] == [];
    assert Queue.WholeRequests(values) == Queue.WholeRequests([]) + TruncDiv(400_000, 1000);
  }

  /** Without a recorded time every pass may add two replicas. */
  lemma AddsTwo(md: Md, now: int)
    requires md.spec.autoscaling == Some(POLICY) && md.spec.cache.None?
    requires md.status.lastScaleSecond.None? && 1 <= md.spec.replicas <= 6
    ensures DecideReplicas(md, false, Reading(now)).replicas == md.spec.replicas + 2
  {
    ReadingIs400(now);
    assert Scaling.Target(PolicyOf(POLICY), 400) == 8;
  }

  lemma TurnsTwice(vs: seq<Option<Md>>, a: Md, b: Md)
    requires |vs| >= 1 && vs[|vs| - 1].Some? && vs[|vs| - 1].value.spec.replicas < a.spec.replicas < b.spec.replicas
    ensures Turns(vs + [Some(a)] + [Some(b)], |vs|, true) == 2
  {
    TurnsSnoc(vs, Some(a), |vs|, true);
    TurnsSnoc(vs + [Some(a)], Some(b), |vs|, true);
  }

  /** A run from nothing in which the version list turns up twice within one second, on a window of
      sixty. */
  lemma TwoMovesInOneWindow(op: Instance, identity: Identity) returns (before: seq<Action>, acts: seq<Action>, md: Md)
    ensures Initial(op, EMPTY)
    ensures Begins(Exec(op, EMPTY, before), md, POLICY) && Unedited(acts, 0, SECOND)
    ensures WindowOf(PolicyOf(POLICY), true) == 60 * SECOND
    ensures var s := Exec(op, EMPTY, before);
            Turns(Exec(op, s, acts).c.versions, |s.c.versions|, true) == 2
  {
    var spec := Spec(identity, 1, None, Some(POLICY), 1);
    before := Created(op, EMPTY, spec);
    md := Md(spec, EMPTY_STATUS, 1, true, false, false);
    var s := Exec(op, EMPTY, before);
    AddsTwo(md, 0);
    var first := ScalesAndFails(op, s, md, POLICY, Reading(0));
    var md1 := WithReplicas(md, 3);
    AddsTwo(md1, SECOND);
    var second := ScalesAndFails(op, Exec(op, s, first), md1, POLICY, Reading(SECOND));
    ExecConcat(op, s, first, second);
    TurnsTwice(s.c.versions, md1, WithReplicas(md1, 5));
    acts := first + second;
  }
}
