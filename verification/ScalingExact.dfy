/** The rate limit of the whole system is exact: where the clock-time limit fails for the timed system it
    fails in a run of undisturbed passes from the empty cluster, with no time lost. */
module ScalingExact {
  import opened Api
  import opened Cluster
  import opened Reconcile
  import opened Protocol
  import opened PassLaws
  import opened PassRuns
  import opened Versions
  import opened ScalingRuns
  import opened ScalingSystem
  import ScalingClock
  import Queue
  import Scaling

  /** A live object without a cache, at rest. */
  ghost predicate Steady(s: State, md: Md, a: Autoscaling) {
    && AtRest(s) && Tied(s) && Current(s.c) == Some(md) && md.finalizer && !md.deleting
    && md.spec.cache.None? && md.spec.autoscaling == Some(a)
  }

  // ------------------------------------------------------------------ readings

  type Depth = d: int | 0 <= d <= 1000

  /** One pod reports d waiting requests. */
  function Waiting(d: Depth, now: int): Signals {
    Signals(Ok([d * 1000]), now, 0)
  }

  lemma WaitingIs(d: Depth, now: int)
    ensures Queue.DepthOf(Waiting(d, now).read) == Ok(d)
  {
    var values: seq<int64> := [d * 1000];
    assert values[..0] == [];
    assert Queue.WholeRequests(values) == Queue.WholeRequests([]) + TruncDiv(d * 1000, 1000);
  }

  function Observed(a: Autoscaling, d: Depth, now: int): Observation {
    Observation(PolicyOf(a), Ok(d), true, now, true)
  }

  // --------------------------------------------------------------- version list

  /** All versions a pass appends carry one count, so they turn at most once. */
  lemma {:induction false} TurnsAppended(
    before: seq<Option<Md>>, after: seq<Option<Md>>, md: Md, replicas: Count, n: nat, up: bool)
    requires Appended(before, after, md, replicas) && 1 <= n <= |before| && before[|before| - 1] == Some(md)
    ensures Turns(after, n, up) == Turns(before, n, up)
              + if |after| > |before| && (if up then replicas > md.spec.replicas else replicas < md.spec.replicas)
                then 1 else 0
    decreases |after|
  {
    if |after| > |before| {
      var last := |after| - 1;
      var mid := after[..last];
      assert after == mid + [after[last]];
      assert mid[..|before|] == after[..|before|];
      TurnsAppended(before, mid, md, replicas, n, up);
      TurnsSnoc(mid, after[last], n, up);
      assert mid[last - 1] == after[last - 1];
      if last == |before| {
        assert mid == before;
      }
    } else {
      assert after == before;
    }
  }

  /** A pass over such an object is a step of the timed system, in the version list as well. */
  lemma PassTurns(op: Instance, c: Store, md: Md, a: Autoscaling, d: Depth, now: int, n: nat, up: bool)
    requires Current(c) == Some(md) && md.finalizer && !md.deleting && md.spec.cache.None?
    requires md.spec.autoscaling == Some(a) && 1 <= n <= |c.versions|
    ensures var after := SyncPass(op, c, FreshPass(c), Waiting(d, now)).store;
            var o := Observed(a, d, now);
            && Current(after).Some? && LoopOf(Current(after).value) == ScalingRuns.Pass(LoopOf(md), o)
            && Turns(after.versions, n, up) == Turns(c.versions, n, up) + (if Moved(LoopOf(md), o, up) then 1 else 0)
            && |after.versions| >= |c.versions|
  {
    var sig, p := Waiting(d, now), FreshPass(c);
    WaitingIs(d, now);
    SyncCompletes(op, c, p, sig);
    SyncIsScalingPass(op, c, p, sig);
    SyncAppends(op, c, p, sig);
    var after := SyncPass(op, c, p, sig).store;
    TurnsAppended(c.versions, after.versions, md, DecideReplicas(md, false, sig).replicas, n, up);
    if |after.versions| == |c.versions| {
      assert after.versions == c.versions;
    }
  }

  // ---------------------------------------------------------------- bookkeeping

  /** Every write but the last is recorded, and the last one too unless its pass is still to report it. */
  ghost predicate Reporting(s: State, t: Track) {
    && (s.w.Syncing? ==> IsLatest(s.c, s.w.pass.rv))
    && (forall i | 0 <= i < |t.wrote| - 1 :: t.wrote[i].recorded)
    && (!(s.w.Syncing? && Late(s.w.at) && s.w.pass.decision.lastScale.Some?) && t.wrote != [] ==>
          t.wrote[|t.wrote| - 1].recorded)
  }

  /** The report of a pass on the latest version. */
  lemma ReportRecords(op: Instance, s: State, t: Track, sig: Signals, pick: string)
    requires Tied(s) && Reporting(s, t) && s.w.Syncing? && s.w.at == WritingStatus
    ensures var s' := Step(op, s, Work(sig, pick));
            Reporting(s', Watch(op, s, Work(sig, pick), t)) && s'.w.Synced?
  {
    StatusStamp(op, s.w.pass, sig.wall);
  }

  lemma WriteRecords(op: Instance, s: State, t: Track, sig: Signals, pick: string)
    requires Tied(s) && Reporting(s, t) && s.w.Syncing? && s.w.at == WritingSpec
    ensures var s' := Step(op, s, Work(sig, pick));
            Reporting(s', Watch(op, s, Work(sig, pick), t)) && s'.w.Syncing?
  {
  }

  lemma OtherCallRecords(op: Instance, s: State, t: Track, sig: Signals, pick: string)
    requires Reporting(s, t) && s.w.Syncing? && s.w.at != WritingSpec && s.w.at != WritingStatus
    ensures var (c', w') := SyncStep(op, s.c, s.v, s.w.at, s.w.pass, sig, pick);
            && Reporting(s.(c := c', w := w'), Watch(op, s, Work(sig, pick), t)) && (w'.Syncing? || w'.Idle?)
  {
    SyncShape(op, s.c, s.v, s.w.at, s.w.pass, sig, pick);
  }

  /** A call of an undisturbed pass never loses its time. */
  lemma CallRecords(op: Instance, s: State, t: Track, sig: Signals, pick: string)
    requires Tied(s) && Reporting(s, t)
    requires s.w.Syncing? || s.w.Idle? || s.w.Synced?
    ensures var s' := Step(op, s, Work(sig, pick));
            && Reporting(s', Watch(op, s, Work(sig, pick), t)) && (s'.w.Syncing? || s'.w.Idle? || s'.w.Synced?)
  {
    if s.w.Syncing? && s.w.at == WritingStatus {
      ReportRecords(op, s, t, sig, pick);
    } else if s.w.Syncing? && s.w.at == WritingSpec {
      WriteRecords(op, s, t, sig, pick);
    } else if s.w.Syncing? {
      OtherCallRecords(op, s, t, sig, pick);
    }
  }

  lemma TrackedTwo(op: Instance, s: State, t: Track, a: Action, b: Action, rest: seq<Action>)
    ensures Tracked(op, s, [a, b] + rest, t)
         == Tracked(op, Step(op, Step(op, s, a), b), rest, Watch(op, Step(op, s, a), b, Watch(op, s, a, t)))
  {
    var all := [a, b] + rest;
    assert all[1..] == [b] + rest && ([b] + rest)[1..] == rest;
  }

  lemma {:induction false} CallsRecord(op: Instance, s: State, t: Track, sig: Signals, picks: seq<string>)
    requires Tied(s) && Reporting(s, t)
    requires s.w.Syncing? || s.w.Idle? || s.w.Synced?
    ensures Reporting(Exec(op, s, Calls(sig, picks)), Tracked(op, s, Calls(sig, picks), t))
    decreases |picks|
  {
    if picks != [] {
      var rest := Calls(sig, picks[1..]);
      var caught := Step(op, s, Catch(ALL));
      TwoSteps(op, s, Catch(ALL), Work(sig, picks[0]));
      ExecConcat(op, s, [Catch(ALL), Work(sig, picks[0])], rest);
      TrackedTwo(op, s, t, Catch(ALL), Work(sig, picks[0]), rest);
      TiedStep(op, s, Catch(ALL));
      TiedStep(op, caught, Work(sig, picks[0]));
      CallRecords(op, caught, t, sig, picks[0]);
      CallsRecord(op, Step(op, caught, Work(sig, picks[0])), Watch(op, caught, Work(sig, picks[0]), t), sig, picks[1..]);
    }
  }

  lemma {:induction false} TrackedConcat(op: Instance, s: State, t: Track, a: seq<Action>, b: seq<Action>)
    ensures Tracked(op, s, a + b, t) == Tracked(op, Exec(op, s, a), b, Tracked(op, s, a, t))
    decreases |a|
  {
    if a == [] {
      assert a + b == b;
    } else {
      assert (a + b)[1..] == a[1..] + b;
      TrackedConcat(op, Step(op, s, a[0]), Watch(op, s, a[0], t), a[1..], b);
    }
  }

  ghost predicate AllRecorded(t: Track) { forall i | 0 <= i < |t.wrote| :: t.wrote[i].recorded }

  // ----------------------------------------------------------------- pass runs

  lemma PassRecords(op: Instance, s: State, t: Track, sig: Signals, picks: seq<string>)
    requires AtRest(s) && Tied(s) && AllRecorded(t)
    requires Current(s.c).Some? && Current(s.c).value.finalizer && !Current(s.c).value.deleting
    requires AtRest(Exec(op, s, WakeUp(s) + Calls(sig, picks)))
    ensures AllRecorded(Tracked(op, s, WakeUp(s) + Calls(sig, picks), t))
    ensures Tied(Exec(op, s, WakeUp(s) + Calls(sig, picks)))
  {
    WakesUp(op, s);
    var woken := Exec(op, s, WakeUp(s));
    TiedExec(op, s, WakeUp(s));
    TrackedWake(op, s, t);
    CallsRecord(op, woken, t, sig, picks);
    TiedExec(op, woken, Calls(sig, picks));
    ExecConcat(op, s, WakeUp(s), Calls(sig, picks));
    TrackedConcat(op, s, t, WakeUp(s), Calls(sig, picks));
  }

  lemma PassUnedited(s: State, sig: Signals, picks: seq<string>)
    requires s.c.versions != []
    ensures Unedited(WakeUp(s) + Calls(sig, picks), sig.now, sig.now)
  {
    CallsByWorker(sig, picks);
  }

  /** One undisturbed pass on a given reading. */
  lemma ObservedPass(op: Instance, s: State, sig: Signals, t: Track) returns (acts: seq<Action>)
    requires AtRest(s) && Tied(s) && AllRecorded(t)
    requires Current(s.c).Some? && Current(s.c).value.finalizer && !Current(s.c).value.deleting
    ensures Unedited(acts, sig.now, sig.now) && AllRecorded(Tracked(op, s, acts, t))
    ensures var s' := Exec(op, s, acts);
            AtRest(s') && Tied(s') && s'.c == SyncPass(op, s.c, FreshPass(s.c), sig).store
  {
    WakesUp(op, s);
    var woken := Exec(op, s, WakeUp(s));
    var picks := CallsRun(op, woken, sig);
    ExecConcat(op, s, WakeUp(s), Calls(sig, picks));
    PassUnedited(s, sig, picks);
    PassRecords(op, s, t, sig, picks);
    acts := WakeUp(s) + Calls(sig, picks);
  }

  lemma TrackedWake(op: Instance, s: State, t: Track)
    requires s.c.versions != []
    ensures Tracked(op, s, WakeUp(s), t) == t
  {
    var deliver := Deliver(|s.c.versions| - 1);
    assert [deliver] + [Wake] == [deliver, Wake] + [];
    TrackedTwo(op, s, t, deliver, Wake, []);
  }

  lemma StaysSteady(op: Instance, c: Store, md: Md, a: Autoscaling, sig: Signals)
    requires Current(c) == Some(md) && md.finalizer && !md.deleting
    requires md.spec.cache.None? && md.spec.autoscaling == Some(a)
    ensures var v := Current(SyncPass(op, c, FreshPass(c), sig).store);
            && v.Some? && v.value.finalizer && !v.value.deleting
            && v.value.spec.cache.None? && v.value.spec.autoscaling == Some(a)
  {
    SyncCompletes(op, c, FreshPass(c), sig);
  }

  /** A reading a pod can report, for this policy. */
  predicate Readable(a: Autoscaling, o: Observation, from: int, to: int) {
    o.metric.Ok? && 0 <= o.metric.value <= 1000 && o == Observed(a, o.metric.value, o.now) && from <= o.now <= to
  }

  /** The stretch from s has followed the timed system so far. */
  ghost predicate Reached(
    op: Instance, s: State, md: Md, a: Autoscaling, os: seq<Observation>, from: int, to: int,
    acts: seq<Action>, after: Md)
  {
    var s' := Exec(op, s, acts);
    && Steady(s', after, a) && LoopOf(after) == Run(LoopOf(md), os) && |s'.c.versions| >= |s.c.versions|
    && forall up :: Turns(s'.c.versions, |s.c.versions|, up) == Moves(LoopOf(md), os, up, from, to)
  }

  lemma OneMorePass(
    op: Instance, s: State, md: Md, a: Autoscaling, os: seq<Observation>, o: Observation, from: int, to: int,
    acts: seq<Action>, mid: Md, more: seq<Action>)
    returns (after: Md)
    requires s.c.versions != [] && Reached(op, s, md, a, os, from, to, acts, mid) && Readable(a, o, from, to)
    requires var s1, s' := Exec(op, s, acts), Exec(op, s, acts + more);
             AtRest(s') && Tied(s') && s'.c == SyncPass(op, s1.c, FreshPass(s1.c), Waiting(o.metric.value, o.now)).store
    ensures Reached(op, s, md, a, os + [o], from, to, acts + more, after)
  {
    var c := Exec(op, s, acts).c;
    StaysSteady(op, c, mid, a, Waiting(o.metric.value, o.now));
    after := Current(Exec(op, s, acts + more).c).value;
    forall up
      ensures LoopOf(after) == Run(LoopOf(md), os + [o])
      ensures Turns(Exec(op, s, acts + more).c.versions, |s.c.versions|, up) == Moves(LoopOf(md), os + [o], up, from, to)
      ensures |Exec(op, s, acts + more).c.versions| >= |s.c.versions|
    {
      PassTurns(op, c, mid, a, o.metric.value, o.now, |s.c.versions|, up);
      RunSnoc(LoopOf(md), os, o, up, from, to);
    }
  }

  /** A run of the timed system as a run of undisturbed passes. */
  lemma {:induction false} PassesRun(
    op: Instance, s: State, md: Md, a: Autoscaling, os: seq<Observation>, from: int, to: int)
    returns (acts: seq<Action>, after: Md)
    requires Steady(s, md, a) && forall i | 0 <= i < |os| :: Readable(a, os[i], from, to)
    ensures Unedited(acts, from, to) && AllRecorded(Tracked(op, s, acts, NO_TRACK))
    ensures Reached(op, s, md, a, os, from, to, acts, after)
    decreases |os|
  {
    if os == [] {
      acts, after := [], md;
    } else {
      var last := |os| - 1;
      var o := os[last];
      assert Readable(a, o, from, to) && os == os[..last] + [o];
      var init, mid := PassesRun(op, s, md, a, os[..last], from, to);
      var t := Tracked(op, s, init, NO_TRACK);
      var more := ObservedPass(op, Exec(op, s, init), Waiting(o.metric.value, o.now), t);
      acts := init + more;
      ExecConcat(op, s, init, more);
      TrackedConcat(op, s, NO_TRACK, init, more);
      after := OneMorePass(op, s, md, a, os[..last], o, from, to, init, mid, more);
    }
  }

  // -------------------------------------------------------------------- theorem

  /** The documented limit on a stretch of a run, on the clock. */
  ghost predicate SystemLimit(
    op: Instance, s: State, md: Md, acts: seq<Action>, w: int, up: bool, from: int, to: int)
    requires w > 0
  {
    Turns(Exec(op, s, acts).c.versions, |s.c.versions|, up)
    <= (to - from) / w + 1 + LostMoves(LoopOf(md), Wrote(op, s, acts), up, from, to)
  }

  /** A stretch of a run from the empty cluster, under a policy with this window. */
  ghost predicate Measured(
    op: Instance, before: seq<Action>, md: Md, a: Autoscaling, acts: seq<Action>, w: int, up: bool, from: int, to: int)
  {
    && Begins(Exec(op, EMPTY, before), md, a) && Unedited(acts, from, to)
    && Scaling.Ordered(PolicyOf(a)) && Scaling.InBounds(PolicyOf(a), md.spec.replicas)
    && WindowOf(PolicyOf(a), up) == w
  }

  /** The flapping policy as the spec gives it. */
  function FlappingSpec(k: Positive, up: bool): Autoscaling {
    Autoscaling(1, 2, 1, if up then k else 0, if up then 0 else k, 1)
  }

  lemma FlapsReadable(k: Positive, up: bool, from: int, to: int, n: nat)
    requires n > 0 ==> ScalingClock.FlapTime(k * SECOND, from, n - 1) <= to
    ensures var os := ScalingClock.Flaps(k * SECOND, up, from, n);
            forall i | 0 <= i < |os| :: Readable(FlappingSpec(k, up), os[i], from, to)
  {
    if n > 0 {
      ScalingClock.TruncatedFlapTime(k * SECOND, from, n - 1);
      if n > 1 {
        ScalingClock.EarlierFlap(k * SECOND, from, n - 1);
      }
      FlapsReadable(k, up, from, to, n - 1);
    }
  }

  /** On every interval that is not aligned: a run from nothing, with no time lost, that turns once too
      often. */
  lemma UnalignedRun(op: Instance, identity: Identity, k: Positive, up: bool, from: int, to: int)
    returns (before: seq<Action>, md: Md, acts: seq<Action>)
    requires from <= to && !ScalingClock.Aligned(k * SECOND, from, to)
    ensures Measured(op, before, md, FlappingSpec(k, up), acts, k * SECOND, up, from, to)
    ensures !SystemLimit(op, Exec(op, EMPTY, before), md, acts, k * SECOND, up, from, to)
  {
    var w, a := k * SECOND, FlappingSpec(k, up);
    var spec := Spec(identity, if up then 1 else 2, None, Some(a), 1);
    before := Created(op, EMPTY, spec);
    md := Md(spec, EMPTY_STATUS, 1, true, false, false);
    var s := Exec(op, EMPTY, before);
    TiedExec(op, EMPTY, before);
    ScalingClock.ClockQuotient(w, from, to);
    var n := (Truncate(to) - Truncate(from)) / w + 1;
    ScalingClock.FlapsMove(w, up, from, to, n);
    FlapsReadable(k, up, from, to, n);
    var os := ScalingClock.Flaps(w, up, from, n);
    var after: Md;
    acts, after := PassesRun(op, s, md, a, os, from, to);
    NothingLost(LoopOf(md), Wrote(op, s, acts), up, from, to);
  }

  /** The exact condition for the whole system, either direction: the limit in clock time holds for every
      stretch of every run with that window if and only if the interval is aligned with it. */
  lemma SystemLimitIffAligned(op: Instance, k: Positive, up: bool, from: int, to: int)
    requires from <= to
    ensures (forall before, md, a, acts | Measured(op, before, md, a, acts, k * SECOND, up, from, to) ::
               SystemLimit(op, Exec(op, EMPTY, before), md, acts, k * SECOND, up, from, to))
            <==> ScalingClock.Aligned(k * SECOND, from, to)
  {
    if ScalingClock.Aligned(k * SECOND, from, to) {
      forall before, md, a, acts | Measured(op, before, md, a, acts, k * SECOND, up, from, to)
        ensures SystemLimit(op, Exec(op, EMPTY, before), md, acts, k * SECOND, up, from, to)
      {
        SystemRateLimit(op, Exec(op, EMPTY, before), md, a, acts, up, from, to);
      }
    } else {
      var before, md, acts := UnalignedRun(op, Identity("", "", ""), k, up, from, to);
      assert Measured(op, before, md, FlappingSpec(k, up), acts, k * SECOND, up, from, to);
    }
  }
}
