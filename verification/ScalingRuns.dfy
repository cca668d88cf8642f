/** Autoscaling over whole runs: decideReplicas fed by its own writes to spec.replicas and
    status.lastScaleTime. */
module ScalingRuns {
  import opened Api
  import opened Scaling

  type AdmittedPolicy = p: Policy | Admitted(p) witness Policy(0, 1, 1, 1, 0, 0)

  /** The two numbers one pass leaves for the next. */
  datatype Loop = Loop(replicas: int32, lastScale: Option<int>)

  /** One pass that wrote its decision. `recorded` is false when the status write after it failed
      and the time of the change was lost. */
  datatype Observation = Observation(
    policy: AdmittedPolicy, metric: Result<int32>, warm: bool, now: int, recorded: bool)

  predicate WholeSeconds(t: int) { t % SECOND == 0 }

  function StateOf(l: Loop, depth: int32, warm: bool, now: int): State {
    State(l.replicas, depth, warm, l.lastScale, now)
  }

  function Pass(l: Loop, o: Observation): Loop {
    match o.metric
    case Err => l
    case Ok(depth) =>
      var d := Decide(o.policy, StateOf(l, depth, o.warm, o.now));
      Loop(d.replicas, if d.changed && o.recorded then Some(Truncate(o.now)) else l.lastScale)
  }

  function Run(l: Loop, os: seq<Observation>): Loop {
    if os == [] then l else Pass(Run(l, os[..|os| - 1]), os[|os| - 1])
  }

  ghost predicate Fixed(p: Policy, os: seq<Observation>) {
    forall i | 0 <= i < |os| :: os[i].policy == p
  }

  // ------------------------------------------------------------------- bounds

  lemma {:induction false} RunKeepsBounds(p: AdmittedPolicy, l: Loop, os: seq<Observation>)
    requires Ordered(p) && Fixed(p, os) && InBounds(p, l.replicas)
    ensures InBounds(p, Run(l, os).replicas)
  {
    if os != [] {
      RunKeepsBounds(p, l, os[..|os| - 1]);
    }
  }

  // --------------------------------------------------------------- rate limit

  predicate Moved(before: Loop, o: Observation, up: bool) {
    if up then Pass(before, o).replicas > before.replicas
    else Pass(before, o).replicas < before.replicas
  }

  /** Passes with a clock reading in [from, to] that moved the count up (or down). */
  function Moves(l: Loop, os: seq<Observation>, up: bool, from: int, to: int): nat {
    if os == [] then 0
    else
      var o := os[|os| - 1];
      Moves(l, os[..|os| - 1], up, from, to)
      + if from <= o.now <= to && Moved(Run(l, os[..|os| - 1]), o, up) then 1 else 0
  }

  /** Those among them whose time was lost. */
  function LostMoves(l: Loop, os: seq<Observation>, up: bool, from: int, to: int): nat {
    if os == [] then 0
    else
      var o := os[|os| - 1];
      LostMoves(l, os[..|os| - 1], up, from, to)
      + if from <= o.now <= to && Moved(Run(l, os[..|os| - 1]), o, up) && !o.recorded then 1 else 0
  }

  function WindowOf(p: Policy, up: bool): int {
    if up then p.scaleUpAfter else p.scaleDownAfter
  }

  /** A fixed, ordered policy, whole-second windows and a start inside the bounds. */
  ghost predicate SteadyPolicy(p: AdmittedPolicy, l: Loop, os: seq<Observation>) {
    && Ordered(p) && Fixed(p, os) && InBounds(p, l.replicas)
    && WholeSeconds(p.scaleUpAfter) && WholeSeconds(p.scaleDownAfter)
    && (l.lastScale.Some? ==> WholeSeconds(l.lastScale.value))
  }

  /** One pass inside the bounds: a move waits out its window, and only a recorded move sets the
      time, to the whole second at or before the clock. */
  lemma PassSpacing(p: AdmittedPolicy, l: Loop, o: Observation)
    requires o.policy == p && Ordered(p) && InBounds(p, l.replicas)
    requires WholeSeconds(p.scaleUpAfter) && WholeSeconds(p.scaleDownAfter)
    requires l.lastScale.Some? ==> WholeSeconds(l.lastScale.value)
    ensures var l' := Pass(l, o);
            && (l'.lastScale.Some? ==> WholeSeconds(l'.lastScale.value))
            && (l.lastScale.Some? ==> l'.lastScale.Some? && l'.lastScale.value >= l.lastScale.value)
            && (forall up :: Moved(l, o, up) && l.lastScale.Some? ==>
                  Truncate(o.now) >= l.lastScale.value + WindowOf(p, up))
            && (forall up :: Moved(l, o, up) && o.recorded ==> l'.lastScale == Some(Truncate(o.now)))
  {
    if l.lastScale.Some? {
      TruncateAbove(o.now, l.lastScale.value + p.scaleUpAfter);
      TruncateAbove(o.now, l.lastScale.value + p.scaleDownAfter);
    }
  }

  lemma TruncateAbove(t: int, whole: int)
    requires WholeSeconds(whole)
    ensures t >= whole <==> Truncate(t) >= whole
    ensures Truncate(t) <= t < Truncate(t) + SECOND && WholeSeconds(Truncate(t))
  {
  }

  /** k recorded moves so far occupy k - 1 windows. */
  ghost predicate Spaced(w: int, last: Option<int>, from: int, to: int, k: int) {
    && (last.Some? ==> WholeSeconds(last.value))
    && (k >= 1 ==>
          && last.Some?
          && Truncate(from) + (k - 1) * w <= Truncate(to)
          && Truncate(from) + (k - 1) * w <= last.value)
  }

  lemma SpacingStep(p: AdmittedPolicy, l: Loop, o: Observation, up: bool, from: int, to: int, k: nat)
    requires o.policy == p && Ordered(p) && InBounds(p, l.replicas)
    requires WholeSeconds(p.scaleUpAfter) && WholeSeconds(p.scaleDownAfter)
    requires Spaced(WindowOf(p, up), l.lastScale, from, to, k)
    ensures Spaced(WindowOf(p, up), Pass(l, o).lastScale, from, to, k)
    ensures Moved(l, o, up) && o.recorded && from <= o.now <= to ==>
              Spaced(WindowOf(p, up), Pass(l, o).lastScale, from, to, k + 1)
  {
    PassSpacing(p, l, o);
    var w := WindowOf(p, up);
    assert k * w == (k - 1) * w + w;
    if from <= o.now <= to {
      assert Truncate(from) <= Truncate(o.now) <= Truncate(to);
    }
  }

  lemma {:induction false} MoveSpacing(
    p: AdmittedPolicy, l: Loop, os: seq<Observation>, up: bool, from: int, to: int)
    requires SteadyPolicy(p, l, os)
    ensures LostMoves(l, os, up, from, to) <= Moves(l, os, up, from, to)
    ensures Spaced(WindowOf(p, up), Run(l, os).lastScale, from, to,
                   Moves(l, os, up, from, to) - LostMoves(l, os, up, from, to))
  {
    if os != [] {
      var init, o := os[..|os| - 1], os[|os| - 1];
      MoveSpacing(p, l, init, up, from, to);
      RunKeepsBounds(p, l, init);
      var k := Moves(l, init, up, from, to) - LostMoves(l, init, up, from, to);
      SpacingStep(p, Run(l, init), o, up, from, to, k);
    }
  }

  /** The windows bound how often the count moves: in any interval, whatever the queue does, at most
      one move more than whole windows fit between its whole seconds, plus one for every move whose
      time was lost. The clock need not be monotone. */
  lemma RateLimit(p: AdmittedPolicy, l: Loop, os: seq<Observation>, up: bool, from: int, to: int)
    requires SteadyPolicy(p, l, os) && WindowOf(p, up) > 0 && from <= to
    ensures Moves(l, os, up, from, to)
            <= (Truncate(to) - Truncate(from)) / WindowOf(p, up) + 1 + LostMoves(l, os, up, from, to)
  {
    MoveSpacing(p, l, os, up, from, to);
    var k := Moves(l, os, up, from, to) - LostMoves(l, os, up, from, to);
    QuotientBound(k - 1, Truncate(to) - Truncate(from), WindowOf(p, up));
  }

  lemma QuotientBound(k: int, total: int, w: int)
    requires w > 0 && total >= 0
    ensures k * w <= total ==> k <= total / w
    ensures k <= 0 ==> k <= total / w
  {
    if k > total / w {
      ProductMonotone(total / w + 1, k, w);
    }
  }

  lemma PassStep(p: AdmittedPolicy, l: Loop, o: Observation)
    requires o.policy == p && InBounds(p, l.replicas)
    ensures Moved(l, o, true) ==> 1 <= Pass(l, o).replicas - l.replicas <= p.maxScaleUpStep
    ensures Moved(l, o, false) ==> Pass(l, o).replicas == l.replicas - 1
  {
  }

  /** Net movement is the moves weighted by their step: at most maxScaleUpStep up, exactly one down. */
  lemma {:induction false} NetChange(p: AdmittedPolicy, l: Loop, os: seq<Observation>, from: int, to: int)
    requires SteadyPolicy(p, l, os)
    requires forall i | 0 <= i < |os| :: from <= os[i].now <= to
    ensures var ups, downs := Moves(l, os, true, from, to), Moves(l, os, false, from, to);
            ups - downs <= Run(l, os).replicas - l.replicas <= ups * p.maxScaleUpStep - downs
  {
    if os != [] {
      var init, o := os[..|os| - 1], os[|os| - 1];
      NetChange(p, l, init, from, to);
      RunKeepsBounds(p, l, init);
      PassStep(p, Run(l, init), o);
      NextMultiple(Moves(l, init, true, from, to), p.maxScaleUpStep);
      if Moved(Run(l, init), o, true) {
        assert Moves(l, os, true, from, to) == Moves(l, init, true, from, to) + 1;
        assert Moves(l, os, false, from, to) == Moves(l, init, false, from, to);
      } else {
        assert Moves(l, os, true, from, to) == Moves(l, init, true, from, to);
      }
    }
  }

  lemma NextMultiple(k: int, w: int)
    ensures (k + 1) * w == k * w + w
  {
  }

  /** Growth and shrink per interval, when every pass recorded its move. */
  lemma NetRate(p: AdmittedPolicy, l: Loop, os: seq<Observation>, from: int, to: int)
    requires SteadyPolicy(p, l, os) && from <= to
    requires forall i | 0 <= i < |os| :: from <= os[i].now <= to && os[i].recorded
    ensures p.scaleUpAfter > 0 ==>
              Run(l, os).replicas - l.replicas
              <= ((Truncate(to) - Truncate(from)) / p.scaleUpAfter + 1) * p.maxScaleUpStep
    ensures p.scaleDownAfter > 0 ==>
              l.replicas - Run(l, os).replicas
              <= (Truncate(to) - Truncate(from)) / p.scaleDownAfter + 1
  {
    NetChange(p, l, os, from, to);
    NothingLost(l, os, true, from, to);
    NothingLost(l, os, false, from, to);
    if p.scaleUpAfter > 0 {
      RateLimit(p, l, os, true, from, to);
      ProductMonotone(Moves(l, os, true, from, to),
                      (Truncate(to) - Truncate(from)) / p.scaleUpAfter + 1, p.maxScaleUpStep);
    }
    if p.scaleDownAfter > 0 {
      RateLimit(p, l, os, false, from, to);
    }
  }

  lemma {:induction false} NothingLost(l: Loop, os: seq<Observation>, up: bool, from: int, to: int)
    requires forall i | 0 <= i < |os| :: os[i].recorded
    ensures LostMoves(l, os, up, from, to) == 0
  {
    if os != [] {
      NothingLost(l, os[..|os| - 1], up, from, to);
    }
  }

  const SAMPLE: AdmittedPolicy := Policy(1, 8, 4, 2, 60 * SECOND, 900 * SECOND)

  /** The bound is on whole seconds: truncation lets two moves through 59.1 s apart on a window of
      60 s. And a lost timestamp lets the next pass move again at once. */
  lemma TruncationAndLossAreReal()
    ensures var early := 900_000_000;
            Moves(Loop(1, None), [Observation(SAMPLE, Ok(400), true, early, true),
                                  Observation(SAMPLE, Ok(400), true, 60 * SECOND, true)],
                  true, early, 60 * SECOND) == 2
    ensures Moves(Loop(1, None), [Observation(SAMPLE, Ok(400), true, 0, false),
                                  Observation(SAMPLE, Ok(400), true, SECOND, true)],
                  true, 0, SECOND) == 2
  {
    var early := 900_000_000;
    assert Target(SAMPLE, 400) == 8;
    var a, b := Observation(SAMPLE, Ok(400), true, early, true),
                Observation(SAMPLE, Ok(400), true, 60 * SECOND, true);
    TwoPasses(a, b, early, 60 * SECOND);
    var c, d := Observation(SAMPLE, Ok(400), true, 0, false),
                Observation(SAMPLE, Ok(400), true, SECOND, true);
    TwoPasses(c, d, 0, SECOND);
  }

  lemma TwoPasses(a: Observation, b: Observation, from: int, to: int)
    requires from <= a.now <= to && from <= b.now <= to
    requires Moved(Loop(1, None), a, true) && Moved(Pass(Loop(1, None), a), b, true)
    ensures Moves(Loop(1, None), [a, b], true, from, to) == 2
  {
    var l := Loop(1, None);
    assert [a, b][..1] == [a] && [a][..0] == [];
    assert Run(l, [a]) == Pass(Run(l, []), a);
    assert Moves(l, [a], true, from, to) == Moves(l, [], true, from, to) + 1;
  }

  // -------------------------------------------------------------- convergence

  function Widest(p: Policy): int { Max(p.scaleUpAfter, p.scaleDownAfter) }

  /** A warm instance under a constant queue, observed far enough apart that no window blocks. */
  ghost predicate SteadyQueue(p: AdmittedPolicy, depth: int32, l: Loop, os: seq<Observation>) {
    && Fixed(p, os)
    && (forall i | 0 <= i < |os| :: os[i].metric == Ok(depth) && os[i].warm)
    && (forall i | 0 < i < |os| :: os[i].now >= os[i - 1].now + Widest(p))
    && (os != [] && l.lastScale.Some? ==> os[0].now >= l.lastScale.value + Widest(p))
  }

  lemma {:induction false} WindowsOpen(
    p: AdmittedPolicy, depth: int32, l: Loop, os: seq<Observation>, n: nat)
    requires SteadyQueue(p, depth, l, os) && n < |os|
    ensures Run(l, os[..n]).lastScale.Some? ==>
              os[n].now >= Run(l, os[..n]).lastScale.value + Widest(p)
  {
    if n > 0 {
      WindowsOpen(p, depth, l, os, n - 1);
      assert os[..n][..n - 1] == os[..n - 1];
      TruncateAbove(os[n - 1].now, 0);
    }
  }

  /** Where a constant queue has taken the count after n passes. */
  function Approach(current: int, target: int, step: int, n: nat): int {
    if current <= target then Min(target, current + n * step) else Max(target, current - n)
  }

  lemma OpenPass(p: AdmittedPolicy, l: Loop, o: Observation, depth: int32)
    requires o.policy == p && o.metric == Ok(depth) && o.warm && Ordered(p) && InBounds(p, l.replicas)
    requires l.lastScale.Some? ==> o.now >= l.lastScale.value + Widest(p)
    ensures Pass(l, o).replicas == Toward(l.replicas, Target(p, depth), p.maxScaleUpStep)
  {
  }

  function Toward(current: int, target: int, step: int): int {
    if current <= target then Min(target, current + step) else current - 1
  }

  lemma ApproachStep(current: int, target: int, step: int, n: nat)
    requires step >= 1
    ensures Toward(Approach(current, target, step, n), target, step) == Approach(current, target, step, n + 1)
  {
    assert (n + 1) * step == n * step + step;
  }

  /** A steady queue takes the count along that approach to the size it asks for. */
  lemma {:induction false} SteadyQueueConverges(p: AdmittedPolicy, depth: int32, l: Loop, os: seq<Observation>)
    requires Ordered(p) && InBounds(p, l.replicas) && SteadyQueue(p, depth, l, os)
    ensures Run(l, os).replicas == Approach(l.replicas, Target(p, depth), p.maxScaleUpStep, |os|)
  {
    if os != [] {
      var n := |os| - 1;
      WindowsOpen(p, depth, l, os, n);
      SteadyQueueConverges(p, depth, l, os[..n]);
      RunKeepsBounds(p, l, os[..n]);
      OpenPass(p, Run(l, os[..n]), os[n], depth);
      ApproachStep(l.replicas, Target(p, depth), p.maxScaleUpStep, n);
    }
  }

  /** The approach is monotone, never overshoots, and arrives after exactly ceil(gap / step) passes
      on the way up and gap passes on the way down. */
  lemma ApproachArrives(current: int, target: int, step: int, n: nat)
    requires step >= 1
    ensures current <= target ==>
              && Approach(current, target, step, n) <= Approach(current, target, step, n + 1) <= target
              && (Approach(current, target, step, n) == target <==> n >= (target - current + step - 1) / step)
    ensures current > target ==>
              && target <= Approach(current, target, step, n + 1) <= Approach(current, target, step, n)
              && (Approach(current, target, step, n) == target <==> n >= current - target)
  {
    assert (n + 1) * step == n * step + step;
    if current <= target {
      var gap := target - current;
      var q := (gap + step - 1) / step;
      assert q * step <= gap + step - 1 < q * step + step;
      if n >= q {
        ProductMonotone(q, n, step);
      } else {
        ProductMonotone(n + 1, q, step);
      }
    }
  }

  /** Bounds in the wrong order never settle: from the ceiling a warm instance alternates forever. */
  lemma {:induction false} CrossedBoundsOscillate(p: AdmittedPolicy, l: Loop, os: seq<Observation>)
    requires !Ordered(p) && Fixed(p, os) && l.replicas == p.maxReplicas
    requires forall i | 0 <= i < |os| :: os[i].warm && os[i].metric.Ok?
    ensures Run(l, os).replicas == if |os| % 2 == 0 then p.maxReplicas else p.minReplicas
  {
    if os != [] {
      CrossedBoundsOscillate(p, l, os[..|os| - 1]);
    }
  }

  /** While the cache is cold the operator never raises the count, even when the policy changes
      between passes and raises the floor above it. */
  lemma {:induction false} ColdNeverGrows(l: Loop, os: seq<Observation>)
    requires forall i | 0 <= i < |os| :: !os[i].warm
    ensures Run(l, os).replicas <= l.replicas
  {
    if os != [] {
      ColdNeverGrows(l, os[..|os| - 1]);
    }
  }
}
