/** One scaling decision: internal/scaling. */
module Scaling {
  import opened Api

  datatype Policy = Policy(
    minReplicas: int32, maxReplicas: int32, targetQueueDepth: int32, maxScaleUpStep: int32,
    scaleUpAfter: int, scaleDownAfter: int)

  /** `lastScale` is None where the source holds the zero time. */
  datatype State = State(
    current: int32, depth: int32, weightsCached: bool, lastScale: Option<int>, now: int)

  datatype Reason =
    | AtTarget | QueueAboveTarget | QueueBelowTarget | ScaleUpBlocked | ScaleDownBlocked
    | WeightsNotCached | BelowMinReplicas | AboveMaxReplicas

  datatype Decision = Decision(replicas: int32, changed: bool, reason: Reason)

  /** The schema minimums of the autoscaling spec. minReplicas <= maxReplicas is not among them. */
  predicate Admitted(p: Policy) {
    && p.minReplicas >= 0 && p.maxReplicas >= 1
    && p.targetQueueDepth >= 1 && p.maxScaleUpStep >= 1
    && p.scaleUpAfter >= 0 && p.scaleDownAfter >= 0
  }

  predicate Ordered(p: Policy) { p.minReplicas <= p.maxReplicas }

  predicate InBounds(p: Policy, replicas: int) { p.minReplicas <= replicas <= p.maxReplicas }

  function Clamp(v: int32, lo: int32, hi: int32): int32 { Min(Max(v, lo), hi) }

  /** 32-bit arithmetic: the sum wraps, the division truncates. */
  function CeilDiv(a: int32, b: int32): int32
    requires b >= 1
  {
    if a <= 0 then 0 else TruncDiv(Wrap32(a + b - 1), b)
  }

  predicate Elapsed(s: State, window: int) {
    s.lastScale.None? || s.now >= s.lastScale.value + window
  }

  /** The lowest size a decision inside the bounds can aim for. */
  function Floor(p: Policy): int32 { Min(p.minReplicas, p.maxReplicas) }

  /** The size the queue asks for, kept inside the bounds. */
  function Target(p: Policy, depth: int32): (t: int32)
    requires Admitted(p)
    ensures Floor(p) <= t <= p.maxReplicas
    ensures Ordered(p) ==> InBounds(p, t)
  {
    Clamp(CeilDiv(depth, p.targetQueueDepth), p.minReplicas, p.maxReplicas)
  }

  function Decide(p: Policy, s: State): (d: Decision)
    requires Admitted(p)
    ensures var wanted := if s.current < p.minReplicas then p.minReplicas else Target(p, s.depth);
            && (d.changed <==> d.replicas != s.current)
            && (s.current >= 0 ==> d.replicas >= 0)
            && (d.reason.AboveMaxReplicas? <==> s.current > p.maxReplicas)
            && (d.reason.AboveMaxReplicas? ==> d.replicas == p.maxReplicas)
            && (d.reason.BelowMinReplicas? <==>
                  s.current <= p.maxReplicas && s.current < p.minReplicas && s.weightsCached)
            && (d.reason.BelowMinReplicas? ==> d.replicas == p.minReplicas)
            && (d.reason.WeightsNotCached? <==>
                  s.current <= p.maxReplicas && wanted > s.current && !s.weightsCached)
            && (d.replicas > s.current ==> s.weightsCached)
            && (InBounds(p, s.current) ==>
                  && (d.replicas > s.current <==> d.reason.QueueAboveTarget?)
                  && (d.replicas < s.current <==> d.reason.QueueBelowTarget?)
                  && (d.reason.AtTarget? <==> wanted == s.current)
                  && (d.reason.ScaleUpBlocked? <==>
                        wanted > s.current && s.weightsCached && !Elapsed(s, p.scaleUpAfter))
                  && (d.reason.ScaleDownBlocked? <==>
                        wanted < s.current && !Elapsed(s, p.scaleDownAfter))
                  && (d.reason.QueueAboveTarget? ==>
                        d.replicas <= wanted && d.replicas <= s.current + p.maxScaleUpStep
                        && (d.replicas == wanted || d.replicas == s.current + p.maxScaleUpStep))
                  && (d.reason.QueueBelowTarget? ==> d.replicas == s.current - 1 >= wanted))
  {
    if s.current > p.maxReplicas then
      Decision(p.maxReplicas, true, AboveMaxReplicas)
    else if s.current < p.minReplicas then
      if !s.weightsCached then Decision(s.current, false, WeightsNotCached)
      else Decision(p.minReplicas, true, BelowMinReplicas)
    else
      var target := Target(p, s.depth);
      if target > s.current then
        if !s.weightsCached then Decision(s.current, false, WeightsNotCached)
        else if !Elapsed(s, p.scaleUpAfter) then Decision(s.current, false, ScaleUpBlocked)
        else Decision(s.current + Min(target - s.current, p.maxScaleUpStep), true, QueueAboveTarget)
      else if target < s.current then
        if !Elapsed(s, p.scaleDownAfter) then Decision(s.current, false, ScaleDownBlocked)
        else Decision(s.current - 1, true, QueueBelowTarget)
      else
        Decision(s.current, false, AtTarget)
  }

  // --------------------------------------------------------------- arithmetic

  /** The mathematical ceiling of a quotient, by its defining inequality. */
  ghost predicate IsCeiling(q: int, a: int, b: int)
    requires b >= 1
  {
    (q - 1) * b < a <= q * b
  }

  predicate SumFits(a: int32, b: int32) { a + b - 1 <= INT32_MAX }

  /** CeilDiv is the ceiling exactly where the 32-bit sum does not wrap. */
  lemma CeilDivExact(a: int32, b: int32)
    requires a >= 0 && b >= 1
    ensures IsCeiling(CeilDiv(a, b), a, b) <==> a == 0 || SumFits(a, b)
    ensures a > 0 && !SumFits(a, b) ==> CeilDiv(a, b) <= 0
  {
    if a == 0 {
      assert (0 - 1) * b < 0 <= 0 * b;
    } else if SumFits(a, b) {
      var q := (a + b - 1) / b;
      assert CeilDiv(a, b) == q;
      assert q * b <= a + b - 1 < q * b + b;
      assert (q - 1) * b == q * b - b;
    } else {
      WrappedQuotient(a, b);
      var q := CeilDiv(a, b);
      NonPositiveProduct(q, b);
    }
  }

  lemma WrappedQuotient(a: int32, b: int32)
    requires a > 0 && b >= 1 && !SumFits(a, b)
    ensures CeilDiv(a, b) <= 0
  {
    var w := Wrap32(a + b - 1);
    assert w == a + b - 1 - 0x1_0000_0000 < 0;
    assert (-w) / b >= 0;
  }

  lemma NonPositiveProduct(q: int, b: int)
    requires q <= 0 && b >= 1
    ensures q * b <= 0
  {
  }

  lemma ProductMonotone(x: int, y: int, b: int)
    requires x <= y && b >= 0
    ensures x * b <= y * b
  {
  }

  lemma CeilingMonotone(q1: int, a1: int, q2: int, a2: int, b: int)
    requires b >= 1 && a1 <= a2
    requires IsCeiling(q1, a1, b) && IsCeiling(q2, a2, b)
    ensures q1 <= q2
  {
    if q2 <= q1 - 1 {
      ProductMonotone(q2, q1 - 1, b);
    }
  }

  lemma TargetWraps(p: Policy, depth: int32)
    requires Admitted(p) && depth > 0 && !SumFits(depth, p.targetQueueDepth)
    ensures Target(p, depth) == Floor(p)
  {
    WrappedQuotient(depth, p.targetQueueDepth);
  }

  /** Above or not, read off the depth without dividing. */
  lemma CeilDivAbove(a: int32, b: int32, n: int)
    requires a >= 0 && b >= 1 && n >= 0 && SumFits(a, b)
    ensures CeilDiv(a, b) > n <==> a > n * b
  {
    CeilDivExact(a, b);
    var q := CeilDiv(a, b);
    if q > n {
      ProductMonotone(n, q - 1, b);
    } else {
      ProductMonotone(q, n, b);
    }
  }

  lemma TargetAbove(p: Policy, depth: int32, n: int)
    requires Admitted(p) && depth >= 0 && SumFits(depth, p.targetQueueDepth)
    requires p.minReplicas <= n < p.maxReplicas
    ensures Target(p, depth) > n <==> depth > n * p.targetQueueDepth
  {
    CeilDivAbove(depth, p.targetQueueDepth, n);
  }

  lemma TargetMonotoneBelowWrap(p: Policy, d1: int32, d2: int32)
    requires Admitted(p) && 0 <= d1 <= d2 && SumFits(d2, p.targetQueueDepth)
    ensures Target(p, d1) <= Target(p, d2)
  {
    var b := p.targetQueueDepth;
    CeilDivExact(d1, b);
    CeilDivExact(d2, b);
    CeilingMonotone(CeilDiv(d1, b), d1, CeilDiv(d2, b), d2, b);
  }

  /** A deeper queue asks for no fewer replicas if and only if the deeper reading does not wrap, or the
      bounds leave no choice, or the shallower one wraps too, or it is served by the floor anyway. */
  lemma TargetMonotone(p: Policy, d1: int32, d2: int32)
    requires Admitted(p) && 0 <= d1 <= d2
    ensures Target(p, d1) <= Target(p, d2) <==>
            || SumFits(d2, p.targetQueueDepth) || p.minReplicas >= p.maxReplicas
            || !SumFits(d1, p.targetQueueDepth) || d1 <= p.minReplicas * p.targetQueueDepth
  {
    var b := p.targetQueueDepth;
    if SumFits(d2, b) {
      TargetMonotoneBelowWrap(p, d1, d2);
    } else {
      TargetWraps(p, d2);
      if !SumFits(d1, b) {
        TargetWraps(p, d1);
      } else if Ordered(p) && p.minReplicas < p.maxReplicas {
        TargetAbove(p, d1, p.minReplicas);
      }
    }
  }

  /** The shallower reading moves the count up, or keeps it from moving down. */
  predicate Holds(p: Policy, s: State) {
    || (s.current < p.maxReplicas && s.depth > s.current * p.targetQueueDepth
        && s.weightsCached && Elapsed(s, p.scaleUpAfter))
    || (s.current > p.minReplicas && s.depth > (s.current - 1) * p.targetQueueDepth
        && Elapsed(s, p.scaleDownAfter))
  }

  /** So is the whole decision, except in one case: the deeper reading wraps, the shallower one does
      not, the count is inside the bounds, and the shallower reading would have held or raised it. */
  lemma DecideMonotoneInDepth(p: Policy, s: State, deeper: int32)
    requires Admitted(p) && 0 <= s.depth <= deeper
    ensures Decide(p, s).replicas <= Decide(p, s.(depth := deeper)).replicas <==>
            || SumFits(deeper, p.targetQueueDepth) || !SumFits(s.depth, p.targetQueueDepth)
            || !InBounds(p, s.current) || !Holds(p, s)
  {
    var b := p.targetQueueDepth;
    if InBounds(p, s.current) {
      if SumFits(deeper, b) {
        TargetMonotoneBelowWrap(p, s.depth, deeper);
      } else {
        TargetWraps(p, deeper);
        if !SumFits(s.depth, b) {
          TargetWraps(p, s.depth);
        } else {
          WrapLowersDecision(p, s, deeper);
        }
      }
    }
  }

  lemma WrapLowersDecision(p: Policy, s: State, deeper: int32)
    requires Admitted(p) && 0 <= s.depth && InBounds(p, s.current)
    requires SumFits(s.depth, p.targetQueueDepth) && Target(p, deeper) == p.minReplicas
    ensures Decide(p, s.(depth := deeper)).replicas < Decide(p, s).replicas <==> Holds(p, s)
  {
    if s.current < p.maxReplicas {
      TargetAbove(p, s.depth, s.current);
    }
    if s.current > p.minReplicas {
      TargetAbove(p, s.depth, s.current - 1);
    }
  }

  /** The saturated reading Depth returns under extreme load wraps for every target above one, so
      the operator sheds a replica at the very moment the queue is longest. */
  lemma SaturatedDepthCollapses(p: Policy, s: State)
    requires Admitted(p) && Ordered(p)
    requires s.depth == INT32_MAX && InBounds(p, s.current)
    ensures p.targetQueueDepth >= 2 ==> Target(p, s.depth) == p.minReplicas
    ensures p.targetQueueDepth == 1 ==> Target(p, s.depth) == p.maxReplicas
    ensures p.targetQueueDepth >= 2 && s.current > p.minReplicas && Elapsed(s, p.scaleDownAfter)
            ==> Decide(p, s).replicas == s.current - 1
  {
    if p.targetQueueDepth >= 2 {
      TargetWraps(p, s.depth);
    } else {
      assert CeilDiv(s.depth, 1) == INT32_MAX;
    }
  }

  // ------------------------------------------------------------ one decision

  /** Bounds are an inductive invariant at every depth, wrapped ones included; from outside one
      decision repairs them unless the count is below the floor and the cache is cold. */
  lemma DecideKeepsBounds(p: Policy, s: State)
    requires Admitted(p) && Ordered(p)
    ensures InBounds(p, Decide(p, s).replicas) <==>
            InBounds(p, s.current) || s.current > p.maxReplicas || s.weightsCached
    ensures s.current < p.minReplicas && !s.weightsCached ==> Decide(p, s).replicas == s.current
  {
  }

  /** The state a second decision at the same instant finds: the count and the time the first one left. */
  function After(p: Policy, s: State): State
    requires Admitted(p)
  {
    var d := Decide(p, s);
    s.(current := d.replicas, lastScale := if d.changed then Some(Truncate(s.now)) else s.lastScale)
  }

  /** No move is due, or one move arrives, or the window of the way still to go is not zero. With crossed
      bounds only a cold cache stops the count. */
  predicate RestsAfter(p: Policy, s: State)
    requires Admitted(p)
  {
    var target := Target(p, s.depth);
    if !Ordered(p) then !s.weightsCached
    else if s.current > p.maxReplicas then target == p.maxReplicas || p.scaleDownAfter > 0
    else if s.current < p.minReplicas then !s.weightsCached || target == p.minReplicas || p.scaleUpAfter > 0
    else if target > s.current then
      || !s.weightsCached || !Elapsed(s, p.scaleUpAfter)
      || target - s.current <= p.maxScaleUpStep || p.scaleUpAfter > 0
    else target >= s.current - 1 || !Elapsed(s, p.scaleDownAfter) || p.scaleDownAfter > 0
  }

  /** When deciding again at the same instant moves nothing, exactly. Windows are whole seconds, as the
      spec gives them; positive ones and ordered bounds are always enough. */
  lemma DecideTwice(p: Policy, s: State)
    requires Admitted(p) && p.scaleUpAfter % SECOND == 0 && p.scaleDownAfter % SECOND == 0
    ensures !Decide(p, After(p, s)).changed <==> RestsAfter(p, s)
    ensures Ordered(p) && p.scaleUpAfter > 0 && p.scaleDownAfter > 0 ==> RestsAfter(p, s)
  {
    assert p.scaleUpAfter < SECOND ==> p.scaleUpAfter == 0;
    assert p.scaleDownAfter < SECOND ==> p.scaleDownAfter == 0;
    assert Truncate(s.now) <= s.now < Truncate(s.now) + SECOND;
  }

  /** Policies that do move again at once: a window of zero, and crossed bounds. */
  lemma RestlessPolicies(now: int)
    ensures var eager := Policy(1, 8, 4, 2, 0, 900 * SECOND);
            var s := State(1, 400, true, None, now);
            Decide(eager, s).replicas == 3 && Decide(eager, After(eager, s)).replicas == 5
    ensures var crossed := Policy(3, 2, 4, 2, 60 * SECOND, 900 * SECOND);
            var s := State(2, 400, true, None, now);
            Decide(crossed, s).replicas == 3 && Decide(crossed, After(crossed, s)).replicas == 2
  {
    assert Target(Policy(1, 8, 4, 2, 0, 900 * SECOND), 400) == 8;
  }

  /** A size at which a warm instance rests exists exactly when the bounds are ordered. */
  lemma RestsSomewhere(p: Policy, s: State)
    requires Admitted(p) && s.weightsCached
    ensures (exists c: int32 :: !Decide(p, s.(current := c)).changed) <==> Ordered(p)
  {
    if Ordered(p) {
      var c := Target(p, s.depth);
      assert !Decide(p, s.(current := c)).changed;
    }
  }
}
