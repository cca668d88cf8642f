/** The replica decision in the terms of the spec and of what the pods report: no policy, no depth, no
    clock units in between. */
module DecisionLaw {
  import opened Api
  import opened Cluster
  import Queue
  import Scaling

  /** The last change is at least so many seconds old, on a clock in nanoseconds. */
  predicate OpenFor(status: Status, seconds: int, now: int) {
    status.lastScaleSecond.None? || now >= (status.lastScaleSecond.value + seconds) * 1_000_000_000
  }

  /** q is n divided by t, rounded up. */
  ghost predicate RoundsUp(q: int, n: int, t: int) { (q - 1) * t < n <= q * t }

  lemma ReadingIs(values: seq<int64>)
    requires 0 <= Queue.WholeRequests(values) <= 0x7FFF_FFFF
    ensures Queue.DepthOf(Ok(values)) == Ok(Queue.WholeRequests(values))
  {
    Queue.DepthOfTotal(Ok(values), Queue.WholeRequests(values), 0);
  }

  lemma CeilingIs(n: int32, t: int32, q: int)
    requires n >= 0 && t >= 1 && Scaling.SumFits(n, t) && RoundsUp(q, n, t)
    ensures Scaling.CeilDiv(n, t) == q
  {
    Scaling.CeilDivExact(n, t);
    Scaling.CeilingMonotone(Scaling.CeilDiv(n, t), n, q, n, t);
    Scaling.CeilingMonotone(q, n, Scaling.CeilDiv(n, t), n, t);
  }

  /** The windows of the spec, in seconds, are those the decision waits for. */
  lemma WindowsMatch(md: Md, a: Autoscaling, s: Scaling.State)
    requires s.lastScale == LastScale(md.status)
    ensures Scaling.Elapsed(s, PolicyOf(a).scaleUpAfter) <==> OpenFor(md.status, a.scaleUpSeconds, s.now)
    ensures Scaling.Elapsed(s, PolicyOf(a).scaleDownAfter) <==> OpenFor(md.status, a.scaleDownSeconds, s.now)
  {
  }

  /** The state a decision is made in. */
  function StateFor(md: Md, warm: bool, n: int32, now: int): Scaling.State {
    Scaling.State(md.spec.replicas, n, warm || md.spec.cache.None?, LastScale(md.status), now)
  }

  lemma DecidesOn(md: Md, warm: bool, sig: Signals, a: Autoscaling, n: int32)
    requires md.spec.autoscaling == Some(a) && Queue.DepthOf(sig.read) == Ok(n)
    ensures var d, e := DecideReplicas(md, warm, sig), Scaling.Decide(PolicyOf(a), StateFor(md, warm, n, sig.now));
            && d.replicas == e.replicas && d.queueDepth == n && !d.scaleErr
            && d.lastScale == if d.replicas != md.spec.replicas then Some(sig.now / 1_000_000_000) else None
  {
  }

  /** Inside the bounds the wanted size compares with the count as the requests compare with what that many
      replicas may leave waiting. */
  lemma WantedSize(a: Autoscaling, n: int32, r: int, q: int)
    requires a.minReplicas <= r <= a.maxReplicas && n >= 0 && n + a.targetQueueDepth - 1 <= 0x7FFF_FFFF
    ensures var wanted := Scaling.Target(PolicyOf(a), n);
            && (wanted > r <==> r < a.maxReplicas && n > r * a.targetQueueDepth)
            && (wanted < r <==> r > a.minReplicas && n <= (r - 1) * a.targetQueueDepth)
            && (wanted > r && RoundsUp(q, n, a.targetQueueDepth) ==> wanted == Min(q, a.maxReplicas))
  {
    if r < a.maxReplicas {
      Scaling.TargetAbove(PolicyOf(a), n, r);
    }
    if r > a.minReplicas {
      Scaling.TargetAbove(PolicyOf(a), n, r - 1);
    }
    if RoundsUp(q, n, a.targetQueueDepth) {
      CeilingIs(n, a.targetQueueDepth, q);
    }
  }

  /** Inside the bounds, for a sum that does not wrap: the count rises exactly if there is room, the
      requests waiting exceed what the replicas may leave waiting, the weights are there and the last
      change is old enough; then to what the requests need, but no further than the ceiling and one
      step. It falls by one exactly if one replica fewer would do. */
  lemma DecisionInBounds(md: Md, warm: bool, sig: Signals, a: Autoscaling, values: seq<int64>, q: int)
    requires md.spec.autoscaling == Some(a) && a.minReplicas <= md.spec.replicas <= a.maxReplicas
    requires sig.read == Ok(values) && 0 <= Queue.WholeRequests(values)
    requires Queue.WholeRequests(values) + a.targetQueueDepth - 1 <= 0x7FFF_FFFF
    ensures var d, r, n := DecideReplicas(md, warm, sig), md.spec.replicas, Queue.WholeRequests(values);
            && (d.replicas > r <==>
                  && r < a.maxReplicas && n > r * a.targetQueueDepth && (warm || md.spec.cache.None?)
                  && OpenFor(md.status, a.scaleUpSeconds, sig.now))
            && (d.replicas > r && RoundsUp(q, n, a.targetQueueDepth) ==>
                  d.replicas == Min(Min(q, a.maxReplicas), r + a.maxScaleUpStep))
            && (d.replicas < r <==>
                  && r > a.minReplicas && n <= (r - 1) * a.targetQueueDepth
                  && OpenFor(md.status, a.scaleDownSeconds, sig.now))
            && (d.replicas < r ==> d.replicas == r - 1)
            && d.queueDepth == n && !d.scaleErr
            && d.lastScale == if d.replicas != r then Some(sig.now / 1_000_000_000) else None
  {
    var r, n := md.spec.replicas, Queue.WholeRequests(values);
    ReadingIs(values);
    DecidesOn(md, warm, sig, a, n);
    WindowsMatch(md, a, StateFor(md, warm, n, sig.now));
    WantedSize(a, n, r, q);
  }

  /** Outside the bounds: the nearer bound at once, whatever the queue and the windows say, except that a
      cold cache keeps a count below the floor. */
  lemma DecisionOutOfBounds(md: Md, warm: bool, sig: Signals, a: Autoscaling, values: seq<int64>)
    requires md.spec.autoscaling == Some(a) && sig.read == Ok(values)
    requires 0 <= Queue.WholeRequests(values) <= 0x7FFF_FFFF
    ensures var d, r := DecideReplicas(md, warm, sig), md.spec.replicas;
            && (r > a.maxReplicas ==> d.replicas == a.maxReplicas)
            && (r < a.minReplicas && r <= a.maxReplicas ==>
                  d.replicas == if warm || md.spec.cache.None? then a.minReplicas else r)
            && !d.scaleErr && d.queueDepth == Queue.WholeRequests(values)
  {
    ReadingIs(values);
  }

  /** The metric matters exactly if autoscaling is on: then an unreadable or negative total is an error
      that holds count and depth, and any other total is the depth, saturated at 31 bits. */
  lemma DecisionError(md: Md, warm: bool, sig: Signals, total: int, wraps: int)
    requires sig.read.Ok? ==> Queue.WholeRequests(sig.read.value) == total + wraps * 0x1_0000_0000_0000_0000
    requires -0x8000_0000_0000_0000 <= total < 0x8000_0000_0000_0000
    ensures var d, on := DecideReplicas(md, warm, sig), md.spec.autoscaling.Some?;
            && (d.scaleErr <==> on && (sig.read.Err? || total < 0))
            && (!on || d.scaleErr ==>
                  d.replicas == md.spec.replicas && d.queueDepth == md.status.observedQueueDepth && d.lastScale.None?)
            && (on && !d.scaleErr ==> d.queueDepth == Min(total, 0x7FFF_FFFF))
  {
    Queue.DepthOfTotal(sig.read, total, wraps);
  }
}
