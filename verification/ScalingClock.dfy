/** The rate limit in clock time: exactly which intervals it holds for, given that the time of a move is
    kept in whole seconds. */
module ScalingClock {
  import opened Api
  import opened Scaling
  import opened ScalingRuns

  /** No window ends between the truncated start and the truncated end that does not end between start
      and end: the interval does not lose a fraction of a second, or a whole number of windows does
      not fit its whole seconds exactly. */
  predicate Aligned(w: int, from: int, to: int)
    requires w > 0
  {
    from % SECOND <= to % SECOND || (Truncate(to) - Truncate(from)) % w != 0
  }

  lemma WholeMultiple(q: int, w: int)
    requires WholeSeconds(w)
    ensures WholeSeconds(q * w)
  {
    var m := w / SECOND;
    assert q * w == (q * m) * SECOND;
  }

  lemma QuotientIs(total: int, q: int, r: int, w: int)
    requires w > 0 && total == q * w + r && 0 <= r < w
    ensures total / w == q
  {
    var d := total / w;
    assert total == d * w + total % w;
    if d < q {
      ProductMonotone(d + 1, q, w);
    } else if d > q {
      ProductMonotone(q + 1, d, w);
    }
  }

  lemma WholeDifference(a: int, b: int)
    requires WholeSeconds(a) && WholeSeconds(b)
    ensures WholeSeconds(a - b) && WholeSeconds(a + b)
  {
    var x, y := a / SECOND, b / SECOND;
    assert a == x * SECOND && b == y * SECOND;
    assert a - b == (x - y) * SECOND && a + b == (x + y) * SECOND;
  }

  lemma TruncateShifted(t: int, whole: int)
    requires WholeSeconds(whole)
    ensures Truncate(Truncate(t) + whole) == Truncate(t) + whole
  {
    TruncateAbove(t, 0);
    WholeDifference(Truncate(t), whole);
  }

  lemma WholeRemainder(whole: int, w: int)
    requires w > 0 && WholeSeconds(w) && WholeSeconds(whole)
    ensures WholeSeconds(whole % w)
  {
    var q := whole / w;
    WholeMultiple(q, w);
    WholeDifference(whole, q * w);
    assert whole % w == whole - q * w;
  }

  /** A total of whole seconds, shifted by less than one. */
  lemma ShiftedQuotient(whole: int, delta: int, w: int)
    requires w > 0 && WholeSeconds(w) && WholeSeconds(whole) && -SECOND < delta < 0
    ensures whole % w != 0 ==> (whole + delta) / w == whole / w
    ensures whole % w == 0 ==> whole == (whole / w) * w && (whole + delta) / w == whole / w - 1
  {
    var q, r := whole / w, whole % w;
    assert whole == q * w + r;
    WholeRemainder(whole, w);
    if r != 0 {
      QuotientIs(whole + delta, q, r + delta, w);
    } else {
      assert (q - 1) * w == q * w - w;
      QuotientIs(whole + delta, q - 1, w + delta, w);
    }
  }

  /** Truncating both ends changes the number of windows that fit exactly when the ends are not aligned,
      and then by one. */
  lemma ClockQuotient(w: int, from: int, to: int)
    requires w > 0 && WholeSeconds(w) && from <= to
    ensures Aligned(w, from, to) ==> (Truncate(to) - Truncate(from)) / w <= (to - from) / w
    ensures !Aligned(w, from, to) ==>
              var k := (Truncate(to) - Truncate(from)) / w;
              k >= 1 && Truncate(to) == Truncate(from) + k * w && (to - from) / w == k - 1
  {
    TruncateAbove(from, 0);
    TruncateAbove(to, 0);
    var whole, delta := Truncate(to) - Truncate(from), to % SECOND - from % SECOND;
    assert to - from == whole + delta;
    if delta >= 0 {
      QuotientMonotone(whole, to - from, w);
    } else {
      ShiftedQuotient(whole, delta, w);
      if whole / w <= 0 {
        ProductMonotone(whole / w, 0, w);
      }
    }
  }

  lemma QuotientMonotone(x: int, y: int, w: int)
    requires w > 0 && x <= y
    ensures x / w <= y / w
  {
    if y / w < x / w {
      ProductMonotone(y / w + 1, x / w, w);
    }
  }

  // ---------------------------------------------------------- the extra move

  /** A policy that moves between one and two, waiting only before moves of one direction. */
  function Flapping(w: int, up: bool): (p: AdmittedPolicy)
    requires w > 0
    ensures Ordered(p) && WindowOf(p, up) == w && WindowOf(p, !up) == 0
  {
    Policy(1, 2, 1, 1, if up then w else 0, if up then 0 else w)
  }

  /** One flap: the move that waits, and the move back in the same instant. */
  function Flap(w: int, up: bool, now: int): seq<Observation>
    requires w > 0
  {
    [Observation(Flapping(w, up), Ok(if up then 2 else 1), true, now, true),
     Observation(Flapping(w, up), Ok(if up then 1 else 2), true, now, true)]
  }

  function FlapTime(w: int, from: int, i: nat): int {
    if i == 0 then from else Truncate(from) + i * w
  }

  function Flaps(w: int, up: bool, from: int, n: nat): seq<Observation>
    requires w > 0
  {
    if n == 0 then [] else Flaps(w, up, from, n - 1) + Flap(w, up, FlapTime(w, from, n - 1))
  }

  function Rest(up: bool, last: Option<int>): Loop { Loop(if up then 1 else 2, last) }

  lemma TwoMore(l: Loop, os: seq<Observation>, a: Observation, b: Observation, up: bool, from: int, to: int)
    ensures Run(l, os + [a, b]) == Pass(Pass(Run(l, os), a), b)
    ensures Moves(l, os + [a, b], up, from, to) == Moves(l, os, up, from, to)
              + (if from <= a.now <= to && Moved(Run(l, os), a, up) then 1 else 0)
              + (if from <= b.now <= to && Moved(Pass(Run(l, os), a), b, up) then 1 else 0)
  {
    var two := os + [a, b];
    var one := os + [a];
    assert two[..|two| - 1] == one && two[|two| - 1] == b;
    assert one[..|one| - 1] == os && one[|one| - 1] == a;
  }

  lemma FlapReturns(w: int, up: bool, now: int, last: Option<int>)
    requires w > 0 && (last.Some? ==> now >= last.value + w)
    ensures var f := Flap(w, up, now);
            var out := Pass(Rest(up, last), f[0]);
            && out == Rest(!up, Some(Truncate(now)))
            && Pass(out, f[1]) == Rest(up, Some(Truncate(now)))
  {
  }

  lemma TruncatedFlapTime(w: int, from: int, i: nat)
    requires w > 0 && WholeSeconds(w)
    ensures Truncate(FlapTime(w, from, i)) == Truncate(from) + i * w
    ensures from <= FlapTime(w, from, i)
    ensures i > 0 ==> FlapTime(w, from, i) >= Truncate(FlapTime(w, from, i - 1)) + w
  {
    WholeMultiple(i, w);
    TruncateShifted(from, i * w);
    TruncateAbove(from, 0);
    if i > 0 {
      ProductMonotone(1, i, w);
      assert i * w == (i - 1) * w + w;
      TruncatedFlapTime(w, from, i - 1);
    }
  }

  /** n flaps make n moves, a window apart in whole seconds. */
  lemma {:induction false} FlapsMove(w: int, up: bool, from: int, to: int, n: nat)
    requires w > 0 && WholeSeconds(w) && (n > 0 ==> FlapTime(w, from, n - 1) <= to)
    ensures var os := Flaps(w, up, from, n);
            && Run(Rest(up, None), os)
               == Rest(up, if n == 0 then None else Some(Truncate(FlapTime(w, from, n - 1))))
            && Moves(Rest(up, None), os, up, from, to) == n
  {
    if n > 0 {
      var os, now := Flaps(w, up, from, n - 1), FlapTime(w, from, n - 1);
      var f := Flap(w, up, now);
      TruncatedFlapTime(w, from, n - 1);
      if n > 1 {
        EarlierFlap(w, from, n - 1);
      }
      FlapsMove(w, up, from, to, n - 1);
      FlapReturns(w, up, now, Run(Rest(up, None), os).lastScale);
      TwoMore(Rest(up, None), os, f[0], f[1], up, from, to);
      assert Flaps(w, up, from, n) == os + [f[0], f[1]];
    }
  }

  lemma {:induction false} FlapsAreSteady(w: int, up: bool, from: int, n: nat)
    requires w > 0
    ensures var os := Flaps(w, up, from, n);
            Fixed(Flapping(w, up), os) && forall i | 0 <= i < |os| :: os[i].recorded
  {
    if n > 0 {
      FlapsAreSteady(w, up, from, n - 1);
    }
  }

  lemma EarlierFlap(w: int, from: int, i: nat)
    requires w > 0 && WholeSeconds(w) && i > 0
    ensures FlapTime(w, from, i - 1) <= FlapTime(w, from, i)
  {
    TruncatedFlapTime(w, from, i - 1);
    TruncatedFlapTime(w, from, i);
    assert i * w == (i - 1) * w + w;
  }

  // ----------------------------------------------------------------- theorem

  /** The documented limit on one run: one move more than whole windows fit the interval, on the clock. */
  ghost predicate ClockLimit(l: Loop, os: seq<Observation>, w: int, up: bool, from: int, to: int)
    requires w > 0
  {
    Moves(l, os, up, from, to) <= (to - from) / w + 1 + LostMoves(l, os, up, from, to)
  }

  lemma AlignedLimit(p: AdmittedPolicy, l: Loop, os: seq<Observation>, up: bool, from: int, to: int)
    requires SteadyPolicy(p, l, os) && WindowOf(p, up) > 0 && from <= to && Aligned(WindowOf(p, up), from, to)
    ensures ClockLimit(l, os, WindowOf(p, up), up, from, to)
  {
    RateLimit(p, l, os, up, from, to);
    ClockQuotient(WindowOf(p, up), from, to);
  }

  /** On any interval that is not aligned a run, with every move recorded, makes one move too many. */
  lemma UnalignedEscape(w: int, up: bool, from: int, to: int) returns (os: seq<Observation>)
    requires w > 0 && WholeSeconds(w) && from <= to && !Aligned(w, from, to)
    ensures SteadyPolicy(Flapping(w, up), Rest(up, None), os)
    ensures forall i | 0 <= i < |os| :: os[i].recorded
    ensures Moves(Rest(up, None), os, up, from, to) == (to - from) / w + 2
  {
    ClockQuotient(w, from, to);
    var k := (Truncate(to) - Truncate(from)) / w;
    os := Flaps(w, up, from, k + 1);
    FlapsMove(w, up, from, to, k + 1);
    FlapsAreSteady(w, up, from, k + 1);
  }

  /** The exact condition, for either direction: the limit in clock time holds in every run with a window
      w if and only if the interval is aligned with w. */
  lemma ClockLimitIffAligned(w: int, up: bool, from: int, to: int)
    requires w > 0 && WholeSeconds(w) && from <= to
    ensures (forall p: AdmittedPolicy, l: Loop, os: seq<Observation> |
               SteadyPolicy(p, l, os) && WindowOf(p, up) == w :: ClockLimit(l, os, w, up, from, to))
            <==> Aligned(w, from, to)
  {
    if Aligned(w, from, to) {
      forall p: AdmittedPolicy, l: Loop, os: seq<Observation> | SteadyPolicy(p, l, os) && WindowOf(p, up) == w
        ensures ClockLimit(l, os, w, up, from, to)
      {
        AlignedLimit(p, l, os, up, from, to);
      }
    } else {
      var os := UnalignedEscape(w, up, from, to);
      NothingLost(Rest(up, None), os, up, from, to);
      assert !ClockLimit(Rest(up, None), os, w, up, from, to);
      assert SteadyPolicy(Flapping(w, up), Rest(up, None), os) && WindowOf(Flapping(w, up), up) == w;
    }
  }

  /** Growth and shrink per interval of clock time, when every pass recorded its move. */
  lemma ClockNetRate(p: AdmittedPolicy, l: Loop, os: seq<Observation>, from: int, to: int)
    requires SteadyPolicy(p, l, os) && from <= to
    requires forall i | 0 <= i < |os| :: from <= os[i].now <= to && os[i].recorded
    ensures p.scaleUpAfter > 0 && Aligned(p.scaleUpAfter, from, to) ==>
              Run(l, os).replicas - l.replicas <= ((to - from) / p.scaleUpAfter + 1) * p.maxScaleUpStep
    ensures p.scaleDownAfter > 0 && Aligned(p.scaleDownAfter, from, to) ==>
              l.replicas - Run(l, os).replicas <= (to - from) / p.scaleDownAfter + 1
  {
    NetChange(p, l, os, from, to);
    NothingLost(l, os, true, from, to);
    NothingLost(l, os, false, from, to);
    if p.scaleUpAfter > 0 && Aligned(p.scaleUpAfter, from, to) {
      AlignedLimit(p, l, os, true, from, to);
      ProductMonotone(Moves(l, os, true, from, to), (to - from) / p.scaleUpAfter + 1, p.maxScaleUpStep);
    }
    if p.scaleDownAfter > 0 && Aligned(p.scaleDownAfter, from, to) {
      AlignedLimit(p, l, os, false, from, to);
    }
  }
}
