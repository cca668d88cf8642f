/** The scaling laws carried to the interleaved system: whatever users, Jobs, failures and stale reads do in
    between, the replica count and the scale time in the store are a run of the timed scaling system. */
module ScalingSystem {
  import opened Api
  import opened Cluster
  import opened Reconcile
  import opened Protocol
  import opened PassLaws
  import opened Versions
  import opened ScalingRuns
  import ScalingClock
  import Queue
  import Scaling
  import RolloutGate

  // ----------------------------------------------------------- growth and weights

  predicate Grew(c: Store, c': Store) {
    Current(c).Some? && Current(c').Some? && Current(c').value.spec.replicas > Current(c).value.spec.replicas
  }

  lemma GrowingStep(op: Instance, s: State, a: Action)
    requires Tied(s) && !a.User? && Grew(s.c, Step(op, s, a).c)
    ensures s.w.Syncing? && s.w.at == WritingSpec && Current(s.c) == Some(s.w.pass.md) && !Paused(s.w.pass)
  {
    match a
    case Work(sig, pick) =>
      if s.w.Syncing? {
        SyncShape(op, s.c, s.v, s.w.at, s.w.pass, sig, pick);
      } else {
        OtherWork(op, s, sig, pick);
      }
    case World(e) => WorldVersions(op, s.c, e);
    case _ =>
  }

  /** The cold-cache rule for the whole system: in every run, nobody but a user raises the replica count
      unless the marker for the weights of that very spec is on its claim. */
  lemma GrowthNeedsWeights(op: Instance, specs: set<Spec>, s: State, acts: seq<Action>, a: Action)
    requires Initial(op, s) && RolloutGate.ClaimConsistent(op, specs) && RolloutGate.AllAllowed(specs, acts)
    requires !a.User? && Grew(Exec(op, s, acts).c, Step(op, Exec(op, s, acts), a).c)
    ensures var c := Exec(op, s, acts).c;
            var spec := Current(c).value.spec;
            spec.cache.Some? ==> Key(op, spec) in Markers(c.volumes, Claim(op, spec))
  {
    TiedExec(op, s, acts);
    GrowingStep(op, Exec(op, s, acts), a);
    RolloutGate.ExecKeeps(op, specs, s, acts);
  }

  // ------------------------------------------------------------------- track

  /** The passes of a run that wrote a new replica count, in order, and what the current pass decided
      on. A pass counts as recorded from its status write on. */
  datatype Track = Track(wrote: seq<Observation>, pending: Option<Observation>)

  const NO_TRACK := Track([], None)

  function Decided(p: Pass, sig: Signals): Option<Observation> {
    match p.md.spec.autoscaling
    case None => None
    case Some(a) => Some(Observation(
      PolicyOf(a), Queue.DepthOf(sig.read), p.cache.warm || p.md.spec.cache.None?, sig.now, false))
  }

  function RecordLast(os: seq<Observation>): seq<Observation>
    requires os != []
  {
    os[..|os| - 1] + [os[|os| - 1].(recorded := true)]
  }

  function Watch(op: Instance, s: State, a: Action, t: Track): Track {
    if !a.Work? || !s.w.Syncing? then t
    else
      var p := s.w.pass;
      match s.w.at
      case Deciding => t.(pending := Decided(p, a.sig))
      case WritingSpec =>
        if p.decision.replicas != p.md.spec.replicas && IsLatest(s.c, p.rv) && t.pending.Some?
        then t.(wrote := t.wrote + [t.pending.value]) else t
      case WritingStatus =>
        if p.decision.lastScale.Some? && IsLatest(s.c, p.rv) && NextStatus(op, p, a.sig.wall) != p.md.status
           && t.wrote != []
        then t.(wrote := RecordLast(t.wrote)) else t
      case _ => t
  }

  ghost function Tracked(op: Instance, s: State, acts: seq<Action>, t: Track): Track
    decreases |acts|
  {
    if acts == [] then t else Tracked(op, Step(op, s, acts[0]), acts[1..], Watch(op, s, acts[0], t))
  }

  /** How often the replica count moved up (or down) in the version list after its first n entries. */
  function Turns(vs: seq<Option<Md>>, n: nat, up: bool): nat {
    if |vs| <= n || |vs| < 2 then 0
    else Turns(vs[..|vs| - 1], n, up) + if Turned(vs[|vs| - 2], vs[|vs| - 1], up) then 1 else 0
  }

  predicate Turned(before: Option<Md>, after: Option<Md>, up: bool) {
    && before.Some? && after.Some?
    && if up then after.value.spec.replicas > before.value.spec.replicas
       else after.value.spec.replicas < before.value.spec.replicas
  }

  // -------------------------------------------------------------- simulation

  /** The fixed part of a stretch of a run: the policy, where the loop and the version list started, and
      the interval all clock readings lie in. */
  datatype Stretch = Stretch(policy: Autoscaling, start: Loop, length: nat, from: int, to: int)

  /** What the observation predicts is what the pass decided. */
  ghost predicate Predicts(f: Stretch, p: Pass, o: Observation) {
    && o.policy == PolicyOf(f.policy) && f.from <= o.now <= f.to && !o.recorded
    && p.decision.lastScale.Some?
    && ScalingRuns.Pass(LoopOf(p.md), o) == Loop(p.decision.replicas, LastScale(p.md.status))
    && ScalingRuns.Pass(LoopOf(p.md), o.(recorded := true))
       == Loop(p.decision.replicas, Some(p.decision.lastScale.value * SECOND))
  }

  /** Only a pass on the latest version can still write; these are the ones to know something about. */
  ghost predicate Linked(f: Stretch, s: State, t: Track) {
    s.w.Syncing? && s.w.pass.rv == |s.c.versions| - 1 ==>
      var p := s.w.pass;
      && (s.w.at == WritingSpec ==>
            if p.decision.replicas == p.md.spec.replicas then p.decision.lastScale.None?
            else t.pending.Some? && Predicts(f, p, t.pending.value))
      && (Late(s.w.at) && p.decision.lastScale.Some? ==>
            && t.wrote != []
            && Run(f.start, RecordLast(t.wrote)) == Loop(p.md.spec.replicas, Some(p.decision.lastScale.value * SECOND)))
  }

  ghost predicate Counted(f: Stretch, vs: seq<Option<Md>>, os: seq<Observation>) {
    && Fixed(PolicyOf(f.policy), os)
    && (forall i | 0 <= i < |os| :: f.from <= os[i].now <= f.to)
    && (forall up :: Turns(vs, f.length, up) == Moves(f.start, os, up, f.from, f.to))
  }

  /** The object, while it exists, is where the run of the timed system is. */
  ghost predicate Follows(f: Stretch, v: Option<Md>, os: seq<Observation>) {
    v.Some? ==> v.value.spec.autoscaling == Some(f.policy) && LoopOf(v.value) == Run(f.start, os)
  }

  ghost predicate Sim(f: Stretch, s: State, t: Track) {
    && 1 <= f.length <= |s.c.versions|
    && Follows(f, Current(s.c), t.wrote)
    && Counted(f, s.c.versions, t.wrote)
    && Linked(f, s, t)
  }

  /** The clock readings of an action lie in the interval. */
  predicate Within(f: Stretch, a: Action) { a.Work? ==> f.from <= a.sig.now <= f.to }

  lemma TurnsSnoc(vs: seq<Option<Md>>, v: Option<Md>, n: nat, up: bool)
    requires 1 <= n <= |vs|
    ensures Turns(vs + [v], n, up) == Turns(vs, n, up) + if Turned(vs[|vs| - 1], v, up) then 1 else 0
  {
    assert (vs + [v])[..|vs|] == vs;
  }

  /** Writes that keep count, policy and scale time: finalizers, deletion, an unscaled status. */
  lemma QuietAppend(f: Stretch, s: State, t: Track, s': State, v: Option<Md>)
    requires Sim(f, s, t) && s'.c.versions == s.c.versions + [v]
    requires s'.w == s.w || !s'.w.Syncing?
    requires s.w.Syncing? ==> s.w.pass.rv < |s.c.versions|
    requires v.Some? ==> && Current(s.c).Some? && LoopOf(v.value) == LoopOf(Current(s.c).value)
                         && v.value.spec.autoscaling == Current(s.c).value.spec.autoscaling
    ensures Sim(f, s', t)
  {
    forall up
      ensures Turns(s.c.versions + [v], f.length, up) == Turns(s.c.versions, f.length, up)
    {
      TurnsSnoc(s.c.versions, v, f.length, up);
    }
  }

  /** Anything that leaves the version list alone. */
  lemma QuietStep(f: Stretch, s: State, t: Track, s': State)
    requires Sim(f, s, t) && s'.c.versions == s.c.versions
    requires s'.w == s.w || !s'.w.Syncing? || s'.w.at == EnsuringClaim
    ensures Sim(f, s', t)
  {
  }

  lemma RunSnoc(l: Loop, os: seq<Observation>, o: Observation, up: bool, from: int, to: int)
    ensures Run(l, os + [o]) == ScalingRuns.Pass(Run(l, os), o)
    ensures Moves(l, os + [o], up, from, to)
         == Moves(l, os, up, from, to) + if from <= o.now <= to && Moved(Run(l, os), o, up) then 1 else 0
  {
    assert (os + [o])[..|os|] == os;
  }

  /** Recording a move changes the time, not the moves. */
  lemma RecordKeepsMoves(l: Loop, os: seq<Observation>, up: bool, from: int, to: int)
    requires os != []
    ensures Moves(l, RecordLast(os), up, from, to) == Moves(l, os, up, from, to)
  {
    var init, o := os[..|os| - 1], os[|os| - 1];
    assert os == init + [o];
    RunSnoc(l, init, o, up, from, to);
    RunSnoc(l, init, o.(recorded := true), up, from, to);
  }

  /** A decision, as the timed system sees it. */
  lemma DecisionPredicted(f: Stretch, p: Pass, sig: Signals)
    requires p.md.spec.autoscaling == Some(f.policy) && f.from <= sig.now <= f.to
    ensures var q := p.(decision := DecideReplicas(p.md, p.cache.warm, sig));
            if q.decision.replicas == p.md.spec.replicas then q.decision.lastScale.None?
            else Predicts(f, q, Decided(p, sig).value)
  {
  }

  lemma DecidingFollows(op: Instance, f: Stretch, s: State, t: Track, sig: Signals, pick: string)
    requires Tied(s) && Sim(f, s, t) && s.w.Syncing? && s.w.at == Deciding && Within(f, Work(sig, pick))
    ensures Sim(f, Step(op, s, Work(sig, pick)), Watch(op, s, Work(sig, pick), t))
  {
    var p := s.w.pass;
    if p.rv == |s.c.versions| - 1 {
      assert Current(s.c) == Some(p.md);
      DecisionPredicted(f, p, sig);
    }
  }

  lemma WriteIsPredicted(f: Stretch, s: State, t: Track, o: Observation, md: Md, up: bool)
    requires Sim(f, s, t) && Current(s.c).Some? && f.from <= o.now <= f.to
    requires ScalingRuns.Pass(LoopOf(Current(s.c).value), o).replicas == md.spec.replicas
    ensures Turns(s.c.versions + [Some(md)], f.length, up) == Moves(f.start, t.wrote + [o], up, f.from, f.to)
  {
    TurnsSnoc(s.c.versions, Some(md), f.length, up);
    RunSnoc(f.start, t.wrote, o, up, f.from, f.to);
  }

  lemma SpecWriteFollows(f: Stretch, s: State, t: Track)
    requires Sim(f, s, t) && s.w.Syncing? && s.w.at == WritingSpec && IsLatest(s.c, s.w.pass.rv)
    requires Current(s.c) == Some(s.w.pass.md) && s.w.pass.decision.replicas != s.w.pass.md.spec.replicas
    ensures var p := s.w.pass;
            var md := WithReplicas(p.md, p.decision.replicas);
            && t.pending.Some?
            && Sim(f, s.(c := PutMd(s.c, Some(md)),
                         w := Syncing(ApplyingDeployment, p.(md := md, rv := |s.c.versions|))),
                   t.(wrote := t.wrote + [t.pending.value]))
  {
    var p, o := s.w.pass, t.pending.value;
    var md := WithReplicas(p.md, p.decision.replicas);
    assert RecordLast(t.wrote + [o]) == t.wrote + [o.(recorded := true)];
    RunSnoc(f.start, t.wrote, o.(recorded := true), true, f.from, f.to);
    RunSnoc(f.start, t.wrote, o, true, f.from, f.to);
    forall up
      ensures Turns(s.c.versions + [Some(md)], f.length, up) == Moves(f.start, t.wrote + [o], up, f.from, f.to)
    {
      WriteIsPredicted(f, s, t, o, md, up);
    }
  }

  lemma StatusLoop(op: Instance, p: Pass, wall: int)
    ensures LoopOf(p.md.(status := NextStatus(op, p, wall)))
         == Loop(p.md.spec.replicas, if p.decision.lastScale.Some? then Some(p.decision.lastScale.value * SECOND)
                                     else LastScale(p.md.status))
  {
  }

  /** A status that carries the time of the pass's own move. */
  lemma TimeWriteFollows(f: Stretch, s: State, t: Track, md: Md)
    requires Sim(f, s, t) && s.w.Syncing? && s.w.at == WritingStatus && s.w.pass.rv == |s.c.versions| - 1
    requires Current(s.c) == Some(s.w.pass.md) && s.w.pass.decision.lastScale.Some?
    requires md.spec == s.w.pass.md.spec
    requires LoopOf(md) == Loop(md.spec.replicas, Some(s.w.pass.decision.lastScale.value * SECOND))
    ensures t.wrote != []
    ensures Sim(f, s.(c := PutMd(s.c, Some(md)), w := Synced(s.w.pass)), t.(wrote := RecordLast(t.wrote)))
  {
    forall up
      ensures Turns(s.c.versions + [Some(md)], f.length, up) == Moves(f.start, RecordLast(t.wrote), up, f.from, f.to)
    {
      TurnsSnoc(s.c.versions, Some(md), f.length, up);
      RecordKeepsMoves(f.start, t.wrote, up, f.from, f.to);
    }
  }

  lemma SpecPhaseFollows(op: Instance, f: Stretch, s: State, t: Track, sig: Signals, pick: string)
    requires Tied(s) && Sim(f, s, t) && s.w.Syncing? && s.w.at == WritingSpec
    ensures Sim(f, Step(op, s, Work(sig, pick)), Watch(op, s, Work(sig, pick), t))
  {
    var p := s.w.pass;
    if p.decision.replicas != p.md.spec.replicas && IsLatest(s.c, p.rv) {
      SpecWriteFollows(f, s, t);
    }
  }

  lemma StatusPhaseFollows(op: Instance, f: Stretch, s: State, t: Track, sig: Signals, pick: string)
    requires Tied(s) && Sim(f, s, t) && s.w.Syncing? && s.w.at == WritingStatus
    ensures Sim(f, Step(op, s, Work(sig, pick)), Watch(op, s, Work(sig, pick), t))
  {
    var p, s' := s.w.pass, Step(op, s, Work(sig, pick));
    if IsLatest(s.c, p.rv) && NextStatus(op, p, sig.wall) != p.md.status {
      var md := p.md.(status := NextStatus(op, p, sig.wall));
      StatusLoop(op, p, sig.wall);
      if p.decision.lastScale.Some? {
        TimeWriteFollows(f, s, t, md);
      } else {
        QuietAppend(f, s, t, s', Some(md));
      }
    } else {
      QuietStep(f, s, t, s');
    }
  }

  lemma OtherPhaseFollows(op: Instance, f: Stretch, s: State, t: Track, sig: Signals, pick: string)
    requires Sim(f, s, t) && s.w.Syncing? && s.w.at !in {Deciding, WritingSpec, WritingStatus}
    ensures var (c', w') := SyncStep(op, s.c, s.v, s.w.at, s.w.pass, sig, pick);
            Sim(f, s.(c := c', w := w'), t)
  {
    SyncShape(op, s.c, s.v, s.w.at, s.w.pass, sig, pick);
  }

  lemma OtherWorkFollows(op: Instance, f: Stretch, s: State, t: Track, sig: Signals, pick: string)
    requires Tied(s) && Sim(f, s, t) && !s.w.Syncing?
    ensures Sim(f, Step(op, s, Work(sig, pick)), t)
  {
    OtherWork(op, s, sig, pick);
    var s' := Step(op, s, Work(sig, pick));
    if s'.c.versions == s.c.versions {
      QuietStep(f, s, t, s');
    } else {
      QuietAppend(f, s, t, s', Current(s'.c));
    }
  }

  lemma UserFollows(op: Instance, f: Stretch, s: State, t: Track, u: UserAction)
    requires Tied(s) && Sim(f, s, t) && !Edits(User(u))
    ensures Sim(f, Step(op, s, User(u)), t)
  {
    UserVersions(s.c, u);
    var s' := Step(op, s, User(u));
    if s'.c.versions == s.c.versions {
      QuietStep(f, s, t, s');
    } else {
      QuietAppend(f, s, t, s', Current(s'.c));
    }
  }

  lemma WorkFollows(op: Instance, f: Stretch, s: State, t: Track, sig: Signals, pick: string)
    requires Tied(s) && Sim(f, s, t) && Within(f, Work(sig, pick))
    ensures Sim(f, Step(op, s, Work(sig, pick)), Watch(op, s, Work(sig, pick), t))
  {
    if !s.w.Syncing? {
      OtherWorkFollows(op, f, s, t, sig, pick);
    } else {
      match s.w.at
      case Deciding => DecidingFollows(op, f, s, t, sig, pick);
      case WritingSpec => SpecPhaseFollows(op, f, s, t, sig, pick);
      case WritingStatus => StatusPhaseFollows(op, f, s, t, sig, pick);
      case _ => OtherPhaseFollows(op, f, s, t, sig, pick);
    }
  }

  lemma StepFollows(op: Instance, f: Stretch, s: State, t: Track, a: Action)
    requires Tied(s) && Sim(f, s, t) && !Edits(a) && Within(f, a)
    ensures Sim(f, Step(op, s, a), Watch(op, s, a, t))
  {
    match a
    case Work(sig, pick) => WorkFollows(op, f, s, t, sig, pick);
    case User(u) => UserFollows(op, f, s, t, u);
    case World(e) =>
      WorldVersions(op, s.c, e);
      QuietStep(f, s, t, Step(op, s, a));
    case _ => QuietStep(f, s, t, Step(op, s, a));
  }

  lemma {:induction false} ExecFollows(op: Instance, f: Stretch, s: State, t: Track, acts: seq<Action>)
    requires Tied(s) && Sim(f, s, t) && forall i | 0 <= i < |acts| :: !Edits(acts[i]) && Within(f, acts[i])
    ensures Sim(f, Exec(op, s, acts), Tracked(op, s, acts, t))
    decreases |acts|
  {
    if acts != [] {
      TiedStep(op, s, acts[0]);
      StepFollows(op, f, s, t, acts[0]);
      ExecFollows(op, f, Step(op, s, acts[0]), Watch(op, s, acts[0], t), acts[1..]);
    }
  }

  // ---------------------------------------------------------------- theorems

  /** A stretch may begin at any point of a run at which the worker is at rest or holds an outdated
      version - so after every edit - and contains no further edit. */
  ghost predicate Begins(s: State, md: Md, a: Autoscaling) {
    && Tied(s) && Current(s.c) == Some(md) && md.spec.autoscaling == Some(a)
    && (s.w.Syncing? ==> s.w.pass.rv != |s.c.versions| - 1)
  }

  /** Every edit of a run begins a stretch, wherever the worker is. */
  lemma EditBegins(op: Instance, s: State, acts: seq<Action>, spec: Spec, a: Autoscaling)
    requires Initial(op, s) && Current(Exec(op, s, acts).c).Some?
    requires Current(Exec(op, s, acts).c).value.spec != spec && spec.autoscaling == Some(a)
    ensures var s' := Step(op, Exec(op, s, acts), User(Edit(spec)));
            Current(s'.c).Some? && Begins(s', Current(s'.c).value, a)
  {
    TiedExec(op, s, acts);
    TiedStep(op, Exec(op, s, acts), User(Edit(spec)));
  }

  ghost predicate Unedited(acts: seq<Action>, from: int, to: int) {
    forall i | 0 <= i < |acts| :: !Edits(acts[i]) && (acts[i].Work? ==> from <= acts[i].sig.now <= to)
  }

  /** The passes of a stretch that wrote a new replica count. */
  ghost function Wrote(op: Instance, s: State, acts: seq<Action>): seq<Observation> {
    Tracked(op, s, acts, NO_TRACK).wrote
  }

  /** The simulation: over every stretch the stored count and scale time are a run of the timed system over
      the passes that wrote, and each of its moves is a move of the version list. */
  lemma SystemIsScalingRun(op: Instance, s: State, md: Md, a: Autoscaling, acts: seq<Action>, from: int, to: int)
    requires Begins(s, md, a) && Unedited(acts, from, to)
    ensures var c, os := Exec(op, s, acts).c, Wrote(op, s, acts);
            && Fixed(PolicyOf(a), os)
            && (forall up :: Turns(c.versions, |s.c.versions|, up) == Moves(LoopOf(md), os, up, from, to))
            && (Current(c).Some? ==> LoopOf(Current(c).value) == Run(LoopOf(md), os))
  {
    var f := Stretch(a, LoopOf(md), |s.c.versions|, from, to);
    assert Sim(f, s, NO_TRACK);
    ExecFollows(op, f, s, NO_TRACK, acts);
  }

  lemma StoredIsSteady(md: Md, a: Autoscaling, os: seq<Observation>)
    requires Fixed(PolicyOf(a), os)
    requires Scaling.Ordered(PolicyOf(a)) && Scaling.InBounds(PolicyOf(a), md.spec.replicas)
    ensures SteadyPolicy(PolicyOf(a), LoopOf(md), os)
  {
  }

  /** The rate limit of the whole system: over any stretch whose clock readings lie in an interval, the
      version list turns up (or down) at most once more than whole windows fit, plus once for every
      pass that wrote the count but not the time; in clock time, if the interval is aligned. */
  lemma SystemRateLimit(
    op: Instance, s: State, md: Md, a: Autoscaling, acts: seq<Action>, up: bool, from: int, to: int)
    requires Begins(s, md, a) && Unedited(acts, from, to) && from <= to
    requires Scaling.Ordered(PolicyOf(a)) && Scaling.InBounds(PolicyOf(a), md.spec.replicas)
    requires WindowOf(PolicyOf(a), up) > 0
    ensures var w := WindowOf(PolicyOf(a), up);
            var turns := Turns(Exec(op, s, acts).c.versions, |s.c.versions|, up);
            var lost := LostMoves(LoopOf(md), Wrote(op, s, acts), up, from, to);
            && turns <= (Truncate(to) - Truncate(from)) / w + 1 + lost
            && (ScalingClock.Aligned(w, from, to) ==> turns <= (to - from) / w + 1 + lost)
  {
    SystemIsScalingRun(op, s, md, a, acts, from, to);
    var os := Wrote(op, s, acts);
    StoredIsSteady(md, a, os);
    RateLimit(PolicyOf(a), LoopOf(md), os, up, from, to);
    if ScalingClock.Aligned(WindowOf(PolicyOf(a), up), from, to) {
      ScalingClock.AlignedLimit(PolicyOf(a), LoopOf(md), os, up, from, to);
    }
  }

  /** Bounds and the cold-cache rule of the whole system. */
  lemma SystemKeepsBounds(op: Instance, s: State, md: Md, a: Autoscaling, acts: seq<Action>, from: int, to: int)
    requires Begins(s, md, a) && Unedited(acts, from, to) && Current(Exec(op, s, acts).c).Some?
    ensures var replicas := Current(Exec(op, s, acts).c).value.spec.replicas;
            && (Scaling.Ordered(PolicyOf(a)) && Scaling.InBounds(PolicyOf(a), md.spec.replicas) ==>
                  Scaling.InBounds(PolicyOf(a), replicas))
            && ((forall o | o in Wrote(op, s, acts) :: !o.warm) ==> replicas <= md.spec.replicas)
  {
    SystemIsScalingRun(op, s, md, a, acts, from, to);
    var os := Wrote(op, s, acts);
    if Scaling.Ordered(PolicyOf(a)) && Scaling.InBounds(PolicyOf(a), md.spec.replicas) {
      RunKeepsBounds(PolicyOf(a), LoopOf(md), os);
    }
    if forall o | o in os :: !o.warm {
      ColdNeverGrows(LoopOf(md), os);
    }
  }
}
