/** What a stored status is worth in every run: a condition that speaks of the current generation and says
    Ready or WeightsCached has the marker behind it. */
module StoredStatus {
  import opened Api
  import opened StatusModel
  import opened Cluster
  import opened Reconcile
  import opened Protocol
  import opened Versions
  import RolloutGate
  import Interleavings

  /** The condition is true and up to date with the spec. */
  predicate SaysNow(md: Md, kind: string) {
    && md.status.observedGeneration == md.generation
    && Find(md.status.conditions, kind).Some? && Find(md.status.conditions, kind).value.status
  }

  predicate Promises(md: Md) { SaysNow(md, READY) || SaysNow(md, WEIGHTS_CACHED) }

  predicate HasMarker(op: Instance, vs: map<string, Volume>, spec: Spec) {
    spec.cache.Some? ==> Key(op, spec) in Markers(vs, Claim(op, spec))
  }

  predicate Kept(op: Instance, vs: map<string, Volume>, v: Option<Md>) {
    v.Some? && Promises(v.value) ==> HasMarker(op, vs, v.value.spec)
  }

  ghost predicate AllKept(op: Instance, vs: map<string, Volume>, versions: seq<Option<Md>>) {
    forall i | 0 <= i < |versions| :: Kept(op, vs, versions[i])
  }

  lemma GrowthKeepsMarker(op: Instance, vs: map<string, Volume>, vs': map<string, Volume>, versions: seq<Option<Md>>)
    requires Grown(vs, vs') && AllKept(op, vs, versions)
    ensures AllKept(op, vs', versions)
  {
    forall i | 0 <= i < |versions|
      ensures Kept(op, vs', versions[i])
    {
      if versions[i].Some? {
        RolloutGate.GrowthKeepsMarkers(vs, vs', Claim(op, versions[i].value.spec));
      }
    }
  }

  /** A version that repeats the one before: the same promise, or one about an older generation. */
  lemma RepeatKeeps(op: Instance, vs: map<string, Volume>, versions: seq<Option<Md>>, before: Option<Md>, after: Option<Md>)
    requires Repeats(before, after) && Kept(op, vs, before)
    requires before.Some? ==> before.value.status.observedGeneration <= before.value.generation
    ensures Kept(op, vs, after)
  {
  }

  /** The status a pass writes promises only what its pass found warm. */
  lemma WrittenStatusKeeps(op: Instance, vs: map<string, Volume>, specs: set<Spec>, p: Pass, wall: int)
    requires RolloutGate.PassOk(op, specs, vs, p)
    requires p.cache.enabled ==> p.md.spec.cache.Some?
    ensures Kept(op, vs, Some(p.md.(status := NextStatus(op, p, wall))))
  {
    BuildConditions(p.md.status, ObservedBy(op, p), wall, READY);
    BuildConditions(p.md.status, ObservedBy(op, p), wall, WEIGHTS_CACHED);
    KindsDistinct();
  }

  /** The pass's cache state says enabled only for a spec with a cache. */
  ghost predicate CacheTied(w: Worker) {
    w.Syncing? && w.at != EnsuringClaim && w.at != ReadingJob && w.at != CreatingJob && w.pass.cache.enabled ==>
      w.pass.md.spec.cache.Some?
  }

  ghost predicate Honoured(op: Instance, s: State) {
    AllKept(op, s.c.volumes, s.c.versions) && CacheTied(s.w)
  }

  lemma SyncCacheTied(op: Instance, specs: set<Spec>, s: State, sig: Signals, pick: string)
    requires s.w.Syncing? && CacheTied(s.w) && RolloutGate.Inv(op, specs, s)
    ensures CacheTied(SyncStep(op, s.c, s.v, s.w.at, s.w.pass, sig, pick).1)
  {
  }

  lemma SyncHonours(op: Instance, specs: set<Spec>, s: State, sig: Signals, pick: string)
    requires Honoured(op, s) && Tied(s) && RolloutGate.Inv(op, specs, s) && s.w.Syncing?
    ensures AllKept(op, s.c.volumes, SyncStep(op, s.c, s.v, s.w.at, s.w.pass, sig, pick).0.versions)
  {
    var p := s.w.pass;
    SyncShape(op, s.c, s.v, s.w.at, p, sig, pick);
    if s.w.at == WritingStatus {
      WrittenStatusKeeps(op, s.c.volumes, specs, p, sig.wall);
    }
  }

  lemma EditHonours(op: Instance, c: Store, u: UserAction)
    requires Stamped(c.versions) && Edits(User(u))
    ensures Kept(op, c.volumes, Current(UserStep(c, u))) || UserStep(c, u) == c
  {
  }

  lemma VersionsHonoured(op: Instance, specs: set<Spec>, s: State, a: Action)
    requires Honoured(op, s) && Tied(s) && RolloutGate.Inv(op, specs, s)
    ensures AllKept(op, s.c.volumes, Step(op, s, a).c.versions)
  {
    match a
    case Work(sig, pick) =>
      if s.w.Syncing? {
        SyncHonours(op, specs, s, sig, pick);
      } else {
        OtherWork(op, s, sig, pick);
        AppendHonours(op, s.c, WorkerStep(op, s.c, s.v, s.w, sig, pick).0);
      }
    case User(u) =>
      UserVersions(s.c, u);
      if Edits(a) {
        EditHonours(op, s.c, u);
      } else {
        AppendHonours(op, s.c, UserStep(s.c, u));
      }
    case World(e) => WorldVersions(op, s.c, e);
    case _ =>
  }

  lemma AppendHonours(op: Instance, c: Store, c': Store)
    requires AllKept(op, c.volumes, c.versions) && Stamped(c.versions)
    requires c'.versions == c.versions
             || (c'.versions == c.versions + [Current(c')] && Repeats(Current(c), Current(c')))
    ensures AllKept(op, c.volumes, c'.versions)
  {
    if c'.versions != c.versions {
      RepeatKeeps(op, c.volumes, c.versions, Current(c), Current(c'));
    }
  }

  lemma StepHonours(op: Instance, specs: set<Spec>, s: State, a: Action)
    requires Honoured(op, s) && Tied(s) && RolloutGate.Inv(op, specs, s)
    ensures Honoured(op, Step(op, s, a))
  {
    VersionsHonoured(op, specs, s, a);
    Interleavings.StepGrows(op, s, a);
    GrowthKeepsMarker(op, s.c.volumes, Step(op, s, a).c.volumes, Step(op, s, a).c.versions);
    if a.Work? && s.w.Syncing? {
      SyncCacheTied(op, specs, s, a.sig, a.pick);
    } else if a.Work? {
      OtherWork(op, s, a.sig, a.pick);
    }
  }

  lemma {:induction false} ExecHonours(op: Instance, specs: set<Spec>, s: State, acts: seq<Action>)
    requires Honoured(op, s) && Tied(s) && RolloutGate.Inv(op, specs, s)
    requires RolloutGate.ClaimConsistent(op, specs) && RolloutGate.AllAllowed(specs, acts)
    ensures Honoured(op, Exec(op, s, acts))
    decreases |acts|
  {
    if acts != [] {
      assert RolloutGate.Allowed(specs, acts[0]);
      StepHonours(op, specs, s, acts[0]);
      TiedStep(op, s, acts[0]);
      RolloutGate.StepKeeps(op, specs, s, acts[0]);
      ExecHonours(op, specs, Step(op, s, acts[0]), acts[1..]);
    }
  }

  /** In every run over claim-consistent specs, an object whose status is up to date with its generation
      and says Ready or WeightsCached has the marker of its weights on its claim. */
  lemma PromisesAreKept(op: Instance, specs: set<Spec>, s: State, acts: seq<Action>)
    requires Initial(op, s) && RolloutGate.ClaimConsistent(op, specs) && RolloutGate.AllAllowed(specs, acts)
    ensures var c := Exec(op, s, acts).c;
            Current(c).Some? && Promises(Current(c).value) ==> HasMarker(op, c.volumes, Current(c).value.spec)
  {
    ExecHonours(op, specs, s, acts);
  }
}
