/** The list of stored versions of the object in every run: who appends what, and how the worker's copy
    relates to it. */
module Versions {
  import opened Api
  import opened Cluster
  import opened Reconcile
  import opened Protocol

  predicate Edits(a: Action) { a.User? && (a.user.Create? || a.user.Edit?) }

  /** No status speaks of a generation the object has not reached. */
  ghost predicate Stamped(versions: seq<Option<Md>>) {
    forall i | 0 <= i < |versions| && versions[i].Some? ::
      versions[i].value.status.observedGeneration <= versions[i].value.generation
  }

  predicate Stored(c: Store, md: Md, rv: nat) { rv < |c.versions| && c.versions[rv] == Some(md) }

  /** A decision carries a time exactly if it moves the count, to grow it needs warm weights, and once it
      is written the object has a generation its status does not know. */
  ghost predicate DecisionTied(at: Phase, p: Pass) {
    && (at == WritingSpec ==>
          && (p.decision.lastScale.Some? <==> p.decision.replicas != p.md.spec.replicas)
          && (p.decision.replicas > p.md.spec.replicas ==> !Paused(p)))
    && (Late(at) ==>
          && p.decision.replicas == p.md.spec.replicas
          && (p.decision.lastScale.Some? ==> p.md.status.observedGeneration < p.md.generation))
  }

  /** The worker holds what was stored under the resourceVersion it holds. */
  ghost predicate Tied(s: State) {
    && s.seen < |s.c.versions| && Stamped(s.c.versions)
    && match s.w
       case AddingFinalizer(md, rv) => Stored(s.c, md, rv)
       case Finalizing(_, md, rv) => Stored(s.c, md, rv)
       case Syncing(at, p) => Stored(s.c, p.md, p.rv) && DecisionTied(at, p)
       case Synced(p) => Stored(s.c, p.md, p.rv)
       case Idle => true
  }

  lemma DecisionFacts(md: Md, warm: bool, sig: Signals)
    ensures var d := DecideReplicas(md, warm, sig);
            && (d.lastScale.Some? <==> d.replicas != md.spec.replicas)
            && (d.replicas > md.spec.replicas ==> warm || md.spec.cache.None?)
  {
  }

  lemma StatusStamp(op: Instance, p: Pass, wall: int)
    ensures NextStatus(op, p, wall).observedGeneration == p.md.generation
  {
  }

  lemma TiedSync(op: Instance, s: State, sig: Signals, pick: string)
    requires Tied(s) && s.w.Syncing?
    ensures var (c', w') := SyncStep(op, s.c, s.v, s.w.at, s.w.pass, sig, pick); Tied(s.(c := c', w := w'))
  {
    var p := s.w.pass;
    SyncShape(op, s.c, s.v, s.w.at, p, sig, pick);
    DecisionFacts(p.md, p.cache.warm, sig);
    StatusStamp(op, p, sig.wall);
  }

  /** A version that says the same as the one before, as far as spec and status go; deletion moves the
      generation. */
  ghost predicate Repeats(before: Option<Md>, after: Option<Md>) {
    after.Some? ==>
      && before.Some? && after.value.spec == before.value.spec && after.value.status == before.value.status
      && (after.value.generation == before.value.generation || after.value.generation == before.value.generation + 1)
  }

  /** What the worker does outside sync. */
  lemma OtherWork(op: Instance, s: State, sig: Signals, pick: string)
    requires Tied(s) && !s.w.Syncing?
    ensures var (c', w') := WorkerStep(op, s.c, s.v, s.w, sig, pick);
            && !w'.Syncing? && Tied(s.(c := c', w := w'))
            && (c'.versions == s.c.versions
                || (c'.versions == s.c.versions + [Current(c')] && Repeats(Current(s.c), Current(c'))))
  {
  }

  lemma UserVersions(c: Store, u: UserAction)
    requires Stamped(c.versions)
    ensures var c' := UserStep(c, u);
            && Stamped(c'.versions)
            && (c'.versions == c.versions
                || (c'.versions == c.versions + [Current(c')] && (Edits(User(u)) || Repeats(Current(c), Current(c')))))
  {
  }

  lemma TiedStep(op: Instance, s: State, a: Action)
    requires Tied(s)
    ensures Tied(Step(op, s, a))
  {
    match a
    case Work(sig, pick) =>
      if s.w.Syncing? {
        TiedSync(op, s, sig, pick);
      } else {
        OtherWork(op, s, sig, pick);
      }
    case User(u) => UserVersions(s.c, u);
    case World(e) => WorldVersions(op, s.c, e);
    case _ =>
  }

  lemma {:induction false} TiedExec(op: Instance, s: State, acts: seq<Action>)
    requires Tied(s)
    ensures Tied(Exec(op, s, acts))
    decreases |acts|
  {
    if acts != [] {
      TiedStep(op, s, acts[0]);
      TiedExec(op, Step(op, s, acts[0]), acts[1..]);
    }
  }
}
