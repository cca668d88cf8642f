/** Children never outlive the finalizer, under every interleaving. */
module TeardownSafety {
  import opened Api
  import opened Cluster
  import opened Reconcile
  import opened Protocol

  predicate Live(v: Option<Md>) { v.Some? && v.value.finalizer && !v.value.deleting }

  /** The object exists and holds the operator's finalizer. */
  predicate Held(c: Store) { Current(c).Some? && Current(c).value.finalizer }

  ghost predicate NoOwnJobs(op: Instance, c: Store) {
    forall n | n in c.jobs :: c.jobs[n].instance != op.name
  }

  ghost predicate WorkerInv(op: Instance, s: State) {
    match s.w
    case Idle => true
    case Synced(_) => true
    case AddingFinalizer(md, rv) => !md.deleting
    case Syncing(_, p) => Held(s.c) && p.md.finalizer
    case Finalizing(step, md, rv) =>
      && rv <= s.seen && rv < |s.c.versions| && s.c.versions[rv] == Some(md) && md.deleting
      && (step != DeletingDeployment ==> s.c.deployment.None?)
      && (step == ListingPods || step == Releasing ==> NoOwnJobs(op, s.c))
  }

  ghost predicate Inv(op: Instance, s: State) {
    && s.seen < |s.c.versions|
    && (forall i | s.seen <= i < |s.c.versions| :: Live(s.c.versions[i]) ==> Held(s.c))
    && (s.c.deployment.Some? ==> Held(s.c))
    && (!NoOwnJobs(op, s.c) ==> Held(s.c))
    && WorkerInv(op, s)
  }

  /** Appending a version that keeps the finalizer if it was held. */
  lemma AppendKeeps(op: Instance, s: State, v: Option<Md>)
    requires Inv(op, s)
    requires Held(s.c) ==> v.Some? && v.value.finalizer
    ensures Inv(op, s.(c := PutMd(s.c, v)))
  {
    var c' := PutMd(s.c, v);
    assert forall i | 0 <= i < |s.c.versions| :: c'.versions[i] == s.c.versions[i];
  }

  /** Changing nothing but Jobs, and adding none of this instance's. */
  lemma JobsFrame(op: Instance, s: State, c': Store)
    requires Inv(op, s)
    requires c'.versions == s.c.versions
    requires c'.deployment.Some? ==> s.c.deployment.Some?
    requires NoOwnJobs(op, s.c) ==> NoOwnJobs(op, c')
    ensures Inv(op, s.(c := c'))
  {
  }

  /** What a call of sync can do to the version list: append a version that keeps the finalizer. */
  lemma SyncKeepsFinalizer(op: Instance, s: State, sig: Signals, pick: string)
    requires s.w.Syncing?
    ensures var (c', w') := SyncStep(op, s.c, s.v, s.w.at, s.w.pass, sig, pick);
            && (w'.Syncing? || w'.Idle? || w'.Synced?)
            && (w'.Syncing? ==> w'.pass.md.finalizer == s.w.pass.md.finalizer)
            && (c'.versions == s.c.versions
                || (c'.versions == s.c.versions + [Current(c')] && Current(c').Some?
                    && Current(c').value.finalizer == s.w.pass.md.finalizer))
  {
    SyncShape(op, s.c, s.v, s.w.at, s.w.pass, sig, pick);
  }

  lemma SyncKeeps(op: Instance, s: State, sig: Signals, pick: string)
    requires Inv(op, s) && s.w.Syncing?
    ensures var (c', w') := SyncStep(op, s.c, s.v, s.w.at, s.w.pass, sig, pick); Inv(op, s.(c := c', w := w'))
  {
    SyncKeepsFinalizer(op, s, sig, pick);
    var (c', w') := SyncStep(op, s.c, s.v, s.w.at, s.w.pass, sig, pick);
    HeldKeeps(op, s, c', w');
  }

  /** While the finalizer stays, children may come and go. */
  lemma HeldKeeps(op: Instance, s: State, c': Store, w': Worker)
    requires Inv(op, s) && Held(s.c)
    requires c'.versions == s.c.versions
             || (c'.versions == s.c.versions + [Current(c')] && Current(c').Some? && Current(c').value.finalizer)
    requires w'.Idle? || w'.Synced? || (w'.Syncing? && w'.pass.md.finalizer)
    ensures Inv(op, s.(c := c', w := w')) && Held(c')
  {
  }

  lemma DeleteOwnJobs(op: Instance, c: Store)
    ensures NoOwnJobs(op, DeleteJobs(c, OwnJobs(op, c)))
  {
    OwnByInstance(op, c);
  }

  lemma FinalizeKeeps(op: Instance, s: State)
    requires Inv(op, s) && s.w.Finalizing?
    ensures var (c', w') := FinalizeStep(op, s.c, s.v, s.w.step, s.w.md, s.w.rv); Inv(op, s.(c := c', w := w'))
  {
    var (c', w') := FinalizeStep(op, s.c, s.v, s.w.step, s.w.md, s.w.rv);
    match s.w.step
    case Releasing =>
      if IsLatest(s.c, s.w.rv) {
        assert s.seen == |s.c.versions| - 1;
        assert forall i | 0 <= i < |s.c.versions| :: c'.versions[i] == s.c.versions[i];
      }
    case DeletingJobs => DeleteOwnJobs(op, s.c);
    case _ =>
  }

  lemma UserKeeps(op: Instance, s: State, a: UserAction)
    requires Inv(op, s)
    ensures Inv(op, s.(c := UserStep(s.c, a)))
  {
    var c' := UserStep(s.c, a);
    if c' != s.c {
      AppendKeeps(op, s, Current(c'));
    }
  }

  lemma WorldKeeps(op: Instance, s: State, a: WorldAction)
    requires Inv(op, s)
    ensures Inv(op, s.(c := WorldStep(op, s.c, a)))
  {
    JobsFrame(op, s, WorldStep(op, s.c, a));
  }

  lemma WorkKeeps(op: Instance, s: State, sig: Signals, pick: string)
    requires Inv(op, s)
    ensures Inv(op, Step(op, s, Work(sig, pick)))
  {
    if s.w.Syncing? {
      SyncKeeps(op, s, sig, pick);
    } else if s.w.Finalizing? {
      FinalizeKeeps(op, s);
    } else if s.w.AddingFinalizer? {
      AppendKeeps(op, s.(w := Idle), Some(s.w.md.(finalizer := true)));
    }
  }

  lemma StepKeeps(op: Instance, s: State, a: Action)
    requires Inv(op, s)
    ensures Inv(op, Step(op, s, a))
  {
    match a
    case Work(sig, pick) => WorkKeeps(op, s, sig, pick);
    case Others(jobs, volumes, pods) =>
      if OthersOk(op, s.c, jobs, volumes, pods) {
        JobsFrame(op, s, s.c.(jobs := jobs, volumes := volumes, pods := pods));
      }
    case Wake =>
    case Fail =>
    case Deliver(_) =>
    case Catch(_) =>
    case User(u) => UserKeeps(op, s, u);
    case World(e) => WorldKeeps(op, s, e);
  }

  lemma {:induction false} ExecKeeps(op: Instance, s: State, acts: seq<Action>)
    requires Inv(op, s)
    ensures Inv(op, Exec(op, s, acts))
    decreases |acts|
  {
    if acts != [] {
      StepKeeps(op, s, acts[0]);
      ExecKeeps(op, Step(op, s, acts[0]), acts[1..]);
    }
  }

  /** In every reachable state a Deployment or a warm Job of this instance exists only while the object
      exists and holds the finalizer. */
  lemma ChildrenNeedFinalizer(op: Instance, s: State, acts: seq<Action>)
    requires Initial(op, s)
    ensures var c := Exec(op, s, acts).c;
            c.deployment.Some? || OwnJobs(op, c) != {} ==> Held(c)
  {
    ExecKeeps(op, s, acts);
    OwnByInstance(op, Exec(op, s, acts).c);
  }

  /** The only step that lets go of the finalizer is the worker's last one, on the version it read, with
      the Deployment and this instance's Jobs gone. */
  lemma ReleaseStep(op: Instance, s: State, a: Action)
    requires Inv(op, s) && Held(s.c) && !Held(Step(op, s, a).c)
    ensures a.Work? && s.w.Finalizing? && s.w.step == Releasing
    ensures Current(s.c) == Some(s.w.md) && s.w.md.deleting
    ensures s.c.deployment.None? && NoOwnJobs(op, s.c)
  {
    match a
    case Work(sig, pick) =>
      if s.w.Syncing? {
        SyncKeepsFinalizer(op, s, sig, pick);
      } else if s.w.Finalizing? {
        FinalizeReleases(op, s);
      }
    case User(u) => UserKeepsHeld(s.c, u);
    case World(e) => WorldVersions(op, s.c, e);
    case _ =>
  }

  lemma FinalizeReleases(op: Instance, s: State)
    requires Inv(op, s) && s.w.Finalizing? && Held(s.c)
    requires !Held(FinalizeStep(op, s.c, s.v, s.w.step, s.w.md, s.w.rv).0)
    ensures s.w.step == Releasing && IsLatest(s.c, s.w.rv)
  {
  }

  lemma UserKeepsHeld(c: Store, u: UserAction)
    requires Held(c)
    ensures Held(UserStep(c, u))
  {
  }

  /** How a worker comes to be about to release: it has just listed pods and found none. */
  lemma EntersReleasing(op: Instance, s: State, a: Action)
    requires Step(op, s, a).w.Finalizing? && Step(op, s, a).w.step == Releasing
    ensures s.w == Step(op, s, a).w
            || (s.w == Finalizing(ListingPods, Step(op, s, a).w.md, Step(op, s, a).w.rv) && OwnPods(op, s.v) == {})
  {
    match a
    case Work(sig, pick) =>
      if s.w.Syncing? {
        SyncKeepsFinalizer(op, s, sig, pick);
      }
    case _ =>
  }

  /** The cached pods are the pods of some earlier point of the run. */
  lemma {:induction false} CachedPods(op: Instance, s: State, acts: seq<Action>) returns (k: nat)
    requires s.v.pods == s.c.pods
    ensures k <= |acts| && Exec(op, s, acts).v.pods == Exec(op, s, acts[..k]).c.pods
    decreases |acts|
  {
    if acts == [] {
      k := 0;
    } else {
      var last := |acts| - 1;
      var before := Exec(op, s, acts[..last]);
      assert acts == acts[..last] + [acts[last]];
      ExecSnoc(op, s, acts[..last], acts[last]);
      if Step(op, before, acts[last]).v.pods == before.v.pods {
        k := CachedPods(op, s, acts[..last]);
        assert acts[..last][..k] == acts[..k];
      } else {
        k := last;
      }
    }
  }

  /** The worker has been this since action n. */
  ghost predicate Since(op: Instance, s: State, acts: seq<Action>, n: nat, w: Worker) {
    forall k | n < k <= |acts| :: Exec(op, s, acts[..k]).w == w
  }

  lemma SinceSnoc(op: Instance, s: State, acts: seq<Action>, a: Action, n: nat, w: Worker)
    requires Since(op, s, acts, n, w) && n <= |acts| && Exec(op, s, acts + [a]).w == w
    ensures Since(op, s, acts + [a], n, w)
  {
    forall k | n < k <= |acts| + 1
      ensures Exec(op, s, (acts + [a])[..k]).w == w
    {
      if k <= |acts| {
        assert (acts + [a])[..k] == acts[..k];
      } else {
        assert (acts + [a])[..k] == acts + [a];
      }
    }
  }

  /** Every run about to release has a point at which it listed the cached pods and found none. */
  lemma {:induction false} ReleasingSince(op: Instance, s: State, acts: seq<Action>) returns (n: nat)
    requires s.w == Idle
    requires Exec(op, s, acts).w.Finalizing? && Exec(op, s, acts).w.step == Releasing
    ensures n < |acts|
    ensures Exec(op, s, acts[..n]).w == Exec(op, s, acts).w.(step := ListingPods)
    ensures OwnPods(op, Exec(op, s, acts[..n]).v) == {}
    ensures Since(op, s, acts, n, Exec(op, s, acts).w)
    decreases |acts|
  {
    assert acts != [];
    var init, a := acts[..|acts| - 1], acts[|acts| - 1];
    assert acts == init + [a];
    ExecSnoc(op, s, init, a);
    EntersReleasing(op, Exec(op, s, init), a);
    if Exec(op, s, init).w == Exec(op, s, acts).w {
      n := ReleasingSince(op, s, init);
      assert init[..n] == acts[..n];
    } else {
      n := |init|;
    }
    SinceSnoc(op, s, init, a, n, Exec(op, s, acts).w);
  }

  /** Teardown: every run about to release has listed pods at a point n, in a cache that showed the pods
      of a point k before it; none of this instance existed at k, and after n neither the Deployment
      nor a warm Job did. */
  lemma ReleasedOnlyWhenEmpty(op: Instance, s: State, acts: seq<Action>) returns (k: nat, n: nat)
    requires Initial(op, s)
    requires Exec(op, s, acts).w.Finalizing? && Exec(op, s, acts).w.step == Releasing
    ensures k <= n < |acts|
    ensures OwnPods(op, Exec(op, s, acts[..k]).c) == {}
    ensures Exec(op, s, acts[..n]).w == Exec(op, s, acts).w.(step := ListingPods)
    ensures Exec(op, s, acts[..n]).v.pods == Exec(op, s, acts[..k]).c.pods
    ensures forall i | n < i <= |acts| ::
              var later := Exec(op, s, acts[..i]);
              later.w == Exec(op, s, acts).w && later.c.deployment.None? && NoOwnJobs(op, later.c)
  {
    n := ReleasingSince(op, s, acts);
    k := CachedPods(op, s, acts[..n]);
    assert acts[..n][..k] == acts[..k];
    OwnByInstance(op, Exec(op, s, acts[..n]).v);
    OwnByInstance(op, Exec(op, s, acts[..k]).c);
    forall i | n < i <= |acts|
      ensures var later := Exec(op, s, acts[..i]);
              later.w == Exec(op, s, acts).w && later.c.deployment.None? && NoOwnJobs(op, later.c)
    {
      ExecKeeps(op, s, acts[..i]);
    }
  }
}
