/** One replica number in every run: when Deployment, budget and stored spec agree at the end of a pass, and
    the outdated pass after which they do not. */
module OneNumber {
  import opened Api
  import opened Render
  import opened StatusModel
  import opened Cluster
  import opened Reconcile
  import opened Protocol
  import opened PassLaws
  import opened Versions
  import opened PassRuns
  import Interleavings
  import LostTime

  /** Deployment and budget are what this spec asks for. */
  ghost predicate Serves(op: Instance, c: Store, spec: Spec) {
    && c.deployment.Some? && c.deployment.value.replicas == spec.replicas
    && c.deployment.value.template == TemplateOf(op, spec)
    && c.pdb == PDBMinAvailable(spec.minAvailable, spec.replicas)
  }

  /** The Deployment carries count and template of some version that was stored. */
  ghost predicate FromVersion(op: Instance, c: Store) {
    c.deployment.Some? ==> exists i :: VersionServes(op, c, i)
  }

  ghost predicate VersionServes(op: Instance, c: Store, i: nat)
    requires c.deployment.Some?
  {
    && i < |c.versions| && c.versions[i].Some?
    && c.deployment.value.replicas == c.versions[i].value.spec.replicas
    && c.deployment.value.template == TemplateOf(op, c.versions[i].value.spec)
  }

  /** Longer version lists and changes of what the controller reports. */
  lemma FromVersionFrame(op: Instance, c: Store, c': Store)
    requires FromVersion(op, c) && |c.versions| <= |c'.versions| && c'.versions[..|c.versions|] == c.versions
    requires c'.deployment.Some? ==>
               && c.deployment.Some? && c'.deployment.value.replicas == c.deployment.value.replicas
               && c'.deployment.value.template == c.deployment.value.template
    ensures FromVersion(op, c')
  {
    if c'.deployment.Some? {
      var i: nat :| VersionServes(op, c, i);
      assert c'.versions[i] == c'.versions[..|c.versions|][i];
      assert VersionServes(op, c', i);
    }
  }

  lemma SyncDeployment(op: Instance, c: Store, v: Store, at: Phase, p: Pass, sig: Signals, pick: string)
    ensures var c' := SyncStep(op, c, v, at, p, sig, pick).0;
            && |c.versions| <= |c'.versions| && c'.versions[..|c.versions|] == c.versions
            && (at != ApplyingDeployment ==> c'.deployment == c.deployment)
            && (at == ApplyingDeployment ==>
                  && c'.versions == c.versions && c'.deployment.Some?
                  && c'.deployment.value.replicas == p.decision.replicas
                  && c'.deployment.value.template == TemplateOf(op, p.md.spec))
  {
  }

  lemma OtherWorkDeployment(op: Instance, s: State, sig: Signals, pick: string)
    requires !s.w.Syncing?
    ensures var c' := WorkerStep(op, s.c, s.v, s.w, sig, pick).0;
            && |s.c.versions| <= |c'.versions| && c'.versions[..|s.c.versions|] == s.c.versions
            && (c'.deployment == s.c.deployment || c'.deployment.None?)
  {
  }

  lemma WorldDeployment(op: Instance, c: Store, e: WorldAction)
    ensures var c' := WorldStep(op, c, e);
            && c'.versions == c.versions
            && (c'.deployment.Some? ==>
                  && c.deployment.Some? && c'.deployment.value.replicas == c.deployment.value.replicas
                  && c'.deployment.value.template == c.deployment.value.template)
  {
  }

  lemma StepFromVersion(op: Instance, s: State, a: Action)
    requires Tied(s) && FromVersion(op, s.c)
    ensures FromVersion(op, Step(op, s, a).c)
  {
    var c' := Step(op, s, a).c;
    match a
    case Work(sig, pick) =>
      if s.w.Syncing? {
        SyncDeployment(op, s.c, s.v, s.w.at, s.w.pass, sig, pick);
        if s.w.at == ApplyingDeployment {
          assert VersionServes(op, c', s.w.pass.rv);
        } else {
          FromVersionFrame(op, s.c, c');
        }
      } else {
        OtherWorkDeployment(op, s, sig, pick);
        FromVersionFrame(op, s.c, c');
      }
    case User(u) =>
      Interleavings.UserFrame(s.c, u);
      UserVersions(s.c, u);
      FromVersionFrame(op, s.c, c');
    case World(e) =>
      WorldDeployment(op, s.c, e);
      FromVersionFrame(op, s.c, c');
    case _ => FromVersionFrame(op, s.c, c');
  }

  lemma {:induction false} ExecFromVersion(op: Instance, s: State, acts: seq<Action>)
    requires Tied(s) && FromVersion(op, s.c)
    ensures FromVersion(op, Exec(op, s, acts).c)
    decreases |acts|
  {
    if acts != [] {
      TiedStep(op, s, acts[0]);
      StepFromVersion(op, s, acts[0]);
      ExecFromVersion(op, Step(op, s, acts[0]), acts[1..]);
    }
  }

  /** In every reachable state the Deployment carries count and template of one stored version: nobody
      ever applies a count that was not stored first, or one version's count with another's template. */
  lemma DeploymentFromStore(op: Instance, s: State, acts: seq<Action>)
    requires Initial(op, s)
    ensures FromVersion(op, Exec(op, s, acts).c)
  {
    ExecFromVersion(op, s, acts);
  }

  // ------------------------------------------------------------ completed passes

  /** The last call of a pass. */
  ghost predicate Completes(op: Instance, s: State, sig: Signals, pick: string) {
    s.w.Syncing? && s.w.at == WritingStatus && Step(op, s, Work(sig, pick)).w.Synced?
  }

  /** It writes the status to the latest version or finds it stored. */
  lemma LastCall(op: Instance, s: State, sig: Signals, pick: string)
    requires Tied(s) && Completes(op, s, sig, pick)
    ensures var s', p := Step(op, s, Work(sig, pick)), s.w.pass;
            var next := NextStatus(op, p, sig.wall);
            && s'.w == Synced(p)
            && (if next == p.md.status then s'.c == s.c
                else IsLatest(s.c, p.rv) && s'.c == PutMd(s.c, Some(p.md.(status := next))))
            && (p.decision.lastScale.Some? ==> next != p.md.status)
  {
    StatusStamp(op, s.w.pass, sig.wall);
  }

  lemma CompletedServes(op: Instance, s: State, acts: seq<Action>, sig: Signals, pick: string)
    requires Initial(op, s) && Completes(op, Exec(op, s, acts), sig, pick)
    ensures var s' := Step(op, Exec(op, s, acts), Work(sig, pick));
            s'.w.Synced? && Serves(op, s'.c, s'.w.pass.md.spec)
  {
    ExecSnoc(op, s, acts, Work(sig, pick));
    Interleavings.CompletedPasses(op, s, acts + [Work(sig, pick)]);
  }

  /** Whether the stored spec is served, after a last call that wrote `status` or nothing. */
  ghost predicate Agreement(op: Instance, c: Store, c': Store, p: Pass) {
    && Serves(op, c', p.md.spec) && Stored(c', p.md, p.rv)
    && (c'.versions != c.versions || p.rv == |c'.versions| - 1 ==>
          Current(c').Some? && Serves(op, c', Current(c').value.spec))
    && (Current(c').Some? ==>
          (c'.deployment.value.replicas == Current(c').value.spec.replicas <==>
           Current(c').value.spec.replicas == c'.versions[p.rv].value.spec.replicas))
  }

  lemma Agree(op: Instance, c: Store, c': Store, p: Pass, status: Status)
    requires Stored(c, p.md, p.rv) && Serves(op, c', p.md.spec)
    requires c' == c || c' == PutMd(c, Some(p.md.(status := status)))
    ensures Agreement(op, c, c', p)
  {
  }

  /** At the end of every completed pass of every run:
      if it wrote its status, or its version is still the latest, Deployment and budget are what the
      stored spec asks for;
      a pass that moved the count always ends by writing its status;
      and otherwise the count agrees if and only if the latest version has the count of the one the
      pass read. */
  lemma CompletedPassServes(op: Instance, s: State, acts: seq<Action>, sig: Signals, pick: string)
    requires Initial(op, s) && Completes(op, Exec(op, s, acts), sig, pick)
    ensures var before := Exec(op, s, acts);
            var c, p := Step(op, before, Work(sig, pick)).c, before.w.pass;
            && Agreement(op, before.c, c, p)
            && (p.decision.lastScale.Some? ==> c.versions != before.c.versions)
  {
    var before := Exec(op, s, acts);
    TiedExec(op, s, acts);
    LastCall(op, before, sig, pick);
    CompletedServes(op, s, acts, sig, pick);
    Agree(op, before.c, Step(op, before, Work(sig, pick)).c, before.w.pass, NextStatus(op, before.w.pass, sig.wall));
  }

  // ---------------------------------------------------------- an outdated pass

  lemma BlindHolds(md: Md)
    ensures DecideReplicas(md, false, BLIND).replicas == md.spec.replicas
    ensures DecideReplicas(md, false, BLIND).lastScale.None?
  {
  }

  /** The local variables of a blind pass without a cache, when it comes to its report. */
  function BlindPass(md: Md, rv: nat, w: Workload): Pass {
    NewPass(md, rv).(decision := DecideReplicas(md, false, BLIND), workload := w)
  }

  /** A pass over any version whose status already says what it sees applies that version's count, writes
      nothing to the object, and completes. */
  lemma OutdatedPass(op: Instance, c: Store, md: Md, rv: nat)
    requires md.spec.cache.None? && c.deployment.Some?
    requires NextStatus(op, BlindPass(md, rv, Observe(c)), 0) == md.status
    ensures var out := SyncPass(op, c, NewPass(md, rv), BLIND);
            && out.done.Some? && out.store.versions == c.versions
            && out.store.deployment.Some? && out.store.deployment.value.replicas == md.spec.replicas
  {
    BlindHolds(md);
    var p := BlindPass(md, rv, Workload(0, 0, false));
    ApplyAllLaw(op, c, p);
    var after := ApplyAll(op, c, p);
    assert Observe(after) == Observe(c);
    assert p.(workload := Observe(after)) == BlindPass(md, rv, Observe(c));
    assert SyncPass(op, c, NewPass(md, rv), BLIND) == ApplyPass(op, c, p, BLIND);
  }

  /** A live object without a cache whose status says what a blind pass sees. */
  ghost predicate SaysWhatItSees(op: Instance, s: State, md: Md) {
    && AtRest(s) && Current(s.c) == Some(md) && md.finalizer && !md.deleting && md.spec.cache.None?
    && s.c.deployment.Some?
    && NextStatus(op, BlindPass(md, |s.c.versions| - 1, Observe(s.c)), 0) == md.status
  }

  /** A first blind pass leaves such an object. */
  lemma FirstReport(op: Instance, s: State, md: Md) returns (acts: seq<Action>, after: Md)
    requires AtRest(s) && Current(s.c) == Some(md) && md.finalizer && !md.deleting && md.spec.cache.None?
    requires WellNamed(s.c.jobs) && md.status.lastScaleSecond.None?
    ensures SaysWhatItSees(op, Exec(op, s, acts), after)
    ensures after.spec == md.spec && after.status.lastScaleSecond.None?
  {
    acts := PassRun(op, s, BLIND);
    var p := FreshPass(s.c);
    SyncCompletes(op, s.c, p, BLIND);
    FirstPassSettles(op, s.c, p, BLIND, 0);
    BlindHolds(md);
    after := Current(Exec(op, s, acts).c).value;
  }

  /** Passes change what the Deployment asks for, not what its controller reported. */
  lemma SyncKeepsReport(op: Instance, c: Store, p: Pass, sig: Signals)
    requires Fresh(c, p) && p.md.spec.cache.None? && c.deployment.Some?
    ensures Observe(SyncPass(op, c, p, sig).store) == Observe(c)
  {
    SyncCompletes(op, c, p, sig);
    var decided := p.(decision := DecideReplicas(p.md, false, sig));
    WriteSpecLaw(c, decided);
    var (written, q) := WriteSpec(c, decided).value;
    ApplyAllLaw(op, written, q);
  }

  lemma ScaledStore(op: Instance, c: Store, md: Md)
    requires Current(c) == Some(md) && md.finalizer && !md.deleting && md.spec.cache.None? && c.deployment.Some?
    requires md.spec.autoscaling == Some(LostTime.POLICY) && md.spec.replicas == 1 && md.status.lastScaleSecond.None?
    ensures var after := SyncPass(op, c, FreshPass(c), LostTime.Reading(0)).store;
            && Current(after).Some? && Current(after).value.spec.replicas == 3
            && after.deployment.Some? && Observe(after) == Observe(c)
            && Appended(c.versions, after.versions, md, 3)
  {
    var sig, p := LostTime.Reading(0), FreshPass(c);
    LostTime.AddsTwo(md, 0);
    SyncCompletes(op, c, p, sig);
    SyncAppends(op, c, p, sig);
    SyncKeepsReport(op, c, p, sig);
  }

  /** The next pass scales; its cache stays where it was. */
  lemma ScalesUp(op: Instance, s: State, md: Md) returns (acts: seq<Action>)
    requires AtRest(s) && Current(s.c) == Some(md) && md.finalizer && !md.deleting && md.spec.cache.None?
    requires s.c.deployment.Some? && md.spec.autoscaling == Some(LostTime.POLICY)
    requires md.spec.replicas == 1 && md.status.lastScaleSecond.None?
    ensures var s' := Exec(op, s, acts);
            && AtRest(s') && s'.seen == |s.c.versions| - 1 && Stored(s'.c, md, s'.seen)
            && Current(s'.c).Some? && Current(s'.c).value.spec.replicas == 3
            && s'.c.deployment.Some? && Observe(s'.c) == Observe(s.c)
  {
    acts := PassRun(op, s, LostTime.Reading(0));
    ScaledStore(op, s.c, md);
    StillStored(s.c, Exec(op, s, acts).c, md, 3);
  }

  lemma StillStored(c: Store, c': Store, md: Md, replicas: Count)
    requires Current(c) == Some(md) && Appended(c.versions, c'.versions, md, replicas)
    ensures Stored(c', md, |c.versions| - 1)
  {
    assert c'.versions[|c.versions| - 1] == c'.versions[..|c.versions|][|c.versions| - 1];
  }

  /** A pass that wakes on the version its cache still holds. */
  lemma WakesOutdated(op: Instance, s: State, md: Md) returns (acts: seq<Action>)
    requires AtRest(s) && Stored(s.c, md, s.seen) && md.finalizer && !md.deleting && md.spec.cache.None?
    requires s.c.deployment.Some? && NextStatus(op, BlindPass(md, s.seen, Observe(s.c)), 0) == md.status
    ensures var s' := Exec(op, s, acts);
            && s'.w.Synced? && s'.c.versions == s.c.versions
            && s'.c.deployment.Some? && s'.c.deployment.value.replicas == md.spec.replicas
  {
    ExecOne(op, s, Wake);
    var woken := Step(op, s, Wake);
    var picks := CallsRun(op, woken, BLIND);
    ExecConcat(op, s, [Wake], Calls(BLIND, picks));
    OutdatedPass(op, s.c, md, s.seen);
    acts := [Wake] + Calls(BLIND, picks);
  }

  /** Completed, with the Deployment at one and the stored spec at three. */
  ghost predicate Disagrees(s: State) {
    && s.w.Synced? && s.c.deployment.Some? && s.c.deployment.value.replicas == 1
    && Current(s.c).Some? && Current(s.c).value.spec.replicas == 3
  }

  lemma ScalesThenForgets(op: Instance, s: State, md: Md) returns (acts: seq<Action>)
    requires SaysWhatItSees(op, s, md) && md.spec.autoscaling == Some(LostTime.POLICY)
    requires md.spec.replicas == 1 && md.status.lastScaleSecond.None?
    ensures Disagrees(Exec(op, s, acts))
  {
    var scale := ScalesUp(op, s, md);
    var outdated := WakesOutdated(op, Exec(op, s, scale), md);
    ExecConcat(op, s, scale, outdated);
    acts := scale + outdated;
  }

  lemma CreatedAndReported(op: Instance, spec: Spec) returns (acts: seq<Action>, md: Md)
    requires spec.cache.None?
    ensures SaysWhatItSees(op, Exec(op, EMPTY, acts), md) && md.spec == spec && md.status.lastScaleSecond.None?
  {
    var creation := Created(op, EMPTY, spec);
    var s := Exec(op, EMPTY, creation);
    var report, after := FirstReport(op, s, Md(spec, EMPTY_STATUS, 1, true, false, false));
    ExecConcat(op, EMPTY, creation, report);
    acts, md := creation + report, after;
  }

  /** A run from nothing that ends so: a pass scales from one to three, the next wakes on the version
      before that and applies its count, with nothing to write and so nothing to conflict with. */
  lemma OutdatedPassDisagrees(op: Instance, identity: Identity) returns (acts: seq<Action>)
    ensures Initial(op, EMPTY) && Disagrees(Exec(op, EMPTY, acts))
  {
    var start, md := CreatedAndReported(op, Spec(identity, 1, None, Some(LostTime.POLICY), 1));
    var rest := ScalesThenForgets(op, Exec(op, EMPTY, start), md);
    ExecConcat(op, EMPTY, start, rest);
    acts := start + rest;
  }
}
