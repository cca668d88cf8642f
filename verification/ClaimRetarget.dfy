/** Claim consistency is not only enough for the rollout gate but needed: the Job is found by its key
    alone, so a claim retargeted without a model change is released on the old claim's success. */
module ClaimRetarget {
  import opened Api
  import opened Cluster
  import opened Reconcile
  import opened PassLaws
  import opened Protocol
  import opened RolloutGate
  import opened PassRuns

  /** A pass over spec b finds the finished Job under its own key and releases b's template. */
  lemma Escapes(op: Instance, s: State, a: Spec, b: Spec) returns (acts: seq<Action>)
    requires a.cache.Some? && b.cache.Some? && Key(op, a) == Key(op, b) && Claim(op, a) != Claim(op, b)
    requires Warmed(op, s, a, b)
    ensures AllAllowed({a, b}, acts) && !GateHolds(op, Exec(op, s, acts).c)
  {
    var edited := Step(op, s, User(Edit(b)));
    assert Current(edited.c).value.spec == b && edited.c == s.c.(versions := edited.c.versions);
    assert AtRest(edited);
    var rest := PassRun(op, edited, BLIND);
    acts := [User(Edit(b))] + rest;
    ExecConcat(op, s, [User(Edit(b))], rest);
    ExecOne(op, s, User(Edit(b)));
    assert AllAllowed({a, b}, acts);
    var end := Exec(op, s, acts).c;
    ReleasedOnWrongClaim(op, edited.c, b);
    var t := end.deployment.value.template;
    assert MayServe(op, end, t) && t.claim == Some(Claim(op, b));
    assert Markers(end.volumes, Claim(op, b)) == {};
  }

  lemma ReleasedOnWrongClaim(op: Instance, c: Store, b: Spec)
    requires Current(c).Some? && Current(c).value.spec == b
    requires Current(c).value.finalizer && !Current(c).value.deleting
    requires b.cache.Some? && WellNamed(c.jobs) && JobName(op, b) in c.jobs && c.jobs[JobName(op, b)].succeeded > 0
    requires Claim(op, b) in c.volumes && c.volumes[Claim(op, b)] == Volume({}, {})
    ensures var after := SyncPass(op, c, FreshPass(c), BLIND).store;
            && after.deployment.Some? && !after.deployment.value.paused
            && after.deployment.value.template.claim == Some(Claim(op, b))
            && after.volumes == c.volumes
  {
    SyncCompletes(op, c, FreshPass(c), BLIND);
  }

  /** Any two specs that share a key but not a claim lead some run past the gate. */
  lemma RetargetEscapes(op: Instance, a: Spec, b: Spec) returns (acts: seq<Action>)
    requires a.cache.Some? && b.cache.Some? && Key(op, a) == Key(op, b) && Claim(op, a) != Claim(op, b)
    ensures Initial(op, EMPTY) && AllAllowed({a, b}, acts) && !GateHolds(op, Exec(op, EMPTY, acts).c)
  {
    var start := WarmStart(op, a, b);
    var escape := Escapes(op, Exec(op, EMPTY, start), a, b);
    ExecConcat(op, EMPTY, start, escape);
    acts := start + escape;
    assert forall i | 0 <= i < |start| :: Allowed({a}, start[i]) && Allowed({a, b}, start[i]);
  }

  /** The exact condition: the gate holds in every run over a set of specs if and only if specs of the
      set that share a cache key name the same claim. */
  lemma GateIffClaimConsistent(op: Instance, specs: set<Spec>)
    ensures (forall s, acts | Initial(op, s) && AllAllowed(specs, acts) :: GateHolds(op, Exec(op, s, acts).c))
            <==> ClaimConsistent(op, specs)
  {
    if ClaimConsistent(op, specs) {
      forall s, acts | Initial(op, s) && AllAllowed(specs, acts)
        ensures GateHolds(op, Exec(op, s, acts).c)
      {
        GateIsSafe(op, specs, s, acts);
      }
    } else {
      var a, b :| a in specs && b in specs && a.cache.Some? && b.cache.Some?
                  && Key(op, a) == Key(op, b) && Claim(op, a) != Claim(op, b);
      var acts := RetargetEscapes(op, a, b);
      assert AllAllowed(specs, acts) by {
        forall i | 0 <= i < |acts|
          ensures Allowed(specs, acts[i])
        {
          assert Allowed({a, b}, acts[i]);
        }
      }
    }
  }
}
