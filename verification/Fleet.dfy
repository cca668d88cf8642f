/** Any number of instances in one namespace: each has its own object, Deployment, worker and caches, and
    all share Jobs, pods and volumes. What each sees of the others is a run of module Protocol. */
module Fleet {
  import opened Api
  import opened Render
  import opened Cluster
  import opened Reconcile
  import opened Protocol
  import RolloutGate
  import Interleavings
  import TeardownSafety

  /** What belongs to one instance alone. */
  datatype Own = Own(
    versions: seq<Option<Md>>, deployment: Option<Deployment>, rollouts: set<Template>,
    replicaSets: set<Template>, service: bool, pdb: Option<int32>, w: Worker, seen: nat, v: Store)

  datatype Namespace = Namespace(
    jobs: map<string, Job>, volumes: map<string, Volume>, pods: map<nat, Pod>, own: map<string, Own>)

  /** One action of one instance, or of its users, Jobs and pods. */
  datatype Move = Move(who: string, act: Action)

  function StateOf(f: Namespace, n: string): State
    requires n in f.own
  {
    var o := f.own[n];
    State(Store(o.versions, f.volumes, f.jobs, o.deployment, o.rollouts, o.replicaSets, o.service, o.pdb, f.pods),
          o.w, o.seen, o.v)
  }

  function Put(f: Namespace, n: string, s: State): Namespace {
    Namespace(s.c.jobs, s.c.volumes, s.c.pods, f.own[n := Own(
      s.c.versions, s.c.deployment, s.c.rollouts, s.c.replicaSets, s.c.service, s.c.pdb, s.w, s.seen, s.v)])
  }

  lemma PutOther(f: Namespace, who: string, n: string, s: State)
    requires n in f.own && who != n
    ensures n in Put(f, who, s).own
    ensures var t := StateOf(f, n);
            StateOf(Put(f, who, s), n) == t.(c := t.c.(jobs := s.c.jobs, volumes := s.c.volumes, pods := s.c.pods))
  {
  }

  lemma PutSelf(f: Namespace, n: string, s: State)
    ensures n in Put(f, n, s).own && StateOf(Put(f, n, s), n) == s
  {
  }

  lemma OthersStep(op: Instance, s: State, jobs: map<string, Job>, volumes: map<string, Volume>, pods: map<nat, Pod>)
    requires OthersOk(op, s.c, jobs, volumes, pods)
    ensures Step(op, s, Others(jobs, volumes, pods)) == s.(c := s.c.(jobs := jobs, volumes := volumes, pods := pods))
  {
  }

  ghost function FleetStep(sha: Hasher, f: Namespace, m: Move): Namespace {
    if m.who !in f.own || m.act.Others? then f
    else Put(f, m.who, Step(Instance(m.who, sha), StateOf(f, m.who), m.act))
  }

  ghost function FleetExec(sha: Hasher, f: Namespace, moves: seq<Move>): Namespace
    decreases |moves|
  {
    if moves == [] then f else FleetExec(sha, FleetStep(sha, f, moves[0]), moves[1..])
  }

  /** How instance n sees a move: as its own action, or as what others did to the shared objects. */
  ghost function Seen(sha: Hasher, f: Namespace, m: Move, n: string): Action {
    var f' := FleetStep(sha, f, m);
    if m.who == n && !m.act.Others? then m.act else Others(f'.jobs, f'.volumes, f'.pods)
  }

  ghost function Project(sha: Hasher, f: Namespace, moves: seq<Move>, n: string): seq<Action>
    decreases |moves|
  {
    if moves == [] then []
    else [Seen(sha, f, moves[0], n)] + Project(sha, FleetStep(sha, f, moves[0]), moves[1..], n)
  }

  // --------------------------------------------------------------- hypotheses

  ghost predicate FleetInitial(sha: Hasher, f: Namespace) {
    forall n | n in f.own :: Initial(Instance(n, sha), StateOf(f, n))
  }

  /** Each instance's users write specs that name one claim per cache key. Nothing is asked across
      instances. */
  ghost predicate FleetConsistent(sha: Hasher, specs: map<string, set<Spec>>) {
    forall n | n in specs :: RolloutGate.ClaimConsistent(Instance(n, sha), specs[n])
  }

  ghost predicate MoveAllowed(specs: map<string, set<Spec>>, m: Move) {
    m.who in specs ==> RolloutGate.Allowed(specs[m.who], m.act)
  }

  ghost predicate AllMovesAllowed(specs: map<string, set<Spec>>, moves: seq<Move>) {
    forall i | 0 <= i < |moves| :: MoveAllowed(specs, moves[i])
  }

  // ---------------------------------------------------------------- invariant

  ghost predicate InstanceInv(sha: Hasher, specs: set<Spec>, f: Namespace, n: string)
    requires n in f.own
  {
    && RolloutGate.Inv(Instance(n, sha), specs, StateOf(f, n))
    && Interleavings.PassInv(Instance(n, sha), StateOf(f, n).c, StateOf(f, n).v, StateOf(f, n).w)
  }

  ghost predicate FleetInv(sha: Hasher, specs: map<string, set<Spec>>, f: Namespace) {
    specs.Keys == f.own.Keys && forall n | n in f.own :: InstanceInv(sha, specs[n], f, n)
  }

  lemma InitialInv(sha: Hasher, specs: map<string, set<Spec>>, f: Namespace)
    requires FleetInitial(sha, f) && specs.Keys == f.own.Keys
    ensures FleetInv(sha, specs, f)
  {
    forall n | n in f.own
      ensures InstanceInv(sha, specs[n], f, n)
    {
      assert Initial(Instance(n, sha), StateOf(f, n));
    }
  }

  /** A step of one instance is, for any other, something others are allowed to do. */
  lemma MoveIsOthers(sha: Hasher, specs: map<string, set<Spec>>, f: Namespace, m: Move, n: string)
    requires FleetInv(sha, specs, f) && FleetConsistent(sha, specs) && MoveAllowed(specs, m)
    requires n in f.own && m.who in f.own && m.who != n && !m.act.Others?
    ensures var f' := FleetStep(sha, f, m); OthersOk(Instance(n, sha), StateOf(f, n).c, f'.jobs, f'.volumes, f'.pods)
  {
    var who := Instance(m.who, sha);
    assert InstanceInv(sha, specs[m.who], f, m.who);
    Interleavings.OthersMayRely(who, Instance(n, sha), specs[m.who], StateOf(f, m.who), m.act);
  }

  lemma NothingIsOthers(sha: Hasher, specs: set<Spec>, f: Namespace, n: string)
    requires n in f.own && InstanceInv(sha, specs, f, n)
    ensures OthersOk(Instance(n, sha), StateOf(f, n).c, f.jobs, f.volumes, f.pods)
  {
  }

  /** One move of the fleet is one step of every instance. */
  lemma MoveProjects(sha: Hasher, specs: map<string, set<Spec>>, f: Namespace, m: Move, n: string)
    requires FleetInv(sha, specs, f) && FleetConsistent(sha, specs) && MoveAllowed(specs, m) && n in f.own
    ensures n in FleetStep(sha, f, m).own
    ensures StateOf(FleetStep(sha, f, m), n) == Step(Instance(n, sha), StateOf(f, n), Seen(sha, f, m, n))
  {
    var op, s := Instance(n, sha), StateOf(f, n);
    if m.who !in f.own || m.act.Others? {
      assert InstanceInv(sha, specs[n], f, n);
      NothingIsOthers(sha, specs[n], f, n);
      OthersStep(op, s, f.jobs, f.volumes, f.pods);
    } else {
      var s' := Step(Instance(m.who, sha), StateOf(f, m.who), m.act);
      if m.who == n {
        PutSelf(f, n, s');
      } else {
        MoveIsOthers(sha, specs, f, m, n);
        PutOther(f, m.who, n, s');
        OthersStep(op, s, s'.c.jobs, s'.c.volumes, s'.c.pods);
      }
    }
  }

  lemma InstanceKeeps(sha: Hasher, specs: map<string, set<Spec>>, f: Namespace, m: Move, n: string)
    requires FleetInv(sha, specs, f) && FleetConsistent(sha, specs) && MoveAllowed(specs, m) && n in f.own
    ensures n in FleetStep(sha, f, m).own && InstanceInv(sha, specs[n], FleetStep(sha, f, m), n)
  {
    MoveProjects(sha, specs, f, m, n);
    assert InstanceInv(sha, specs[n], f, n);
    RolloutGate.StepKeeps(Instance(n, sha), specs[n], StateOf(f, n), Seen(sha, f, m, n));
    Interleavings.StepKeeps(Instance(n, sha), StateOf(f, n), Seen(sha, f, m, n));
  }

  lemma SameInstances(sha: Hasher, f: Namespace, m: Move)
    ensures FleetStep(sha, f, m).own.Keys == f.own.Keys
  {
  }

  lemma FleetKeeps(sha: Hasher, specs: map<string, set<Spec>>, f: Namespace, m: Move)
    requires FleetInv(sha, specs, f) && FleetConsistent(sha, specs) && MoveAllowed(specs, m)
    ensures FleetInv(sha, specs, FleetStep(sha, f, m))
  {
    SameInstances(sha, f, m);
    forall n | n in FleetStep(sha, f, m).own
      ensures InstanceInv(sha, specs[n], FleetStep(sha, f, m), n)
    {
      InstanceKeeps(sha, specs, f, m, n);
    }
  }

  // ----------------------------------------------------------------- theorems

  lemma ProjectHead(sha: Hasher, f: Namespace, moves: seq<Move>, n: string, s: State)
    requires moves != []
    ensures Exec(Instance(n, sha), s, Project(sha, f, moves, n))
         == Exec(Instance(n, sha), Step(Instance(n, sha), s, Seen(sha, f, moves[0], n)),
                 Project(sha, FleetStep(sha, f, moves[0]), moves[1..], n))
  {
    var rest := Project(sha, FleetStep(sha, f, moves[0]), moves[1..], n);
    assert ([Seen(sha, f, moves[0], n)] + rest)[1..] == rest;
  }

  lemma {:induction false} ProjectAllowed(
    sha: Hasher, specs: map<string, set<Spec>>, f: Namespace, moves: seq<Move>, n: string)
    requires n in specs && AllMovesAllowed(specs, moves)
    ensures RolloutGate.AllAllowed(specs[n], Project(sha, f, moves, n))
    decreases |moves|
  {
    if moves != [] {
      var rest := Project(sha, FleetStep(sha, f, moves[0]), moves[1..], n);
      ProjectAllowed(sha, specs, FleetStep(sha, f, moves[0]), moves[1..], n);
      assert RolloutGate.Allowed(specs[n], Seen(sha, f, moves[0], n)) by {
        assert MoveAllowed(specs, moves[0]);
      }
    }
  }

  lemma FirstMove(sha: Hasher, specs: map<string, set<Spec>>, f: Namespace, moves: seq<Move>, n: string)
    requires FleetInv(sha, specs, f) && FleetConsistent(sha, specs) && n in f.own
    requires AllMovesAllowed(specs, moves) && moves != []
    ensures var f' := FleetStep(sha, f, moves[0]);
            && FleetInv(sha, specs, f') && n in f'.own && AllMovesAllowed(specs, moves[1..])
            && StateOf(f', n) == Step(Instance(n, sha), StateOf(f, n), Seen(sha, f, moves[0], n))
  {
    assert MoveAllowed(specs, moves[0]);
    MoveProjects(sha, specs, f, moves[0], n);
    FleetKeeps(sha, specs, f, moves[0]);
  }

  /** Composition: every run of the fleet is, for every instance, a run of module Protocol; by
      ProjectAllowed one over that instance's specs. So whatever holds of all runs there holds of every instance here. */
  lemma {:induction false} FleetProjects(
    sha: Hasher, specs: map<string, set<Spec>>, f: Namespace, moves: seq<Move>, n: string)
    requires FleetInv(sha, specs, f) && FleetConsistent(sha, specs) && n in f.own
    requires AllMovesAllowed(specs, moves)
    ensures n in FleetExec(sha, f, moves).own
    ensures StateOf(FleetExec(sha, f, moves), n) == Exec(Instance(n, sha), StateOf(f, n), Project(sha, f, moves, n))
    decreases |moves|
  {
    if moves != [] {
      var m := moves[0];
      FirstMove(sha, specs, f, moves, n);
      FleetProjects(sha, specs, FleetStep(sha, f, m), moves[1..], n);
      ProjectHead(sha, f, moves, n, StateOf(f, n));
    }
  }

  /** The rollout gate and teardown safety for every instance of every run of the fleet. */
  lemma FleetIsSafe(sha: Hasher, specs: map<string, set<Spec>>, f: Namespace, moves: seq<Move>, n: string)
    requires FleetInitial(sha, f) && FleetConsistent(sha, specs) && specs.Keys == f.own.Keys && n in f.own
    requires AllMovesAllowed(specs, moves)
    ensures var op, f' := Instance(n, sha), FleetExec(sha, f, moves);
            && n in f'.own
            && RolloutGate.GateHolds(op, StateOf(f', n).c)
            && (StateOf(f', n).c.deployment.Some? || OwnJobs(op, StateOf(f', n).c) != {} ==>
                  TeardownSafety.Held(StateOf(f', n).c))
  {
    InitialInv(sha, specs, f);
    FleetProjects(sha, specs, f, moves, n);
    ProjectAllowed(sha, specs, f, moves, n);
    var op, acts := Instance(n, sha), Project(sha, f, moves, n);
    assert Initial(op, StateOf(f, n));
    RolloutGate.GateIsSafe(op, specs[n], StateOf(f, n), acts);
    TeardownSafety.ChildrenNeedFinalizer(op, StateOf(f, n), acts);
  }
}
