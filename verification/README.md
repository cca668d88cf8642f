# A verified model of the ModelDeployment operator

The operator serves a language model from a Kubernetes Deployment. Its point is the *rollout gate*: the
Deployment stays paused until a warm-up Job has put the weights of the current model on the shared claim,
so that no pod is ever created that would sit on a GPU downloading. Around the gate it scales on queue
depth, keeps a disruption budget, reports conditions and tears everything down in order.

This project models that behaviour in Dafny and proves what it promises. Verify it with
`dafny verify dfyconfig.toml`.

## How it is built

| file | what it holds |
|---|---|
| `Api.dfy` | spec, status and conditions; the schema minimums as types; 32/64-bit wrap-around |
| `Render.dfy` | cache key, names, labels and selectors, disruption budget |
| `Queue.dfy` | the summing loop over the metric |
| `Scaling.dfy` | one scaling decision |
| `ScalingRuns.dfy`, `ScalingClock.dfy` | the timed system of successive decisions; its rate limit in clock time |
| `StatusModel.dfy` | conditions and the status builder, one pass and whole runs |
| `Cluster.dfy` | the API store and every read and write the operator performs on it |
| `Reconcile.dfy` | one pass as single API calls with local variables between them, the same pass as one function, and the refinement between the two |
| `DecisionLaw.dfy` | the replica decision in terms of spec fields and pod readings |
| `PassLaws.dfy`, `PassReport.dfy` | what an undisturbed pass achieves, and what it leaves in the store field by field; the second pass |
| `Controller.dfy` | the reconciler, the status builder and the API server as objects updated in place, proved to compute the passes of `Reconcile.dfy` |
| `Protocol.dfy` | the interleaved system: worker, users, lagging watches, Jobs and pods, Deployment controller, other instances, failures at any call |
| `RolloutGate.dfy`, `TeardownSafety.dfy`, `Interleavings.dfy` | what every run of it keeps |
| `Versions.dfy`, `StoredStatus.dfy` | the list of stored versions in every run; what a stored status is worth |
| `ScalingSystem.dfy`, `ScalingExact.dfy` | the scaling laws for every run, by simulation; the rate limit in both directions |
| `OneNumber.dfy` | when stored spec, Deployment and budget agree |
| `ScaleToZero.dfy` | the loop closed through the metric |
| `Progress.dfy` | what can always still be reached |
| `Fleet.dfy` | any number of instances on shared Jobs, pods and volumes |
| `PassRuns.dfy`, `ClaimRetarget.dfy`, `LostTime.dfy`, `LaggingList.dfy`, `MixedJob.dfy`, `ModelEdits.dfy` | runs that are spelled out, from the empty cluster to where a promise ends |

A run is any sequence of actions in any order. An API call is one action, so users, Jobs, the Deployment
controller and the operators of other instances act between any two calls of a pass; a call may fail at
any point. Writes to the object are guarded by its resourceVersion, modelled as an index into the list of
all stored versions. Everything the worker reads, except what an API call itself returns, comes from watch
caches: one for the object and one for each of Jobs, pods, claims and Deployments. Each may lag behind
arbitrarily and independently but does not go back.

## What it assumes of the surroundings

- One worker per object; a restart forgets the worker's local variables.
- A paused Deployment creates no ReplicaSet. An unpaused one may, at any later time: the controller may
  still act on a template it saw unpaused after the Deployment has been paused again.
- A Job counts a success only after one of its pods ran its script to the end; the script downloads first
  and writes the marker last.
- Nobody removes weights or markers from a volume, and a claim keeps its contents.
- Only operators create objects carrying the warm-up labels, so a Job's name agrees with its labels.
- Users do not strip the operator's finalizer. They may set it on creation.
- API timestamps have whole seconds. The clock itself is in nanoseconds and need not be monotone.
- SHA-256 is an arbitrary function to 32-byte digests. The *fingerprint* of a model is the first six bytes of
  the digest over its engine, name and revision. Only `RolloutGate.GateFindsWeights` and
  `Render.KeyDeterminesIdentity` exclude a collision of fingerprints, the first only among the models on the
  claim in question.

## Where a promise ends

Each of these is something the code or its documentation suggests and the code does not always do. The
exact condition is proved, and a run or an input shows the other side.

- **The gate depends on the claim.** The Job is found by the cache key alone, and the key covers engine,
  model and revision (internal/controller/weightcache.go:39-41, internal/render/render.go:59-63). An edit
  that retargets `existingClaimName` and nothing else is released on the success of the Job that filled
  the *old* claim. The gate holds in every run if and only if specs that share a key name one claim
  (`ClaimRetarget.GateIffClaimConsistent`).
- **A saturated queue sheds replicas.** `Depth` saturates at 2^31-1, where `a + b - 1` in `ceilDiv` wraps for
  every target above one; the wanted size collapses to the floor (`Scaling.SaturatedDepthCollapses`).
  `Scaling.CeilDivExact`, `Scaling.TargetMonotone` and `Scaling.DecideMonotoneInDepth` say exactly when
  arithmetic, wanted size and decision are right.
- **Zero is for good, unless somebody acts on an outdated count.** The API documentation promises a cold
  start on the next request after scaling to zero (api/v1alpha1/modeldeployment_types.go:154-155). Without
  pods the metric has nothing to list. Assume that a reading lists at most the serving pods there are and
  that a serving pod starts only while the Deployment asks for one. Then zero in every version the cache
  may still show, in the worker's copy, the Deployment and the pods persists in every run
  (`ScaleToZero.ZeroPersists`), and for an instance at rest without a cache that is exactly the condition
  (`ScaleToZero.ZeroPersistsIff`): a pass over an outdated positive count applies it, a pod starts, and the
  next reading brings the instance back. On an empty reading the decision itself leaves zero only with
  a floor above zero, warm weights and a readable metric (`ScaleToZero.LeavingZero`).
- **One replica number, of the version the pass read.** A completed pass that wrote its status, or whose version is
  still the latest, leaves stored spec, Deployment and budget in agreement; a pass that moved the count
  always writes its status. A pass over an outdated version with nothing to write completes without a
  conflict, and then the counts agree if and only if the latest version has the count it read
  (`OneNumber.CompletedPassServes`). `OneNumber.OutdatedPassDisagrees` is a run that ends with the Deployment at
  one and the stored spec at three. So bounds and rate limits are laws of the stored count; what the
  Deployment asks for is always the count of some stored version (`OneNumber.DeploymentFromStore`).
- **Windows are measured from a truncated time.** The scale time is stored in whole seconds, so two moves
  can be up to a second closer than the window. The limit in clock time holds exactly on the intervals
  of `ScalingClock.ClockLimitIffAligned`, and for the whole system too (`ScalingExact.SystemLimitIffAligned`); in
  whole seconds it always holds (`ScalingRuns.RateLimit`).
- **The scale time can be lost.** It is written after the count, in a call of its own. A pass that fails in
  between moves the count and not the time, and the next one scales again inside the window
  (`LostTime.TwoMovesInOneWindow`). `ScalingSystem.SystemRateLimit` counts such passes.
- **The fixpoint needs the policy.** With a window of zero or crossed bounds a second pass can scale again;
  `PassLaws.SecondPassWritesNothing` says exactly when it does not. Nothing enforces
  minReplicas <= maxReplicas, and with crossed bounds a warm instance alternates forever
  (`ScalingRuns.CrossedBoundsOscillate`).
- **Pruning sees what the cache shows.** With a lagging Job list a pass completes beside a stale Job
  (`LaggingList.StaleJobSurvives`); a listing covers every Job to delete if and only if the cache misses
  none (`Interleavings.ListingCovers`), and then no other Job is left (`Interleavings.CompletedPassesRotate`).
- **Status and gate can disagree.** At the end of an undisturbed pass in one case only: a Job that reports
  both a success and a failure releases the rollout while `WeightsCached` stays false and `Degraded` is set
  (`PassLaws.StoredStatusMatchesGate`, `MixedJob.SucceededAndFailed`). Between passes a stored condition may speak of an
  older generation; one that is up to date and says Ready or WeightsCached has the marker behind it in
  every run (`StoredStatus.PromisesAreKept`).

## Model

The first twenty-three rows are the main results.

| member | source | states |
|---|---|---|
| `RolloutGate.GateIsSafe` | internal/controller/modeldeployment_controller.go:113-120 | In every reachable state of every run over claim-consistent specs, an unpaused Deployment, a ReplicaSet or a serving pod that mounts a shared claim carries a key whose marker is on that claim, whatever the order of edits, retries, prunes, scalings, failures, deletions and other instances' work, and however far the caches the worker reads are behind |
| `ClaimRetarget.GateIffClaimConsistent` | internal/controller/weightcache.go:39-59 | The gate holds in all runs over a set of specs if and only if specs of the set sharing a cache key name the same claim |
| `RolloutGate.GateFindsWeights` | internal/render/workloads.go:337-363 | And the marker means weights: unless another model on that claim has a digest that begins with the same six bytes, what serves finds its own weights downloaded |
| `ModelEdits.EditedModelWaits` | internal/controller/modeldeployment_controller.go:113-120 | After any run over claim-consistent specs: an edit to a model whose fingerprint no Job of the instance has is held back by the next completed pass, which starts the download of that very model |
| `Fleet.FleetIsSafe` | internal/controller/weightcache.go:103-128 | Gate and teardown safety for every instance of any number of instances that share Jobs, pods and volumes; consistency is asked of each instance's own specs only |
| `Fleet.FleetProjects` | internal/controller/weightcache.go:103-128 | Every run of many instances is, for each of them, a run of the one-instance system, so every law over runs composes |
| `TeardownSafety.ChildrenNeedFinalizer` | internal/controller/modeldeployment_controller.go:67-84 | In every reachable state a Deployment or a warm Job of the instance exists only while the object exists and holds the finalizer, even though the worker reads stale versions |
| `TeardownSafety.ReleasedOnlyWhenEmpty` | internal/controller/modeldeployment_controller.go:280-312 | Every run about to release listed pods at some point, in a cache showing the pods of an earlier point at which the instance had none; after the listing neither a Deployment nor a warm Job of it existed |
| `PassLaws.SecondPassWritesNothing` | internal/controller/modeldeployment_controller.go:86-142 | From any store, a second pass over the same signals changes nothing, neither at its end nor at any call on the way, if and only if the first decision was one to rest on; ordered bounds and positive windows always suffice |
| `ScalingSystem.SystemIsScalingRun` | internal/controller/modeldeployment_controller.go:96-136 | For every run without spec edits, through races, failures and stale reads, the stored count and scale time are a run of the timed scaling system over exactly the passes that wrote a count, and the moves of that run are the turns of the stored version list |
| `ScalingSystem.SystemRateLimit` | internal/scaling/scaling.go:95-122 | So the version list turns up (or down) at most floor(T / window) + 1 times in any such stretch, in whole seconds, plus once per pass that wrote the count but not the time; in clock time too where the interval is aligned |
| `ScalingSystem.GrowthNeedsWeights` | internal/controller/modeldeployment_controller.go:117-118 | In every run nobody but a user raises the count unless the marker for that spec's weights is on its claim |
| `DecisionLaw.DecisionInBounds` | internal/controller/modeldeployment_controller.go:171-191 | Over spec fields and pod readings: the count rises if and only if there is room, the whole requests exceed replicas times target, the weights are there and the last change is old enough, to the smallest of what is needed, the ceiling and one step; it falls by one if and only if one fewer would do and the window allows; the depth is the sum and a change carries its second |
| `PassReport.StoredStatusFields` | internal/controller/status.go:37-48 | After a completed pass the status holds the replicas and ready replicas the Deployment reports, the fingerprint of the stored model, a selector for exactly the instance's serving pods, its generation, and the second of a change |
| `OneNumber.CompletedPassServes` | internal/controller/modeldeployment_controller.go:96-136 | At the end of every completed pass of every run: agreement of stored spec, Deployment and budget if the pass wrote its status or its version is the latest, the status write of every pass that moved the count, and otherwise agreement of the count if and only if the latest version has the count the pass read |
| `ScaleToZero.ZeroPersistsIff` | internal/queue/queue.go:54-69 | With the loop closed through metric and pods, an instance at zero without a cache stays there in every run if and only if every version its cache may still show asks for zero |
| `StoredStatus.PromisesAreKept` | internal/controller/status.go:57-96 | In every run over claim-consistent specs, a stored Ready or WeightsCached that is up to date with the generation has the marker on the claim |
| `Progress.CanRelease` | internal/controller/modeldeployment_controller.go:113-142 | From every reachable state with a live object that can have its claim, some continuation without user actions ends released, served as the spec asks, and settled |
| `Progress.CanTearDown` | internal/controller/modeldeployment_controller.go:280-312 | From every reachable state of a deleted object that no other controller holds, some continuation without user actions ends with the object gone |
| `ScalingClock.ClockLimitIffAligned` | internal/scaling/scaling.go:117-122 | For either direction: the limit floor((to - from) / window) + 1 in clock time holds in every run if and only if the interval loses no fraction of a second or no whole number of windows fits its whole seconds exactly |
| `ScalingExact.SystemLimitIffAligned` | internal/scaling/scaling.go:95-122 | The same equivalence for the turns of the version list over all runs from the empty cluster |
| `Reconcile.DriveComputesSync` | internal/controller/modeldeployment_controller.go:86-142 | The calls of an undisturbed pass compute exactly the sequential sync: same store, same success, same local variables |
| `Controller.Reconciler.Reconcile` | internal/controller/modeldeployment_controller.go:67-84 | Dispatches on absence, deletion mark and finalizer of the version the cache holds, latest or not |
| `RolloutGate.StepKeeps` | internal/controller/modeldeployment_controller.go:86-142 | Every action of every party keeps the gate's invariant: succeeded Jobs, finished warm-up pods, warm passes and released templates all have their marker on the claim they name |
| `RolloutGate.ExecKeeps` | internal/controller/modeldeployment_controller.go:86-142 | So does every run |
| `RolloutGate.ReadJobKeeps` | internal/controller/weightcache.go:39-64 | Reading a succeeded Job justifies a warm pass: Job, key and claim belong together when specs are claim-consistent |
| `RolloutGate.ApplyKeeps` | internal/controller/modeldeployment_controller.go:117-118 | Template and pause travel in one apply, so a release never precedes the evidence for its template |
| `RolloutGate.PodWorkKeeps` | internal/render/workloads.go:340-363 | Download before marker before success: each step of the warm-up script leaves every marker honest |
| `ClaimRetarget.RetargetEscapes` | internal/controller/weightcache.go:39-59 | For any two specs with one key and two claims, a concrete run from the empty cluster that serves from a claim without the marker |
| `ClaimRetarget.ReleasedOnWrongClaim` | internal/controller/modeldeployment_controller.go:117-118 | The pass after a retarget releases the Deployment on the new, empty claim |
| `PassRuns.PassEnds` | internal/controller/modeldeployment_controller.go:86-142 | Every undisturbed pass ends, from any phase and any store |
| `PassRuns.PassRun` | internal/controller/modeldeployment_controller.go:67-142 | An undisturbed pass is a run of the interleaved system with the result of the sequential pass |
| `TeardownSafety.StepKeeps` | internal/controller/modeldeployment_controller.go:67-142 | Every action keeps the teardown invariant |
| `TeardownSafety.ReleaseStep` | internal/controller/modeldeployment_controller.go:310-311 | The only action that lets go of the finalizer is the last call of finalize, on the current and deleted version, with the Deployment and the instance's Jobs gone |
| `TeardownSafety.EntersReleasing` | internal/controller/modeldeployment_controller.go:298-308 | The worker gets there only by a pod listing that found none |
| `Interleavings.MarkersOnlyGrow` | internal/controller/weightcache.go:103-128 | Over any run no weights and no markers leave a volume, pruning and teardown included |
| `Interleavings.CompletedPasses` | internal/controller/modeldeployment_controller.go:86-142 | Every pass that completes in any run, however interleaved and however far its caches lag, ends with Deployment, pause and budget from one replica number |
| `OneNumber.DeploymentFromStore` | internal/controller/modeldeployment_controller.go:103-118 | In every reachable state the Deployment carries count and template of one stored version |
| `OneNumber.OutdatedPassDisagrees` | internal/controller/modeldeployment_controller.go:96-136 | A run whose last pass completes over an outdated version with the Deployment at one and the stored spec at three |
| `Versions.TiedStep` | internal/controller/modeldeployment_controller.go:103-111 | Every action keeps the worker's copy equal to the version stored under its resourceVersion, and no status ahead of its generation |
| `Interleavings.CompletedPassesRotate` | internal/controller/weightcache.go:103-128 | And, if its Job lists missed nothing, with no Job of the instance but the one of its key |
| `Interleavings.ListingCovers` | internal/controller/weightcache.go:109-115 | A listing covers every Job to delete if and only if the cache misses none |
| `LaggingList.StaleJobSurvives` | internal/controller/weightcache.go:109-115 | A run in which a lagging Job list lets a pass complete beside a stale Job |
| `Interleavings.StepOnlyOwn` | internal/controller/weightcache.go:108-128 | No action of an instance touches Jobs or pods of another |
| `Interleavings.JobsAreNeverRewritten` | internal/controller/weightcache.go:48-53 | The worker creates and deletes Jobs but never rewrites one that exists, even if its cache does not show it |
| `Interleavings.OthersMayRely` | internal/controller/weightcache.go:103-128 | Every step of an instance is one that the others allow for |
| `Reconcile.StepKeepsFinish` | internal/controller/modeldeployment_controller.go:86-142 | Each API call of sync leaves the result of the rest of the pass unchanged |
| `Reconcile.PruneStepKeepsFinish` | internal/controller/weightcache.go:116-126 | Stale Jobs may be deleted in any order |
| `Reconcile.ReconcilePassIsWorker` | internal/controller/modeldeployment_controller.go:67-84 | The sequential Reconcile is what the worker does from its dispatch on |
| `PassLaws.SecondPassMoves` | internal/controller/modeldeployment_controller.go:103-111 | Otherwise the second pass writes a new replica count |
| `PassLaws.FirstPassSettles` | internal/controller/modeldeployment_controller.go:328-342 | One completed pass leaves a store on which every later call is a no-op, at any later wall clock |
| `PassLaws.DecisionRests` | internal/controller/modeldeployment_controller.go:147-192 | Deciding again on what the first pass stored moves the count exactly when the first decision was not one to rest on |
| `PassLaws.SyncCompletes` | internal/controller/modeldeployment_controller.go:86-142 | An undisturbed pass completes unless it needs a claim that neither exists nor is the operator's to create, and then writes nothing; a completed one leaves spec, Deployment, pause, budget and status consistent |
| `PassLaws.OneReplicaNumber` | internal/controller/modeldeployment_controller.go:96-132 | After an undisturbed completed pass spec and Deployment carry one replica count, held without a readable metric; a budget exists iff replicas >= 2 and minAvailable >= 1, with 1 <= budget < replicas |
| `PassLaws.StatusOfPass` | internal/controller/modeldeployment_controller.go:128-136 | The stored conditions are the verdicts on what the pass saw, stamped with the generation after its own spec write; Ready means released, served and non-zero |
| `PassLaws.StoredStatusMatchesGate` | internal/controller/status.go:57-75 | At the end of an undisturbed pass the stored WeightsCached equals not paused if and only if the Job did not report both a success and a failure |
| `PassReport.StoredReading` | internal/controller/status.go:98-113 | The stored Degraded, its reason and the stored depth, from the Job found and the metric read: an unreadable or negative total degrades if and only if autoscaling is on |
| `PassReport.StoredCached` | internal/controller/status.go:57-75 | The stored WeightsCached and its reason, from the Job found |
| `PassReport.StoredReady` | internal/controller/status.go:77-96 | The stored Ready and its reason, from the stored count, the Job found and the ready replicas reported |
| `PassReport.PassUsesClaim` | internal/controller/weightcache.go:79-101 | A pass of a spec that names a claim completes if and only if that claim exists, one without a name always; template and new Job name exactly that claim, this model and its fingerprint |
| `PassReport.PassWithoutCache` | internal/controller/weightcache.go:32-34 | Without a cache a pass completes, touches no Job and no claim, mounts none and does not pause |
| `PassReport.NewModelIsHeld` | internal/controller/weightcache.go:43-55 | A model whose fingerprint no Job has gets its own Job and a paused Deployment |
| `ModelEdits.FailureIsReported` | internal/controller/weightcache.go:58-64 | A Job that fails after any other conditions makes the next completed pass store Degraded and not WeightsCached, both for that reason |
| `DecisionLaw.DecisionOutOfBounds` | internal/scaling/scaling.go:83-91 | Outside the bounds the nearer bound at once, except that a cold cache keeps a count below the floor |
| `DecisionLaw.DecisionError` | internal/controller/modeldeployment_controller.go:153-169 | An error if and only if autoscaling is on and the total is unreadable or negative; then count and depth are held; any other total is the depth, saturated |
| `MixedJob.SucceededAndFailed` | internal/controller/status.go:57-75 | For every spec with a cache, a run that ends released with WeightsCached=False and Degraded=True stored, after a Job succeeded and then failed |
| `PassLaws.HeldPassNeverGrows` | internal/controller/modeldeployment_controller.go:117-118 | The pause is exactly the negation of the permission to scale up, so a pass that leaves the Deployment held has not raised the count |
| `PassLaws.SyncIsScalingPass` | internal/controller/modeldeployment_controller.go:171-191 | A completed pass is one step of the timed scaling system, so the laws over runs apply to it |
| `PassLaws.RotatesWarmJobs` | internal/controller/weightcache.go:29-70 | Afterwards the instance's warm Jobs are exactly the one for the current key, for any Jobs before; that Job, the Jobs of others and all volumes stay as they were |
| `PassLaws.PruneLaw` | internal/controller/weightcache.go:108-128 | Pruning removes exactly the instance's Jobs of other keys |
| `PassLaws.FinalizeLaw` | internal/controller/modeldeployment_controller.go:280-312 | Teardown removes the Deployment and this instance's Jobs, no other instance's, and keeps the finalizer exactly while a pod of either kind is left |
| `ScalingSystem.SystemKeepsBounds` | internal/scaling/scaling.go:82-133 | Bounds and the cold-cache rule for the stored count of the whole system |
| `ScalingSystem.EditBegins` | internal/controller/modeldeployment_controller.go:107-110 | Every edit begins such a stretch wherever the worker is: its outdated copy can no longer write |
| `ScaleToZero.ZeroPersists` | internal/queue/queue.go:54-69 | Zero in all versions the cache may show, in the worker's copy, the Deployment and the pods persists in every run with plausible readings and pods, with or without a cache |
| `ScaleToZero.OutdatedCountRevives` | internal/controller/modeldeployment_controller.go:96-120 | An outdated positive count is applied, gets a pod, and is read back into a positive stored count |
| `ScaleToZero.ReachesZero` | internal/controller/modeldeployment_controller.go:96-120 | Such an instance is reached from the empty cluster |
| `ScaleToZero.LeavingZero` | internal/controller/modeldeployment_controller.go:164-191 | On an empty reading the decision leaves zero if and only if the floor is positive, the weights are warm and the metric could be read |
| `LostTime.TwoMovesInOneWindow` | internal/controller/modeldeployment_controller.go:103-136 | A run from the empty cluster in which the version list turns up twice within a second on a window of sixty, because a pass failed between the spec write and the status write |
| `LostTime.ScalesAndFails` | internal/controller/modeldeployment_controller.go:103-136 | A pass that fails there leaves exactly the unrecorded step of the timed system |
| `ScalingClock.UnalignedEscape` | internal/scaling/scaling.go:117-122 | On every other interval a run with all times recorded makes one move too many |
| `ScalingClock.ClockNetRate` | internal/scaling/scaling.go:95-122 | Net growth and shrink per aligned interval of clock time |
| `ScalingExact.UnalignedRun` | internal/scaling/scaling.go:95-122 | On every other interval a run of undisturbed passes from the empty cluster, with no time lost, that turns once too often |
| `ScalingExact.PassesRun` | internal/controller/modeldeployment_controller.go:171-191 | Every run of the timed system on readings of one pod is a run of undisturbed passes with the same moves in the version list |
| `ScalingRuns.RateLimit` | internal/scaling/scaling.go:95-122 | In any interval of any run at most floor(T / window) + 1 moves of a direction, in whole seconds, plus one per move whose time was lost |
| `ScalingRuns.MoveSpacing` | internal/scaling/scaling.go:117-122 | k recorded moves of one direction occupy at least k - 1 windows |
| `ScalingRuns.NetChange` | internal/scaling/scaling.go:103-110 | Net movement over a run is at most maxScaleUpStep per move up and exactly one per move down |
| `ScalingRuns.NetRate` | internal/scaling/scaling.go:95-122 | Net growth and shrink per interval, when every pass recorded its move |
| `ScalingRuns.TruncationAndLossAreReal` | internal/controller/modeldeployment_controller.go:186-190 | Literal runs of the timed system: two scale-ups 59.1 s apart on a window of 60 s, and two a second apart when the first was not recorded |
| `ScalingRuns.RunKeepsBounds` | internal/scaling/scaling.go:82-133 | Bounds are kept over whole runs, whatever the readings |
| `ScalingRuns.SteadyQueueConverges` | internal/scaling/scaling.go:93-114 | Under a steady queue with open windows the count after n passes is a closed form of start, target, step and n |
| `ScalingRuns.ApproachArrives` | internal/scaling/scaling.go:93-114 | That form is monotone, never overshoots and arrives after exactly ceil(gap / step) passes up or gap passes down, and stays |
| `ScalingRuns.CrossedBoundsOscillate` | internal/scaling/scaling.go:83-91 | With crossed bounds a warm instance alternates between ceiling and floor forever |
| `ScalingRuns.ColdNeverGrows` | internal/scaling/scaling.go:83-98 | While the cache is cold no run raises the count, even under changing policies and a raised floor |
| `Scaling.Decide` | internal/scaling/scaling.go:82-115 | When each reason is given and what each means for the count: repair of the bounds, one step down, a bounded step up that stops at the target, no growth without weights |
| `Scaling.Target` | internal/scaling/scaling.go:93-93 | The wanted size stays between the lower of the two bounds and the ceiling at every depth, wrapped ones included |
| `Scaling.CeilDivExact` | internal/scaling/scaling.go:124-129 | The 32-bit quotient is the mathematical ceiling if and only if the sum does not wrap; a wrapped one is never positive |
| `Scaling.TargetMonotone` | internal/scaling/scaling.go:93-93 | A deeper queue wants no fewer replicas if and only if the deeper reading does not wrap, the bounds leave no choice, the shallower wraps too, or it is served by the floor |
| `Scaling.DecideMonotoneInDepth` | internal/scaling/scaling.go:82-115 | So does the whole decision, except exactly where the deeper reading wraps, the shallower does not, the count is inside the bounds, and the shallower reading would raise it or keep it from falling |
| `Scaling.SaturatedDepthCollapses` | internal/scaling/scaling.go:93-110 | At the depth the metric saturates to, every target above one makes the wanted size the floor and the operator sheds a replica |
| `Scaling.DecideKeepsBounds` | internal/scaling/scaling.go:79-92 | With ordered bounds the decision is inside them if and only if the count was inside or above, or the weights are cached |
| `Scaling.DecideTwice` | internal/scaling/scaling.go:82-122 | Exactly when a second decision at the same instant moves nothing |
| `Scaling.RestlessPolicies` | internal/scaling/scaling.go:82-122 | Concrete policies that move twice at one instant: a zero window, crossed bounds |
| `Scaling.RestsSomewhere` | internal/scaling/scaling.go:82-115 | A warm instance has a size to rest at if and only if the bounds are ordered |
| `Queue.Depth` | internal/queue/queue.go:53-70 | The loop on a wrapping 64-bit total computes the wrapped sum of the per-pod values, its sign check and its saturation |
| `Queue.DepthOrderIndependent` | internal/queue/queue.go:60-69 | The order of the pods never matters, wrap and error included |
| `Queue.DepthIsSaturatedSum` | internal/queue/queue.go:60-69 | For non-negative readings that fit, the depth is min(sum of floors, 2^31-1) and below saturation misses less than one request per pod |
| `Queue.RoundingLoss` | internal/queue/queue.go:61-65 | Rounding per pod loses between nothing and 999 thousandths each |
| `Queue.OnePod` | internal/queue/queue.go:62-64 | One pod counts its whole requests, rounded toward zero for either sign |
| `Queue.WholeRequestsConcat` | internal/queue/queue.go:60-65 | Pods add up one by one, each rounded on its own |
| `Queue.DepthOfTotal` | internal/queue/queue.go:66-69 | An error if and only if there is no reading or the 64-bit total is negative, otherwise the total saturated at 2^31-1, through any wrap |
| `StatusModel.StatusAgreesWithGate` | internal/controller/status.go:57-113 | Each condition and each reason holds if and only if the observation says so; Ready implies released; a failed Job forces WeightsCached=False and Degraded=True |
| `StatusModel.BuildConditions` | internal/controller/status.go:37-55 | After build every reported kind has its verdict, this generation, and a transition time that moved only if the status flipped; other kinds are untouched |
| `StatusModel.BuildOnePerKind` | internal/controller/status.go:50-53 | One condition per kind is kept; from an empty status exactly the three |
| `StatusModel.BuildIdempotent` | internal/controller/status.go:35-55 | build applied to its own output with the same observation is the identity at any later time, with or without a new scale time |
| `StatusModel.TransitionTimeStable` | internal/controller/status.go:35-55 | Over any sequence of passes a transition time stands still as long as its status does |
| `StatusModel.FindByIndex` | internal/controller/status.go:50-53 | The condition of a kind is the first one in the list |
| `Render.KeyReadsBack` | internal/render/render.go:59-63 | The key is the first six digest bytes over engine, model and revision, NUL-separated, in twelve lower-case hexadecimal digits: reading it back gives those bytes |
| `Render.SameKeyIff` | internal/render/render.go:59-63 | Two identities share a key if and only if the digests over all three parts begin with the same six bytes |
| `Render.KeyDeterminesIdentity` | internal/render/render.go:59-63 | Unless digests of different texts begin alike, any change of engine, model or revision changes the key |
| `Render.HexRoundTrip` | internal/render/render.go:62-62 | Hexadecimal text reads back to the bytes it was made of |
| `Render.PreimageInjective` | internal/render/render.go:60-61 | Identities whose engine and model hold no NUL never share a pre-image |
| `Render.PreimageDeterminesIdentity` | internal/render/render.go:60-61 | Among all strings the pre-image determines an identity if and only if none of its parts holds a NUL |
| `Render.WarmJobNameInjective` | internal/render/render.go:118-120 | Job names determine instance and key, keys having one length |
| `Render.WarmJobNameNeedsFixedLength` | internal/render/render.go:118-120 | Without a fixed length two instances would share a Job name |
| `Render.OwnedClaimNamesDistinct` | internal/render/render.go:102-114 | Claims the operator creates belong to one instance |
| `Render.NamesAsDocumented` | internal/render/render.go:102-120 | A claim the user names is used under exactly that name by every instance, so two instances share it if and only if they name it; owned claims carry the instance's name |
| `Render.SelectorSeparation` | internal/render/render.go:124-138 | The serving selector matches exactly its own serving pods and no warm pod; the warm selector exactly its own warm pods; the teardown selector both kinds of its own |
| `Render.LabelsAsDocumented` | internal/render/render.go:124-138 | The labels and their values as the cluster sees them |
| `Render.PDBMinAvailable` | internal/render/workloads.go:220-229 | A budget exists iff two replicas and one requested; it is the largest number at most requested that leaves one replica to evict |
| `Cluster.EnsureClaimFrom` | internal/controller/weightcache.go:79-101 | Fails exactly for a claim the cache does not know and the operator does not own; otherwise every volume keeps its contents and a new one is empty |
| `Cluster.OwnByInstance` | internal/controller/modeldeployment_controller.go:290-305 | The label selectors of pruning and teardown pick exactly the instance's own Jobs and pods |
| `Cluster.JobByName` | internal/controller/weightcache.go:39-41 | A Job found under the derived name is this instance's Job for this key |
| `Cluster.FindJobConditionByIndex` | internal/controller/weightcache.go:130-137 | Nothing found means no condition of the kind; what is found is the first of it |
| `Cluster.JobFailedByIndex` | internal/controller/weightcache.go:60-63 | A Job failed if and only if the first condition of kind Failed is true, wherever it stands |
| `Controller.ApiServer.Update` | internal/controller/modeldeployment_controller.go:107-110 | Succeeds only on the latest version; the generation follows the spec; removing the last finalizer of a deleted object removes it |
| `Controller.ApiServer.UpdateStatus` | internal/controller/modeldeployment_controller.go:337-340 | Succeeds only on the latest version and writes the status alone |
| `Controller.ApiServer.ListJobs` | internal/controller/weightcache.go:109-115 | Lists exactly the Jobs the selector matches |
| `Controller.StatusBuilder.Build` | internal/controller/status.go:37-55 | The loop over the three conditions computes the specified status |
| `Controller.Reconciler.EnsureClaim` | internal/controller/weightcache.go:79-101 | Updates the store in place as specified, and leaves it alone on the error |
| `Controller.Reconciler.FindCondition` | internal/controller/weightcache.go:130-137 | The loop finds the first condition of the kind |
| `Controller.Reconciler.PruneStaleWarmJobs` | internal/controller/weightcache.go:108-128 | The loop of deletions removes exactly the stale Jobs of the list |
| `Controller.Reconciler.ReconcileWeightCache` | internal/controller/weightcache.go:29-70 | Claim, Job and prune together compute the specified cache pass; an error leaves the store as it was |
| `Controller.Reconciler.DecideReplicas` | internal/controller/modeldeployment_controller.go:147-192 | Count, error, queue depth and scale time are the specified decision, held on every error |
| `Controller.Reconciler.ApplyDeployment` | internal/controller/modeldeployment_controller.go:118-120 | Template, count and pause change together; what the Deployment controller reported stays |
| `Controller.Reconciler.WriteDecision` | internal/controller/modeldeployment_controller.go:103-111 | Writes the count to the spec only if it differs; memory and store agree afterwards, generation included; an outdated copy loses the race and changes nothing |
| `Controller.Reconciler.ApplyAndReport` | internal/controller/modeldeployment_controller.go:117-136 | Applies, observes and reports as specified, with the pause from the cache state |
| `Controller.Reconciler.WriteStatus` | internal/controller/modeldeployment_controller.go:332-342 | Writes the status only if it differs |
| `Controller.Reconciler.ScaleAndApply` | internal/controller/modeldeployment_controller.go:96-136 | Decision, spec write, applies and report together compute the specified second half, conflicts included |
| `Controller.Reconciler.Sync` | internal/controller/modeldeployment_controller.go:86-142 | The whole sequence of in-place updates computes the sequential sync, for any stored version of the object it was given |
| `Controller.Reconciler.Finalize` | internal/controller/modeldeployment_controller.go:280-312 | Computes the specified teardown; releasing on an outdated copy fails |
| `Controller.Reconciler.AddFinalizer` | internal/controller/modeldeployment_controller.go:77-81 | Stores the finalizer if the copy is the latest, and creates no child |

## Left out

- Controller.Reconciler.Reconcile: is about a pass nobody interferes with, over any stored version of the object but up-to-date Jobs, pods, claims and Deployment; interference and lagging caches of every kind are the worker of module Protocol.
- PassLaws.StoredStatusMatchesGate: is about undisturbed completed passes, because a failed pass may leave an older status beside a newer pause; StoredStatus.PromisesAreKept is about all runs.
- PassLaws.SyncIsScalingPass: is about undisturbed completed passes; ScalingSystem.SystemIsScalingRun is about all.
- ScalingRuns.RateLimit: is stated in whole seconds with lost moves counted, because the bound in clock time holds only on aligned intervals (ScalingClock.ClockLimitIffAligned).
- Interleavings.CompletedPassesRotate: says at most one Job, not exactly one, because a user may delete the Job while the pass is under way; without interference it is exactly one (PassLaws.RotatesWarmJobs).
- TeardownSafety.ReleasedOnlyWhenEmpty: does not say that no pod exists when the finalizer is released, because a leftover ReplicaSet or an outdated pod cache may leave one.
- Claims and volumes are never deleted, so the garbage collection of an owned claim after its object is gone, and the wiping of a claim by hand, are outside the model.
- The Deployment, ReplicaSet, Job and garbage-collection controllers appear only through the steps listed above.
- Server-side apply, field ownership, owner references and unstructured conversion: an apply is an atomic write of the rendered fields that changes nothing when they already match.
- The custom-metrics client, its discovery and timeouts: an arbitrary list of values or an error.
- Images, probes, arguments, environment, security contexts and volumes other than the weights claim; the text of the warm-up script beyond the order of its actions; mount and marker paths.
- The contents of the Service, the endpoint string and the textual form of the selector in the status.
- Events, logs, condition messages and error texts; a condition keeps its status, reason, generation and time.
- Requeue and resync intervals: a pass may start at any time.
- Resizing and storage classes of the claim, the warm-up deadline and retry limits of the Job: a Job may fail or retry at any time.
- cmd/, config/, RBAC, leader election and generated code.
