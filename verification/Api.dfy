/** The protocol-relevant part of the ModelDeployment API: spec, status and the
    API-server validation every stored object has passed. */
module Api {

  datatype Option<+T> = None | Some(value: T)

  datatype Result<+T> = Ok(value: T) | Err

  const INT32_MAX: int := 0x7FFF_FFFF
  const INT64_MAX: int := 0x7FFF_FFFF_FFFF_FFFF

  /** One second on the operator's nanosecond clock. */
  const SECOND: int := 1_000_000_000

  type int32 = x: int | -INT32_MAX - 1 <= x <= INT32_MAX
  /** What the schema lets a count be, and a count that must be positive. */
  type Count = x: int | 0 <= x <= INT32_MAX
  type Positive = x: int | 1 <= x <= INT32_MAX witness 1

  type int64 = x: int | -INT64_MAX - 1 <= x <= INT64_MAX

  /** Two's-complement wrap-around of 32-bit and 64-bit results. */
  function Wrap32(x: int): int32 {
    (x + 0x8000_0000) % 0x1_0000_0000 - 0x8000_0000
  }

  function Wrap64(x: int): int64 {
    (x + 0x8000_0000_0000_0000) % 0x1_0000_0000_0000_0000 - 0x8000_0000_0000_0000
  }

  /** Go's integer division: truncates toward zero. */
  function TruncDiv(a: int, b: int): int
    requires b > 0
  {
    if a >= 0 then a / b else -((-a) / b)
  }

  /** A clock reading as the API keeps it. */
  function Truncate(t: int): int { t / SECOND * SECOND }

  function Min(a: int, b: int): int { if a <= b then a else b }

  function Max(a: int, b: int): int { if a >= b then a else b }

  /** What a set of weights is: the engine's disk layout, the model and its revision. */
  datatype Identity = Identity(engine: string, model: string, revision: string)

  /** An empty claim name means the operator creates and owns the claim. */
  datatype WeightCache = WeightCache(existingClaimName: string)

  /** The field types are the minimums the CRD enforces on every write. Nothing orders minReplicas
      and maxReplicas. */
  datatype Autoscaling = Autoscaling(
    minReplicas: Count, maxReplicas: Positive, targetQueueDepth: Positive,
    scaleUpSeconds: Count, scaleDownSeconds: Count, maxScaleUpStep: Positive)

  datatype Spec = Spec(
    identity: Identity, replicas: Count, cache: Option<WeightCache>,
    autoscaling: Option<Autoscaling>, minAvailable: Count)

  datatype Condition = Condition(
    kind: string, status: bool, reason: string, observedGeneration: nat, lastTransition: int)

  /** The stored scale time has whole seconds, as API timestamps do. */
  datatype Status = Status(
    observedGeneration: nat, conditions: seq<Condition>, cacheKey: string,
    replicas: int32, readyReplicas: int32, observedQueueDepth: int32,
    lastScaleSecond: Option<int>, selector: map<string, string>)

  /** `foreignFinalizer` stands for finalizers other controllers may hold. */
  datatype Md = Md(
    spec: Spec, status: Status, generation: nat,
    finalizer: bool, foreignFinalizer: bool, deleting: bool)

  const EMPTY_STATUS: Status := Status(0, [], "", 0, 0, 0, None, map[])
}
