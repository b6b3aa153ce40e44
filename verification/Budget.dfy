/** Budget vectors and the reserve/finish/consume accounting of one run.

    A vector has one integer per budget dimension.  `BudgetState` holds what has
    been consumed, what is reserved for calls in flight, and the run's limits.
 */
module Budget {

  datatype Option<+T> = None | Some(value: T)

  datatype Dim =
    | ModelAttempts | ToolCalls | Iterations | Replans | Supplements
    | QualityRepairs | InputTokens | OutputTokens | ElapsedMs

  /** The dimensions in the order in which limits are checked. */
  const DIMENSIONS: seq<Dim> :=
    [ModelAttempts, ToolCalls, Iterations, Replans, Supplements,
     QualityRepairs, InputTokens, OutputTokens, ElapsedMs]

  datatype Vector = Vector(modelAttempts: int, toolCalls: int, iterations: int, replans: int, supplements: int,
                           qualityRepairs: int, inputTokens: int, outputTokens: int, elapsedMs: int)
  {
    function At(d: Dim): int {
      match d
      case ModelAttempts => modelAttempts
      case ToolCalls => toolCalls
      case Iterations => iterations
      case Replans => replans
      case Supplements => supplements
      case QualityRepairs => qualityRepairs
      case InputTokens => inputTokens
      case OutputTokens => outputTokens
      case ElapsedMs => elapsedMs
    }

    function Add(other: Vector): (sum: Vector)
      ensures forall d :: sum.At(d) == At(d) + other.At(d)
    {
      Tabulate(d => At(d) + other.At(d))
    }

    function SubtractFloor(other: Vector): (difference: Vector)
      ensures forall d :: difference.At(d) == Max(0, At(d) - other.At(d))
    {
      Tabulate(d => Max(0, At(d) - other.At(d)))
    }
  }

  const ZERO: Vector := Vector(0, 0, 0, 0, 0, 0, 0, 0, 0)

  function Max(a: int, b: int): int {
    if a < b then b else a
  }

  function Min(a: int, b: int): int {
    if a < b then a else b
  }

  /** The vector with the given value in every dimension. */
  function Tabulate(f: Dim -> int): (v: Vector)
    ensures forall d :: v.At(d) == f(d)
  {
    Vector(f(ModelAttempts), f(ToolCalls), f(Iterations), f(Replans), f(Supplements),
           f(QualityRepairs), f(InputTokens), f(OutputTokens), f(ElapsedMs))
  }

  /** Vectors that agree in every dimension are the same vector. */
  lemma Extensional(a: Vector, b: Vector)
    requires forall d :: a.At(d) == b.At(d)
    ensures a == b
  {
    assert a.At(ModelAttempts) == b.At(ModelAttempts) && a.At(ToolCalls) == b.At(ToolCalls);
    assert a.At(Iterations) == b.At(Iterations) && a.At(Replans) == b.At(Replans);
    assert a.At(Supplements) == b.At(Supplements) && a.At(QualityRepairs) == b.At(QualityRepairs);
    assert a.At(InputTokens) == b.At(InputTokens) && a.At(OutputTokens) == b.At(OutputTokens);
    assert a.At(ElapsedMs) == b.At(ElapsedMs);
  }

  /** Whether a request fits: it asks for nothing negative and stays within every limit. */
  ghost predicate Fits(limits: Vector, used: Vector, requested: Vector) {
    forall d :: FitsAt(limits, used, requested, d)
  }

  predicate FitsAt(limits: Vector, used: Vector, requested: Vector, d: Dim) {
    0 <= requested.At(d) && used.At(d) + requested.At(d) <= limits.At(d)
  }

  /** What fitting means, dimension by dimension. */
  lemma FitsAll(limits: Vector, used: Vector, requested: Vector)
    requires Fits(limits, used, requested)
    ensures forall d :: 0 <= requested.At(d) && used.At(d) + requested.At(d) <= limits.At(d)
  {
    forall d ensures 0 <= requested.At(d) && used.At(d) + requested.At(d) <= limits.At(d) {
      assert FitsAt(limits, used, requested, d);
    }
  }

  datatype Refusal = NegativeDelta | Exhausted(dim: Dim)

  /** The refusal of a request: the first dimension, in checking order, that does not fit decides. */
  ghost predicate Refuses(limits: Vector, used: Vector, requested: Vector, refusal: Refusal) {
    exists i :: 0 <= i < |DIMENSIONS|
      && (forall j :: 0 <= j < i ==> FitsAt(limits, used, requested, DIMENSIONS[j]))
      && !FitsAt(limits, used, requested, DIMENSIONS[i])
      && refusal == if requested.At(DIMENSIONS[i]) < 0 then NegativeDelta else Exhausted(DIMENSIONS[i])
  }

  lemma EveryDimensionIsChecked(d: Dim)
    ensures d in DIMENSIONS
  {
    assert DIMENSIONS[0] == ModelAttempts && DIMENSIONS[1] == ToolCalls && DIMENSIONS[2] == Iterations;
    assert DIMENSIONS[3] == Replans && DIMENSIONS[4] == Supplements && DIMENSIONS[5] == QualityRepairs;
    assert DIMENSIONS[6] == InputTokens && DIMENSIONS[7] == OutputTokens && DIMENSIONS[8] == ElapsedMs;
  }

  /** The limit check: it answers exactly whether the request fits, and otherwise
      reports the first dimension that does not. */
  method Check(limits: Vector, used: Vector, requested: Vector) returns (refused: Option<Refusal>)
    ensures refused.None? <==> Fits(limits, used, requested)
    ensures refused.Some? ==> Refuses(limits, used, requested, refused.value)
  {
    for i := 0 to |DIMENSIONS|
      invariant forall j :: 0 <= j < i ==> FitsAt(limits, used, requested, DIMENSIONS[j])
    {
      var d := DIMENSIONS[i];
      if requested.At(d) < 0 {
        assert !FitsAt(limits, used, requested, d);
        return Some(NegativeDelta);
      }
      if used.At(d) + requested.At(d) > limits.At(d) {
        assert !FitsAt(limits, used, requested, d);
        return Some(Exhausted(d));
      }
    }
    forall d ensures FitsAt(limits, used, requested, d) {
      EveryDimensionIsChecked(d);
    }
    return None;
  }

  class BudgetState {
    const limits: Vector
    var consumed: Vector
    var reserved: Vector

    constructor (limits: Vector, consumed: Vector, reserved: Vector)
      ensures this.limits == limits && this.consumed == consumed && this.reserved == reserved
    {
      this.limits := limits;
      this.consumed := consumed;
      this.reserved := reserved;
    }

    method Reserve(delta: Vector) returns (refused: Option<Refusal>)
      modifies this
      ensures refused.None? <==> Fits(limits, old(consumed.Add(reserved)), delta)
      ensures refused.Some? ==> Refuses(limits, old(consumed.Add(reserved)), delta, refused.value)
      ensures consumed == old(consumed)
      ensures reserved == if refused.None? then old(reserved).Add(delta) else old(reserved)
    {
      refused := Check(limits, consumed.Add(reserved), delta);
      if refused.None? {
        reserved := reserved.Add(delta);
      }
    }

    method Finish(reservation: Vector, consumption: Vector)
      modifies this
      ensures reserved == old(reserved).SubtractFloor(reservation)
      ensures consumed == old(consumed).Add(consumption)
    {
      reserved := reserved.SubtractFloor(reservation);
      consumed := consumed.Add(consumption);
    }

    /** Charges a transition.  Unlike `Reserve`, the check ignores what calls in flight have reserved. */
    method Consume(delta: Vector) returns (refused: Option<Refusal>)
      modifies this
      ensures refused.None? <==> Fits(limits, old(consumed), delta)
      ensures refused.Some? ==> Refuses(limits, old(consumed), delta, refused.value)
      ensures reserved == old(reserved)
      ensures consumed == if refused.None? then old(consumed).Add(delta) else old(consumed)
    {
      refused := Check(limits, consumed, delta);
      if refused.None? {
        consumed := consumed.Add(delta);
      }
    }
  }

  /** What is left of the limits, never negative. */
  function Remaining(limits: Vector, consumed: Vector, reserved: Vector): (left: Vector)
    ensures forall d :: left.At(d) == Max(0, limits.At(d) - consumed.At(d) - reserved.At(d))
  {
    limits.SubtractFloor(consumed.Add(reserved))
  }
}
