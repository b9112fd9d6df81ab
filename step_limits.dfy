/** The step limiter the propagation consults: one non-negative limit per
    kind, the propagation direction, and selection of the tightest limit. */
module Limits {
  import opened Libm

  datatype LimitKind = FieldCurv | MomLoss | SMax | SMaxPlane | Boundary | Plane

  /** The value an unset limit has. */
  const MaxLimit: real := 99.0e99

  /** The limit of one kind: the stored value, or MaxLimit when none is set. */
  function LimitOf(values: map<LimitKind, real>, kind: LimitKind): real {
    if kind in values then values[kind] else MaxLimit
  }

  predicate NonNegative(values: map<LimitKind, real>) {
    forall k :: k in values ==> values[k] >= 0.0
  }

  function MinOfSix(values: map<LimitKind, real>): real {
    Min(Min(Min(LimitOf(values, FieldCurv), LimitOf(values, MomLoss)),
            Min(LimitOf(values, SMax), LimitOf(values, SMaxPlane))),
        Min(LimitOf(values, Boundary), LimitOf(values, Plane)))
  }

  lemma MinOfSixBelow(values: map<LimitKind, real>, k: LimitKind)
    ensures MinOfSix(values) <= LimitOf(values, k)
  {
    match k
    case FieldCurv =>
    case MomLoss =>
    case SMax =>
    case SMaxPlane =>
    case Boundary =>
    case Plane =>
  }

  /** The tightest of the six limits. */
  function Lowest(values: map<LimitKind, real>): (r: real)
    ensures forall k :: r <= LimitOf(values, k)
    ensures exists k :: r == LimitOf(values, k)
    ensures NonNegative(values) ==> r >= 0.0
  {
    forall k ensures MinOfSix(values) <= LimitOf(values, k) {
      MinOfSixBelow(values, k);
    }
    MinOfSix(values)
  }

  /** The tightest limit carrying the step sign: its magnitude is the tightest
      limit, and it is negative only when stepping backwards. */
  function LowestSigned(values: map<LimitKind, real>, stepSign: int): (r: real)
    requires stepSign == 1 || stepSign == -1
    ensures NonNegative(values) ==> Abs(r) == Lowest(values)
    ensures NonNegative(values) && r < 0.0 ==> stepSign == -1
    ensures stepSign == 1 ==> r == Lowest(values)
    ensures stepSign == -1 ==> r == -Lowest(values)
  {
    if stepSign == 1 then Lowest(values) * 1.0 else Lowest(values) * -1.0
  }

  /** Set limits stay non-negative: a new limit is stored as its magnitude. */
  lemma SetKeepsNonNegative(values: map<LimitKind, real>, kind: LimitKind, value: real)
    requires NonNegative(values)
    ensures NonNegative(values[kind := Abs(value)])
    ensures LimitOf(values[kind := Abs(value)], kind) == Abs(value)
  {
  }

  class StepLimits {
    var values: map<LimitKind, real>
    var stepSign: int

    ghost predicate Valid()
      reads this
    {
      NonNegative(values) && (stepSign == 1 || stepSign == -1)
    }

    /** No limit set, stepping forward. */
    constructor()
      ensures Valid()
      ensures values == map[] && stepSign == 1
    {
      values := map[];
      stepSign := 1;
    }

    /** setLimit: records |value| as the limit of this kind. */
    method SetLimit(kind: LimitKind, value: real)
      requires Valid()
      modifies this
      ensures Valid()
      ensures values == old(values)[kind := Abs(value)]
      ensures stepSign == old(stepSign)
    {
      values := values[kind := Abs(value)];
    }

    /** removeLimit: the kind is back to MaxLimit. */
    method RemoveLimit(kind: LimitKind)
      requires Valid()
      modifies this
      ensures Valid()
      ensures values == old(values) - {kind}
      ensures stepSign == old(stepSign)
    {
      values := values - {kind};
    }

    /** setStepSign: -1 for a negative argument, 1 otherwise. */
    method SetStepSign(signedVal: int)
      requires Valid()
      modifies this
      ensures Valid()
      ensures stepSign == (if signedVal < 0 then -1 else 1)
      ensures values == old(values)
    {
      stepSign := if signedVal < 0 then -1 else 1;
    }

    /** getLowestLimitVal */
    function LowestLimitVal(): (r: real)
      reads this
      ensures forall k :: r <= LimitOf(values, k)
      ensures exists k :: r == LimitOf(values, k)
    {
      Lowest(values)
    }

    /** getLowestLimitSignedVal */
    function LowestLimitSignedVal(): (r: real)
      requires Valid()
      reads this
      ensures Abs(r) == LowestLimitVal() && (r < 0.0 ==> stepSign == -1)
      ensures stepSign == 1 ==> r == LowestLimitVal()
      ensures stepSign == -1 ==> r == -LowestLimitVal()
    {
      LowestSigned(values, stepSign)
    }
  }
}
