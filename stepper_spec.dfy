/** What MaterialEffects::stepper does to the state, the limits and the
    relative-momentum-loss accumulator before one Runge–Kutta step: an ordered
    series of checks, a probe one minimal step ahead, the momentum-loss limit,
    and a bounded search for the next material boundary. */
module StepperSpec {
  import opened Libm
  import opened Materials
  import opened Outcomes
  import opened EnergyLoss
  import opened Limits
  import opened MaterialState

  /** maximum relative momentum loss allowed per step */
  const MaxRelMomLoss: real := 0.01
  /** minimum momentum for propagation [GeV] */
  const Pmin: real := 0.004
  /** 1 micrometre [cm] */
  const MinStep: real := 0.0001
  /** bound of the boundary search loop */
  const MaxIterations: nat := 100

  /** The state moved MinStep along its direction (the sign says which way). */
  function MinStepForward(s: Vec7, sign: real): (r: Vec7)
    ensures r[3..] == s[3..]
    ensures forall i :: 0 <= i < 3 ==> r[i] == s[i] + sign * MinStep * s[i + 3]
  {
    s[0 := s[0] + sign * MinStep * s[3]]
     [1 := s[1] + sign * MinStep * s[4]]
     [2 := s[2] + sign * MinStep * s[5]]
  }

  /** initTrack at the state's position looking along the signed direction,
      then getMaterialParameters. */
  function Probe(ifc: MaterialInterface, s: Vec7, sign: real): Material {
    ifc.materialAt(s[0], s[1], s[2], sign * s[3], sign * s[4], sign * s[5])
  }

  /** Where the boundary search stops: the state, the accumulated stepSize_, the
      remaining boundaryStep, and how many iterations ran. */
  datatype Search = Search(state7: Vec7, stepSize: real, boundaryStep: real, iterations: nat)

  /** The boundary search from iteration i on: ask for the next boundary, add
      the step; stop unless boundaries between equal materials are ignored, stop
      once |stepSize| reaches |sMax|, else propagate to the boundary, cross it by
      MinStep, and stop when the material there differs from current. */
  function BoundarySearch(ifc: MaterialInterface, rep: Propagator, s7: Vec7, sign: real,
                          sMax: real, stepSize: real, boundaryStep: real, current: Material,
                          ignoreEqual: bool, varField: bool, i: nat): Search
    requires i <= MaxIterations
    decreases MaxIterations - i
  {
    if i == MaxIterations then Search(s7, stepSize, boundaryStep, i)
    else
      var step := ifc.nextBoundary(rep, s7, boundaryStep, varField);
      var stepSize' := stepSize + step;
      var boundaryStep' := boundaryStep - step;
      if !ignoreEqual || Abs(stepSize') >= Abs(sMax) then Search(s7, stepSize', boundaryStep', i + 1)
      else
        var s' := MinStepForward(rep.propagate(s7, step, varField), sign);
        if Probe(ifc, s', sign) != current then Search(s', stepSize', boundaryStep', i + 1)
        else BoundarySearch(ifc, rep, s', sign, sMax, stepSize', boundaryStep', current, ignoreEqual, varField, i + 1)
  }

  /** The search from iteration i runs at least one more iteration and stops
      by MaxIterations; without ignoring equal materials it runs exactly one. */
  lemma {:induction false} SearchBounded(ifc: MaterialInterface, rep: Propagator, s7: Vec7, sign: real,
                                         sMax: real, stepSize: real, boundaryStep: real, current: Material,
                                         ignoreEqual: bool, varField: bool, i: nat)
    requires i <= MaxIterations
    ensures var r := BoundarySearch(ifc, rep, s7, sign, sMax, stepSize, boundaryStep, current, ignoreEqual, varField, i);
            i <= r.iterations <= MaxIterations &&
            (i < MaxIterations ==> r.iterations > i) &&
            (!ignoreEqual && i < MaxIterations ==> r.iterations == i + 1)
    decreases MaxIterations - i
  {
    if i < MaxIterations {
      var step := ifc.nextBoundary(rep, s7, boundaryStep, varField);
      if ignoreEqual && Abs(stepSize + step) < Abs(sMax) {
        var s' := MinStepForward(rep.propagate(s7, step, varField), sign);
        if Probe(ifc, s', sign) == current {
          SearchBounded(ifc, rep, s', sign, sMax, stepSize + step, boundaryStep - step, current,
                        ignoreEqual, varField, i + 1);
        }
      }
    }
  }

  /** An iteration of the search that crosses a boundary into the same
      material hands on to the next iteration, from the crossed state s1. */
  lemma SearchContinues(ifc: MaterialInterface, rep: Propagator, s7: Vec7, sign: real,
                        sMax: real, stepSize: real, boundaryStep: real, current: Material,
                        ignoreEqual: bool, varField: bool, i: nat, step: real,
                        s1: Vec7, stepSize1: real, boundaryStep1: real)
    requires i < MaxIterations && ignoreEqual
    requires step == ifc.nextBoundary(rep, s7, boundaryStep, varField)
    requires stepSize1 == stepSize + step && boundaryStep1 == boundaryStep - step
    requires s1 == MinStepForward(rep.propagate(s7, step, varField), sign)
    requires Abs(stepSize1) < Abs(sMax) && Probe(ifc, s1, sign) == current
    ensures BoundarySearch(ifc, rep, s7, sign, sMax, stepSize, boundaryStep, current, ignoreEqual, varField, i)
            == BoundarySearch(ifc, rep, s1, sign, sMax, stepSize1, boundaryStep1, current,
                              ignoreEqual, varField, i + 1)
  {
  }

  /** An iteration of the search that stops at the boundary it asked for:
      boundaries between equal materials are not ignored, or the step reaches
      |sMax|. */
  lemma SearchStopsAtStep(ifc: MaterialInterface, rep: Propagator, s7: Vec7, sign: real,
                          sMax: real, stepSize: real, boundaryStep: real, current: Material,
                          ignoreEqual: bool, varField: bool, i: nat, step: real,
                          stepSize1: real, boundaryStep1: real)
    requires i < MaxIterations
    requires step == ifc.nextBoundary(rep, s7, boundaryStep, varField)
    requires stepSize1 == stepSize + step && boundaryStep1 == boundaryStep - step
    requires !ignoreEqual || Abs(stepSize1) >= Abs(sMax)
    ensures BoundarySearch(ifc, rep, s7, sign, sMax, stepSize, boundaryStep, current, ignoreEqual, varField, i)
            == Search(s7, stepSize1, boundaryStep1, i + 1)
  {
  }

  /** An iteration of the search that crosses a boundary into another
      material: it stops there. */
  lemma SearchStopsAtMaterial(ifc: MaterialInterface, rep: Propagator, s7: Vec7, sign: real,
                              sMax: real, stepSize: real, boundaryStep: real, current: Material,
                              ignoreEqual: bool, varField: bool, i: nat, step: real,
                              s1: Vec7, stepSize1: real, boundaryStep1: real)
    requires i < MaxIterations && ignoreEqual
    requires step == ifc.nextBoundary(rep, s7, boundaryStep, varField)
    requires stepSize1 == stepSize + step && boundaryStep1 == boundaryStep - step
    requires s1 == MinStepForward(rep.propagate(s7, step, varField), sign)
    requires Abs(stepSize1) < Abs(sMax) && Probe(ifc, s1, sign) != current
    ensures BoundarySearch(ifc, rep, s7, sign, sMax, stepSize, boundaryStep, current, ignoreEqual, varField, i)
            == Search(s1, stepSize1, boundaryStep1, i + 1)
  {
  }

  /** Everything stepper can change, and the error it stopped with. */
  datatype StepperOutcome = StepperOutcome(
    state7: Vec7, relMomLoss: real, currentMaterial: Material, limits: map<LimitKind, real>,
    scratch: Scratch, error: Option<Error>, iterations: nat)

  /** The momentum-loss limit for the relative loss per cm perCm: none when
      nothing is lost (in vacuum the source divides by zero), otherwise the
      length over which the remaining allowance would be used up. */
  function MomLossLimit(limits: map<LimitKind, real>, relMomLoss: real, perCm: real): (r: map<LimitKind, real>)
    ensures NonNegative(limits) ==> NonNegative(r)
    ensures perCm == 0.0 ==> MomLoss !in r
    ensures perCm != 0.0 ==> MomLoss in r && r[MomLoss] >= 0.0
    ensures forall k :: k != MomLoss ==> LimitOf(r, k) == LimitOf(limits, k)
  {
    if perCm == 0.0 then limits - {MomLoss}
    else limits[MomLoss := Abs(Abs((MaxRelMomLoss - Abs(relMomLoss)) / perCm))]
  }

  /** The part of stepper after the probe: install the momentum-loss limit
      from the relative loss per cm perCm, search for the boundary from s1
      within the lowest signed limit sMax, install the boundary limit and add
      the expected relative momentum loss. */
  function SearchFromProbe(ifc: MaterialInterface, rep: Propagator, s1: Vec7, m: Material, sc: Scratch,
                           perCm: real, relMomLoss: real, limits: map<LimitKind, real>, stepSign: int,
                           ignoreEqual: bool, varField: bool): (r: StepperOutcome)
    requires stepSign == 1 || stepSign == -1
    ensures NonNegative(limits) ==> NonNegative(r.limits)
    ensures 1 <= r.iterations <= MaxIterations
    ensures !ignoreEqual ==> r.iterations == 1
    ensures r.error.None? && Boundary in r.limits
    ensures r.currentMaterial == m && r.scratch == sc.(stepSize := r.scratch.stepSize)
  {
    var sign := stepSign as real;
    var limits1 := MomLossLimit(limits, relMomLoss, perCm);
    var sMax := LowestSigned(limits1, stepSign);
    var search := BoundarySearch(ifc, rep, s1, sign, sMax, sign * MinStep, sMax, m, ignoreEqual, varField, 0);
    SearchBounded(ifc, rep, s1, sign, sMax, sign * MinStep, sMax, m, ignoreEqual, varField, 0);
    var limits2 := limits1[Boundary := Abs(search.stepSize)];
    StepperOutcome(search.state7, relMomLoss + Mul(perCm, Lowest(limits2)), m, limits2,
                   sc.(stepSize := search.stepSize), None, search.iterations)
  }

  /** SearchFromProbe in the terms stepper computes it in: the limits with the
      momentum-loss limit, the signed step bound, the search's end state and
      step, the limits with the boundary limit and the relative momentum loss. */
  lemma SearchFromProbeSteps(ifc: MaterialInterface, rep: Propagator, s1: Vec7, m: Material, sc: Scratch,
                             perCm: real, relMomLoss: real, limits: map<LimitKind, real>, stepSign: int,
                             ignoreEqual: bool, varField: bool, limits1: map<LimitKind, real>, sMax: real,
                             s7: Vec7, stepSize: real, limits2: map<LimitKind, real>, newRelMomLoss: real)
    requires stepSign == 1 || stepSign == -1
    requires limits1 == MomLossLimit(limits, relMomLoss, perCm) && sMax == LowestSigned(limits1, stepSign)
    requires var search := BoundarySearch(ifc, rep, s1, stepSign as real, sMax, (stepSign as real) * MinStep, sMax,
                                          m, ignoreEqual, varField, 0);
             s7 == search.state7 && stepSize == search.stepSize
    requires limits2 == limits1[Boundary := Abs(stepSize)] && newRelMomLoss == relMomLoss + Mul(perCm, Lowest(limits2))
    ensures var out := SearchFromProbe(ifc, rep, s1, m, sc, perCm, relMomLoss, limits, stepSign, ignoreEqual, varField);
            out == StepperOutcome(s7, newRelMomLoss, m, limits2, sc.(stepSize := stepSize), None, out.iterations)
  { }

  /** The linear momentum-loss probe over the current step: momentumLoss in
      matter; in vacuum no loss, with dEdx_ and E_ kept. */
  function ProbeOf(s: Setup, sc: Scratch, sign: real, mom: real, pdg: int): Result<LossStep>
    requires Lawful(s.lib) && mom >= Pmin
  {
    if sc.mat.z > VacuumZ then
      LossOverStep(s.lib, s.particles, sc.mat, s.flags.energyLossBetheBloch, s.flags.energyLossBrems,
                   sc.stepSize, sign, mom, true, pdg)
    else Ok(LossStep(sc.dEdx, sc.midEnergy, 0.0))
  }

  /** The probe never fails in vacuum and expects no loss there; in matter it
      expects at most the whole momentum. */
  lemma ProbeBounds(s: Setup, sc: Scratch, sign: real, mom: real, pdg: int)
    requires Lawful(s.lib) && mom >= Pmin
    ensures var r := ProbeOf(s, sc, sign, mom, pdg);
            (sc.mat.z <= VacuumZ ==> r.Ok? && r.value.loss == 0.0) && (r.Ok? ==> r.value.loss <= mom)
  {
  }

  /** The rest of stepper once the probe at the material sc1.mat just ahead
      has given its outcome: an error stops stepper there; otherwise dEdx_ and
      E_ take the probe's values and the search follows with the relative
      momentum loss per unit step. */
  function AfterProbe(ifc: MaterialInterface, rep: Propagator, s1: Vec7, sc1: Scratch,
                      probe: Result<LossStep>, mom: real, relMomLoss: real, limits: map<LimitKind, real>,
                      stepSign: int, ignoreEqual: bool, varField: bool): (r: StepperOutcome)
    requires (stepSign == 1 || stepSign == -1) && mom >= Pmin
    ensures NonNegative(limits) ==> NonNegative(r.limits)
    ensures r.iterations <= MaxIterations
    ensures !ignoreEqual ==> r.iterations <= 1
    ensures r.error.None? <==> probe.Ok?
    ensures r.error.None? ==> r.iterations >= 1 && Boundary in r.limits
    ensures r.error.Some? ==> r.iterations == 0 && r.limits == limits && r.state7 == s1 && r.scratch == sc1
    ensures r.currentMaterial == sc1.mat && r.scratch.mat == sc1.mat
  {
    match probe
    case Err(e) => StepperOutcome(s1, relMomLoss, sc1.mat, limits, sc1, Some(e), 0)
    case Ok(ls) =>
      SearchFromProbe(ifc, rep, s1, sc1.mat, sc1.(dEdx := ls.dEdx, midEnergy := ls.midEnergy), ls.loss / mom,
                      relMomLoss, limits, stepSign, ignoreEqual, varField)
  }

  /** The part of stepper after the early returns: one minimal step ahead,
      read the material there, then probe and search. */
  function ProbeAndSearch(s: Setup, ifc: MaterialInterface, sc: Scratch, rep: Propagator,
                          s7: Vec7, mom: real, relMomLoss: real, pdg: int,
                          limits: map<LimitKind, real>, stepSign: int, varField: bool): (r: StepperOutcome)
    requires Lawful(s.lib) && (stepSign == 1 || stepSign == -1) && mom >= Pmin
    ensures NonNegative(limits) ==> NonNegative(r.limits)
    ensures r.iterations <= MaxIterations
    ensures !s.flags.ignoreBoundariesBetweenEqualMaterials ==> r.iterations <= 1
    ensures r.error.None? ==> r.iterations >= 1 && Boundary in r.limits
    ensures r.error.Some? ==> r.iterations == 0 && r.limits == limits
    ensures r.currentMaterial == Probe(ifc, MinStepForward(s7, stepSign as real), stepSign as real)
    ensures r.scratch.mat == r.currentMaterial
  {
    var sign := stepSign as real;
    var s1 := MinStepForward(s7, sign);
    var sc1 := sc.(mat := Probe(ifc, s1, sign), stepSize := 1.0);
    AfterProbe(ifc, rep, s1, sc1, ProbeOf(s, sc1, sign, mom, pdg), mom, relMomLoss, limits, stepSign,
               s.flags.ignoreBoundariesBetweenEqualMaterials, varField)
  }

  /** ProbeAndSearch in the terms stepper computes it in: the state one minimal
      step ahead, the scratch fields and the probe there. */
  lemma ProbeAndSearchIsAfterProbe(s: Setup, ifc: MaterialInterface, sc: Scratch, rep: Propagator,
                                   s7: Vec7, mom: real, relMomLoss: real, pdg: int,
                                   limits: map<LimitKind, real>, stepSign: int, varField: bool,
                                   s1: Vec7, sc1: Scratch, probe: Result<LossStep>)
    requires Lawful(s.lib) && (stepSign == 1 || stepSign == -1) && mom >= Pmin
    requires s1 == MinStepForward(s7, stepSign as real)
    requires sc1 == sc.(mat := Probe(ifc, s1, stepSign as real), stepSize := 1.0)
    requires probe == ProbeOf(s, sc1, stepSign as real, mom, pdg)
    ensures ProbeAndSearch(s, ifc, sc, rep, s7, mom, relMomLoss, pdg, limits, stepSign, varField)
            == AfterProbe(ifc, rep, s1, sc1, probe, mom, relMomLoss, limits, stepSign,
                          s.flags.ignoreBoundariesBetweenEqualMaterials, varField)
  { }

  /** stepper for a particle of momentum mom stepping with sign stepSign. */
  function StepperResult(s: Setup, ifc: Option<MaterialInterface>, sc: Scratch, rep: Propagator,
                         s7: Vec7, mom: real, relMomLoss: real, pdg: int, current: Material,
                         limits: map<LimitKind, real>, stepSign: int, varField: bool): (r: StepperOutcome)
    requires Lawful(s.lib) && (stepSign == 1 || stepSign == -1)
    // the order of the early returns
    ensures mom < Pmin ==>
              r == StepperOutcome(s7, relMomLoss, current, limits, sc, Some(MomentumTooLow), 0)
    ensures mom >= Pmin && s.flags.noEffects ==>
              r == StepperOutcome(s7, relMomLoss, current, limits, sc, None, 0)
    ensures mom >= Pmin && !s.flags.noEffects && ifc.None? ==>
              r == StepperOutcome(s7, relMomLoss, current, limits, sc, Some(NotInitialized), 0)
    ensures mom >= Pmin && !s.flags.noEffects && ifc.Some? && relMomLoss > MaxRelMomLoss ==>
              r == StepperOutcome(s7, relMomLoss, current, limits[MomLoss := 0.0], sc, None, 0)
    ensures mom >= Pmin && !s.flags.noEffects && ifc.Some? && relMomLoss <= MaxRelMomLoss
            && Abs(LowestSigned(limits, stepSign)) < MinStep ==>
              r == StepperOutcome(s7, relMomLoss, current, limits, sc, None, 0)
    // limits stay non-negative, the momentum-loss limit included
    ensures NonNegative(limits) ==> NonNegative(r.limits)
    ensures NonNegative(limits) && MomLoss in r.limits ==> r.limits[MomLoss] >= 0.0
    // the boundary search is bounded, and runs once without ignoring equal materials
    ensures r.iterations <= MaxIterations
    ensures !s.flags.ignoreBoundariesBetweenEqualMaterials ==> r.iterations <= 1
    ensures r.iterations > 0 ==> r.error.None? && Boundary in r.limits
  {
    var untouched := StepperOutcome(s7, relMomLoss, current, limits, sc, None, 0);
    if mom < Pmin then untouched.(error := Some(MomentumTooLow))
    else if s.flags.noEffects then untouched
    else if ifc.None? then untouched.(error := Some(NotInitialized))
    else if relMomLoss > MaxRelMomLoss then untouched.(limits := limits[MomLoss := 0.0])
    else if Abs(LowestSigned(limits, stepSign)) < MinStep then untouched
    else ProbeAndSearch(s, ifc.value, sc, rep, s7, mom, relMomLoss, pdg, limits, stepSign, varField)
  }
}
