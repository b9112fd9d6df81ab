/** The MaterialEffects object itself: its switches, its scratch fields, the
    installed material interface, and the methods that read and overwrite them
    as the source does, each proved against the value-level definitions of the
    other modules. */
module Effects {
  import opened Libm
  import opened Materials
  import opened Outcomes
  import opened EnergyLoss
  import opened Noise
  import opened Limits
  import opened MaterialState
  import opened EffectsSpec
  import opened StepperSpec

  // ---- The bremsstrahlung fit polynomials (the loops of dEdxBrems) ------------

  /** One pass of the inner J loop of the first polynomial: row i added to s0. */
  method AddSRow(x: real, y: real, yy: real, i: int, s0: real) returns (s: real)
    requires 1 <= i <= 6 && yy == Power(y, i - 1)
    ensures s == s0 + SRow(x, y, i, 6)
  {
    s := s0;
    var xx := 1.0;
    var j := 1;
    while j <= 6
      invariant 1 <= j <= 7
      invariant s == s0 + SRow(x, y, i, j - 1) && xx == Power(x, j - 1)
    {
      var k := 6 * i + j - 6;
      if i >= 3 && y > 0.0 {
        k := k + 24;
      }
      s := s + Mul(Mul(BremsCoefficient(k), xx), yy);
      xx := Mul(xx, x);
      j := j + 1;
    }
  }

  /** One pass of the inner J loop of the second polynomial: row i added to s0. */
  method AddSSRow(x: real, y: real, yy: real, i: int, s0: real) returns (s: real)
    requires 1 <= i <= 5 && yy == Power(y, i - 1)
    ensures s == s0 + SSRow(x, y, i, 5)
  {
    s := s0;
    var xx := 1.0;
    var j := 1;
    while j <= 5
      invariant 1 <= j <= 6
      invariant s == s0 + SSRow(x, y, i, j - 1) && xx == Power(x, j - 1)
    {
      var k := 5 * i + j + 55;
      if i >= 3 && y > 0.0 {
        k := k + 15;
      }
      s := s + Mul(Mul(BremsCoefficient(k), xx), yy);
      xx := Mul(xx, x);
      j := j + 1;
    }
  }

  /** The electron part of dEdxBrems: the fitted polynomial in X and Y
      summed, then scaled into a rate. */
  method ElectronBrems(lib: MathLib, mat: Material, mom: PosReal) returns (r: real)
    requires mat.z > VacuumZ
    ensures r == BremsRaw(lib, mat, mom)
  {
    var x := BremsX(lib, mom);
    var y := BremsY(lib, mom);
    var s, ss := BremsPolynomials(x, y);
    PolynomialSumOfParts(x, y, mat.z, s, ss);
    var total := s + mat.z * ss;
    BremsRawOfSum(lib, mat, mom, total);
    r := BremsFromSum(lib, mat, mom, total);
  }

  /** S and SS of gbrele: the rows I = 1..6 (resp. 1..5) of the two fit
      polynomials in X and Y, the coefficient index moving to the second half of
      its table for I >= 3 when Y > 0. */
  method BremsPolynomials(x: real, y: real) returns (s: real, ss: real)
    ensures s == SSum(x, y, 6) && ss == SSSum(x, y, 5)
  {
    s := 0.0;
    var yy := 1.0;
    var i := 1;
    while i <= 6
      invariant 1 <= i <= 7
      invariant s == SSum(x, y, i - 1) && yy == Power(y, i - 1)
    {
      s := AddSRow(x, y, yy, i, s);
      yy := Mul(yy, y);
      i := i + 1;
    }
    ss := 0.0;
    yy := 1.0;
    i := 1;
    while i <= 5
      invariant 1 <= i <= 6
      invariant ss == SSSum(x, y, i - 1) && yy == Power(y, i - 1)
    {
      ss := AddSSRow(x, y, yy, i, ss);
      yy := Mul(yy, y);
      i := i + 1;
    }
  }

  /** The final loop of noiseCoulomb: noise[i] += inc[i] for every entry. */
  method AddInto(noise: array<real>, inc: Noise7)
    requires noise.Length == NoiseSize
    modifies noise
    ensures noise[..] == AddEntrywise(old(noise[..]), inc)
  {
    for i := 0 to NoiseSize
      invariant forall k :: 0 <= k < i ==> noise[k] == old(noise[k]) + inc[k]
      invariant forall k :: i <= k < NoiseSize ==> noise[k] == old(noise[k])
    {
      noise[i] := noise[i] + inc[i];
    }
  }

  // ---- The state vector and the boundary search of stepper --------------------

  /** The minimal step: the position moves MinStep along the direction, the
      sign saying which way. */
  method MoveMinStep(state7: array<real>, sign: real)
    requires state7.Length == 7
    modifies state7
    ensures state7[..] == MinStepForward(old(state7[..]), sign)
  {
    ghost var s0: seq<real> := state7[..];
    var px := state7[0] + sign * MinStep * state7[3];
    var py := state7[1] + sign * MinStep * state7[4];
    var pz := state7[2] + sign * MinStep * state7[5];
    ghost var moved := s0[0 := px][1 := py][2 := pz];
    assert forall i | 0 <= i < 7 :: MinStepForward(s0, sign)[i] == moved[i];
    state7[0] := px;
    state7[1] := py;
    state7[2] := pz;
    assert state7[..] == moved;
  }

  /** The state vector overwritten by v (what RKPropagate leaves in it). */
  method CopyInto(state7: array<real>, v: Vec7)
    requires state7.Length == 7
    modifies state7
    ensures state7[..] == v
  {
    for k := 0 to 7
      invariant forall j :: 0 <= j < k ==> state7[j] == v[j]
    {
      state7[k] := v[k];
    }
  }

  /** The end of stepper: the momentum-loss limit, the boundary search, the
      boundary limit and the relative momentum loss expected up to the
      tightest limit; sc is the scratch state, of which only the step size
      changes. */
  method LimitsAndSearch(ifc: MaterialInterface, rep: Propagator, state7: array<real>, m: Material,
                         ghost sc: Scratch, ignoreEqual: bool, perCm: real, relMomLoss: real,
                         limits: StepLimits, varField: bool)
    returns (stepSize: real, newRelMomLoss: real)
    requires state7.Length == 7 && limits.Valid()
    modifies state7, limits
    ensures limits.Valid() && limits.stepSign == old(limits.stepSign)
    ensures var out := SearchFromProbe(ifc, rep, old(state7[..]), m, sc, perCm, relMomLoss, old(limits.values),
                                       old(limits.stepSign), ignoreEqual, varField);
            out == StepperOutcome(state7[..], newRelMomLoss, m, limits.values, sc.(stepSize := stepSize), None,
                                  out.iterations)
  {
    ghost var s0: Vec7 := state7[..];
    ghost var limits0, sign0 := limits.values, limits.stepSign;
    ghost var limits1 := MomLossLimit(limits0, relMomLoss, perCm);
    SetMomLossLimit(limits, relMomLoss, perCm);
    var sMax := limits.LowestLimitSignedVal();
    var sign := limits.stepSign as real;
    stepSize := FindBoundary(ifc, rep, state7, sign, sMax, sign * MinStep, m, ignoreEqual, varField);
    ghost var s7: Vec7 := state7[..];
    limits.SetLimit(Boundary, stepSize);
    newRelMomLoss := relMomLoss + Mul(perCm, limits.LowestLimitVal());
    SearchFromProbeSteps(ifc, rep, s0, m, sc, perCm, relMomLoss, limits0, sign0, ignoreEqual, varField,
                         limits1, sMax, s7, stepSize, limits.values, newRelMomLoss);
  }

  /** The loop of stepper looking for the next boundary, at most MaxIterations
      times: stepSize starts at stepSize0 and boundaryStep at sMax, and the
      state vector ends where the search leaves it. */
  method FindBoundary(ifc: MaterialInterface, rep: Propagator, state7: array<real>, sign: real,
                      sMax: real, stepSize0: real, current: Material, ignoreEqual: bool, varField: bool)
    returns (stepSize: real)
    requires state7.Length == 7
    modifies state7
    ensures var search := BoundarySearch(ifc, rep, old(state7[..]), sign, sMax, stepSize0, sMax, current,
                                         ignoreEqual, varField, 0);
            state7[..] == search.state7 && stepSize == search.stepSize
  {
    ghost var whole := BoundarySearch(ifc, rep, state7[..], sign, sMax, stepSize0, sMax, current,
                                      ignoreEqual, varField, 0);
    stepSize := stepSize0;
    var boundaryStep := sMax;
    for i := 0 to MaxIterations
      invariant BoundarySearch(ifc, rep, state7[..], sign, sMax, stepSize, boundaryStep, current,
                               ignoreEqual, varField, i) == whole
    {
      ghost var s0, size0, boundaryStep0 := state7[..], stepSize, boundaryStep;
      var step := ifc.nextBoundary(rep, state7[..], boundaryStep, varField);
      stepSize := stepSize + step;
      boundaryStep := boundaryStep - step;
      if !ignoreEqual {
        SearchStopsAtStep(ifc, rep, s0, sign, sMax, size0, boundaryStep0, current, ignoreEqual, varField, i, step,
                          stepSize, boundaryStep);
        break;
      }
      if Abs(stepSize) >= Abs(sMax) {
        SearchStopsAtStep(ifc, rep, s0, sign, sMax, size0, boundaryStep0, current, ignoreEqual, varField, i, step,
                          stepSize, boundaryStep);
        break;
      }
      CopyInto(state7, rep.propagate(state7[..], step, varField));
      MoveMinStep(state7, sign);
      var materialAfter := Probe(ifc, state7[..], sign);
      if materialAfter != current {
        SearchStopsAtMaterial(ifc, rep, s0, sign, sMax, size0, boundaryStep0, current, ignoreEqual, varField, i,
                              step, state7[..], stepSize, boundaryStep);
        break;
      }
      SearchContinues(ifc, rep, s0, sign, sMax, size0, boundaryStep0, current, ignoreEqual, varField, i, step,
                      state7[..], stepSize, boundaryStep);
    }
  }

  /** The momentum-loss limit of stepper: the length over which the remaining
      relative loss allowance is used up at perCm per cm. With nothing lost the
      source divides by zero; here the limit is then removed. */
  method SetMomLossLimit(limits: StepLimits, relMomLoss: real, perCm: real)
    requires limits.Valid()
    modifies limits
    ensures limits.Valid() && limits.stepSign == old(limits.stepSign)
    ensures limits.values == MomLossLimit(old(limits.values), relMomLoss, perCm)
  {
    if perCm == 0.0 {
      limits.RemoveLimit(MomLoss);
    } else {
      limits.SetLimit(MomLoss, Abs((MaxRelMomLoss - Abs(relMomLoss)) / perCm));
    }
  }

  /** The noise matrix passed to effects, if any, as a value. */
  function NoiseOf(noise: array?<real>): (r: Option<Noise7>)
    requires noise != null ==> noise.Length == NoiseSize
    reads noise
    ensures r.None? <==> noise == null
  {
    if noise == null then None else Some(noise[..])
  }

  class MaterialEffects {
    /** The math library and the particle database the object consults. */
    const lib: MathLib
    const particles: ParticleTable

    var noEffects: bool
    var energyLossBetheBloch: bool
    var noiseBetheBloch: bool
    var noiseCoulomb: bool
    var energyLossBrems: bool
    var noiseBrems: bool
    var ignoreBoundariesBetweenEqualMaterials: bool

    /** stepSize_, dEdx_, E_ and the material parameters of the current step. */
    var stepSize: real
    var dEdx: real
    var midEnergy: real
    var mat: Material

    var mscModelCode: int
    var materialInterface: Option<MaterialInterface>

    /** The scattering model is one of the two known ones, and the math library
        obeys its law. */
    ghost predicate Valid()
      reads this`mscModelCode
    {
      Lawful(lib) && (mscModelCode == 0 || mscModelCode == 1)
    }

    function CurrentFlags(): Flags
      reads this`noEffects, this`energyLossBetheBloch, this`noiseBetheBloch, this`noiseCoulomb,
               this`energyLossBrems, this`noiseBrems, this`ignoreBoundariesBetweenEqualMaterials
    {
      Flags(noEffects, energyLossBetheBloch, noiseBetheBloch, noiseCoulomb,
            energyLossBrems, noiseBrems, ignoreBoundariesBetweenEqualMaterials)
    }

    function CurrentSetup(): Setup
      reads this`noEffects, this`energyLossBetheBloch, this`noiseBetheBloch, this`noiseCoulomb,
               this`energyLossBrems, this`noiseBrems, this`ignoreBoundariesBetweenEqualMaterials, this`mscModelCode
    {
      Setup(lib, particles, CurrentFlags(), mscModelCode)
    }

    function CurrentScratch(): Scratch
      reads this`stepSize, this`dEdx, this`midEnergy, this`mat
    {
      Scratch(stepSize, dEdx, midEnergy, mat)
    }

    /** All effects on except noEffects, zeroed scratch fields, GEANE
        scattering, no material interface. */
    constructor(lib: MathLib, particles: ParticleTable)
      requires Lawful(lib)
      ensures Valid()
      ensures this.lib == lib && this.particles == particles
      ensures CurrentFlags() == DefaultFlags && CurrentScratch() == DefaultScratch
      ensures mscModelCode == 0 && materialInterface == None
    {
      this.lib := lib;
      this.particles := particles;
      noEffects := false;
      energyLossBetheBloch := true;
      noiseBetheBloch := true;
      noiseCoulomb := true;
      energyLossBrems := true;
      noiseBrems := true;
      ignoreBoundariesBetweenEqualMaterials := true;
      stepSize := 0.0;
      dEdx := 0.0;
      midEnergy := 0.0;
      mat := NoMaterial;
      mscModelCode := 0;
      materialInterface := None;
    }

    /** init: the handle is stored whether or not one was installed before (the
        "already initialized" error is built but never thrown). */
    method Init(ifc: MaterialInterface)
      modifies this`materialInterface
      ensures materialInterface == Some(ifc)
    {
      materialInterface := Some(ifc);
    }

    /** setMscModel: "GEANE" selects code 0, "Highland" code 1; any other name
        is an error and leaves the code as it was. */
    method SetMscModel(name: string) returns (err: Option<Error>)
      requires Valid()
      modifies this`mscModelCode
      ensures Valid()
      ensures name == "GEANE" ==> mscModelCode == 0 && err == None
      ensures name == "Highland" ==> mscModelCode == 1 && err == None
      ensures name != "GEANE" && name != "Highland" ==>
                mscModelCode == old(mscModelCode) && err == Some(UnknownMscModel(name))
    {
      if name == "GEANE" {
        mscModelCode := 0;
      } else if name == "Highland" {
        mscModelCode := 1;
      } else {
        return Some(UnknownMscModel(name));
      }
      return None;
    }

    /** dEdxBrems for the current material. */
    method DEdxBrems(mom: PosReal, pdg: int) returns (r: real)
      requires Valid() && mat.z > VacuumZ
      ensures r == BremsLoss(lib, mat, mom, pdg)
      ensures r >= 0.0
    {
      if pdg != 11 && pdg != -11 {
        return 0.0;
      }
      var l, m := lib, mat;
      var dedxBrems := ElectronBrems(l, m, mom);
      if pdg == -11 {
        PositronLoss(l, m, mom, dedxBrems);
        r := PositronFactor(l, m, mom) * dedxBrems;
      } else {
        r := dedxBrems;
      }
    }

    /** momentumLoss over the step stepSize_ * stepSign: sets dEdx_ and E_ and
        returns the loss, unless a rate evaluation fails, in which case neither
        field is written. */
    method MomentumLoss(stepSign: real, mom: real, linear: bool, pdg: int) returns (r: Result<real>)
      requires Valid() && mat.z > VacuumZ
      modifies this`dEdx, this`midEnergy
      ensures match LossOverStep(lib, particles, old(mat), old(energyLossBetheBloch), old(energyLossBrems),
                                 old(stepSize), stepSign, mom, linear, pdg)
              case Ok(ls) => r == Ok(ls.loss) && dEdx == ls.dEdx && midEnergy == ls.midEnergy
              case Err(e) => r == Err(e) && dEdx == old(dEdx) && midEnergy == old(midEnergy)
    {
      var mass := particles.mass(pdg);
      var charge := particles.charge(pdg);
      var e0 := InitialEnergy(lib, mom, mass);
      var step := stepSize * stepSign;
      if linear {
        dEdx :- EnergyLoss.DEdx(lib, mat, energyLossBetheBloch, energyLossBrems, e0, mass, charge, pdg);
      } else {
        dEdx :- RungeKuttaRate(lib, mat, energyLossBetheBloch, energyLossBrems, e0, step, mass, charge, pdg);
      }
      midEnergy := e0 - Mul(dEdx, step) * 0.5;
      return Ok(LossFromEnergy(lib, mom, e0, step, dEdx, mass));
    }

    /** noiseBetheBloch: energy-loss straggling over the current step raises the
        (q/p, q/p) entry of the noise buffer, and nothing else. */
    method NoiseBetheBloch(noise: array<real>, mom: real, betaSquare: real, gamma: real,
                           gammaSquare: real, pdg: int)
      requires Valid() && noise.Length == NoiseSize && mat.z > VacuumZ
      modifies noise
      ensures noise[..] == AddToQop(old(noise[..]),
                StragglingIncrement(lib, mat, stepSize, dEdx, particles.charge(pdg), particles.mass(pdg),
                                    mom, betaSquare, gamma, gammaSquare))
    {
      var inc := StragglingIncrement(lib, mat, stepSize, dEdx, particles.charge(pdg), particles.mass(pdg),
                                     mom, betaSquare, gamma, gammaSquare);
      noise[QopIndex] := noise[QopIndex] + inc;
    }

    /** noiseCoulomb: the multiple-scattering spread over |stepSize_| in the
        given direction is added to the noise buffer entry by entry. */
    method NoiseCoulomb(noise: array<real>, direction: Vec3, momSquare: real, betaSquare: real, pdg: int)
      requires Valid() && noise.Length == NoiseSize && mat.z > VacuumZ
      modifies noise
      ensures noise[..] == AddEntrywise(old(noise[..]),
                CoulombBlock(MscVariance(lib, mscModelCode, mat, stepSize, particles.charge(pdg), betaSquare, momSquare),
                             Abs(stepSize), direction))
    {
      var sigma2 := MscVariance(lib, mscModelCode, mat, stepSize, particles.charge(pdg), betaSquare, momSquare);
      AddInto(noise, CoulombBlock(sigma2, Abs(stepSize), direction));
    }

    /** noiseBrems: for electrons and positrons the bremsstrahlung energy
        variance raises the (q/p, q/p) entry; for anything else nothing changes. */
    method NoiseBrems(noise: array<real>, momSquare: real, betaSquare: real, pdg: int)
      requires Valid() && noise.Length == NoiseSize && mat.z > VacuumZ
      modifies noise
      ensures pdg != 11 && pdg != -11 ==> noise[..] == old(noise[..])
      ensures pdg == 11 || pdg == -11 ==>
                noise[..] == AddToQop(old(noise[..]),
                  BremsIncrement(lib, mat, stepSize, particles.charge(pdg), momSquare, betaSquare))
    {
      if pdg != 11 && pdg != -11 {
        return;
      }
      var inc := BremsIncrement(lib, mat, stepSize, particles.charge(pdg), momSquare, betaSquare);
      noise[QopIndex] := noise[QopIndex] + inc;
    }
    /** The doNoise block of effects: at the mid-step energy E_ the three noise
        routines add their increments, each under its switches. */
    method AddStepNoise(noise: array<real>, direction: Vec3, pdg: int)
      requires Valid() && noise.Length == NoiseSize && mat.z > VacuumZ && midEnergy > particles.mass(pdg)
      modifies noise
      ensures noise[..] == StepNoise(CurrentSetup(), CurrentScratch(), direction, pdg, old(noise[..]))
    {
      var k := KinematicsOf(lib, midEnergy, particles.mass(pdg));
      var pSquare := Sq(k.mom);
      ghost var n0 := noise[..];
      if energyLossBetheBloch && noiseBetheBloch {
        NoiseBetheBloch(noise, k.mom, k.betaSquare, k.gamma, k.gammaSquare, pdg);
      }
      assert noise[..] == StragglingNoise(CurrentSetup(), CurrentScratch(), pdg, n0);
      ghost var n1 := noise[..];
      if noiseCoulomb {
        NoiseCoulomb(noise, direction, pSquare, k.betaSquare, pdg);
      }
      assert noise[..] == ScatteringNoise(CurrentSetup(), CurrentScratch(), direction, pdg, n1);
      ghost var n2 := noise[..];
      if energyLossBrems && noiseBrems {
        NoiseBrems(noise, pSquare, k.betaSquare, pdg);
      }
      assert noise[..] == BremsNoise(CurrentSetup(), CurrentScratch(), pdg, n2);
    }

    /** The doNoise block of effects after the momentum loss of a step
        through matter. */
    method NoiseInMatter(momLoss: real, noise: array?<real>, direction: Vec3, pdg: int) returns (err: Option<Error>)
      requires Valid() && mat.z > VacuumZ && (noise != null ==> noise.Length == NoiseSize)
      modifies noise
      ensures var run := NoisePart(CurrentSetup(), FxState(CurrentScratch(), momLoss, old(NoiseOf(noise))), pdg, direction);
              NoiseOf(noise) == run.state.noise && err == run.error
    {
      if noise == null {
        return None;
      }
      if midEnergy <= particles.mass(pdg) {
        return Some(MidEnergyNotAboveMass);
      }
      AddStepNoise(noise, direction, pdg);
      return None;
    }

    /** The part of the loop of effects for a step through matter, its length
        and material already stored. */
    method EffectsInMatter(stepSign: real, mom: real, momLoss: real, pdg: int, noise: array?<real>, direction: Vec3)
      returns (newMomLoss: real, err: Option<Error>)
      requires Valid() && mat.z > VacuumZ && (noise != null ==> noise.Length == NoiseSize)
      modifies this`dEdx, this`midEnergy, noise
      ensures var run := MatterStep(old(CurrentSetup()), FxState(old(CurrentScratch()), momLoss, old(NoiseOf(noise))),
                                    stepSign, mom, pdg, direction);
              CurrentScratch() == run.state.scratch && NoiseOf(noise) == run.state.noise &&
              newMomLoss == run.state.momLoss && err == run.error
    {
      ghost var setup, st := CurrentSetup(), FxState(CurrentScratch(), momLoss, NoiseOf(noise));
      var loss := MomentumLoss(stepSign, mom - momLoss, false, pdg);
      if loss.Err? {
        MatterStepErr(setup, st, stepSign, mom, pdg, direction, loss.error);
        return momLoss, Some(loss.error);
      }
      newMomLoss := momLoss + loss.value;
      ghost var ls := LossStep(dEdx, midEnergy, loss.value);
      MatterStepOk(setup, st, stepSign, mom, pdg, direction, ls, CurrentScratch(), newMomLoss);
      assert setup == CurrentSetup() && NoiseOf(noise) == st.noise;
      err := NoiseInMatter(newMomLoss, noise, direction, pdg);
    }

    /** One pass of the loop of effects over a step record, with momentum mom at
        the start of the segment and momLoss accumulated so far. */
    method EffectsStep(rec: StepRecord, mom: real, momLoss: real, pdg: int, noise: array?<real>)
      returns (newMomLoss: real, err: Option<Error>)
      requires Valid() && (noise != null ==> noise.Length == NoiseSize)
      modifies this`stepSize, this`dEdx, this`midEnergy, this`mat, noise
      ensures var run := SubStep(old(CurrentSetup()), FxState(old(CurrentScratch()), momLoss, old(NoiseOf(noise))),
                                 mom, pdg, rec);
              CurrentScratch() == run.state.scratch && NoiseOf(noise) == run.state.noise &&
              newMomLoss == run.state.momLoss && err == run.error
    {
      newMomLoss, err := momLoss, None;
      var realPath := rec.stepSize;
      if Abs(realPath) < MinPath {
        return;
      }
      var stepSign := if realPath < 0.0 then -1.0 else 1.0;
      stepSize := Abs(realPath);
      mat := rec.material;
      if !(mat.z > VacuumZ) {
        return;
      }
      newMomLoss, err := EffectsInMatter(stepSign, mom, momLoss, pdg, noise, Direction(rec.state7));
    }

    /** effects over the records steps[start..stop): the accumulated momentum
        loss, or the first error; the scratch fields and the noise buffer are
        left as the records before the error made them. */
    method Effects(steps: seq<StepRecord>, start: int, stop: int, mom: real, pdg: int, noise: array?<real>)
      returns (r: Result<real>)
      requires Valid() && 0 <= start <= stop <= |steps| && (noise != null ==> noise.Length == NoiseSize)
      modifies this`stepSize, this`dEdx, this`midEnergy, this`mat, noise
      ensures var out := EffectsOutcome(old(CurrentSetup()), old(materialInterface).Some?, old(CurrentScratch()),
                                        old(NoiseOf(noise)), steps[start..stop], mom, pdg);
              r == out.result && CurrentScratch() == out.state.scratch && NoiseOf(noise) == out.state.noise
    {
      if noEffects {
        return Ok(0.0);
      }
      if materialInterface.None? {
        return Err(NotInitialized);
      }
      ghost var s, sc0, noise0 := CurrentSetup(), CurrentScratch(), NoiseOf(noise);
      ghost var whole := EffectsLoop(s, FxState(sc0, 0.0, noise0), mom, pdg, steps[start..stop]);
      EffectsOutcomeOfRun(s, sc0, noise0, steps[start..stop], mom, pdg, whole);
      var momLoss := 0.0;
      var i := start;
      while i < stop
        invariant start <= i <= stop
        invariant CurrentSetup() == s
        invariant EffectsLoop(s, FxState(CurrentScratch(), momLoss, NoiseOf(noise)), mom, pdg, steps[i..stop]) == whole
      {
        assert steps[i..stop][0] == steps[i] && steps[i..stop][1..] == steps[i + 1..stop];
        ghost var st := FxState(CurrentScratch(), momLoss, NoiseOf(noise));
        var err;
        momLoss, err := EffectsStep(steps[i], mom, momLoss, pdg, noise);
        assert s == CurrentSetup();
        EffectsLoopStep(s, st, mom, pdg, steps[i..stop], CurrentScratch(), momLoss, NoiseOf(noise), err);
        if err.Some? {
          return Err(err.value);
        }
        i := i + 1;
      }
      assert steps[stop..stop] == [];
      if momLoss >= mom {
        return Err(MomentumLossTooLarge);
      }
      return Ok(momLoss);
    }

    /** stepper: before a Runge–Kutta step of the propagation in direction
        limits.stepSign, checks the momentum, then sets the momentum-loss and
        boundary limits and adds the expected relative momentum loss; state7 is
        moved across equal-material boundaries as the search goes. */
    method Stepper(rep: Propagator, state7: array<real>, mom: real, relMomLoss: real, pdg: int,
                   currentMaterial: Material, limits: StepLimits, varField: bool)
      returns (err: Option<Error>, newRelMomLoss: real, newMaterial: Material)
      requires Valid() && state7.Length == 7 && limits.Valid()
      modifies this`stepSize, this`dEdx, this`midEnergy, this`mat, state7, limits
      ensures limits.Valid() && limits.stepSign == old(limits.stepSign)
      ensures var out := StepperResult(old(CurrentSetup()), old(materialInterface), old(CurrentScratch()), rep,
                                       old(state7[..]), mom, relMomLoss, pdg, currentMaterial,
                                       old(limits.values), old(limits.stepSign), varField);
              err == out.error && newRelMomLoss == out.relMomLoss && newMaterial == out.currentMaterial &&
              state7[..] == out.state7 && limits.values == out.limits && CurrentScratch() == out.scratch
    {
      newRelMomLoss, newMaterial := relMomLoss, currentMaterial;
      if mom < Pmin {
        return Some(MomentumTooLow), newRelMomLoss, newMaterial;
      }
      if noEffects {
        return None, newRelMomLoss, newMaterial;
      }
      if materialInterface.None? {
        return Some(NotInitialized), newRelMomLoss, newMaterial;
      }
      if relMomLoss > MaxRelMomLoss {
        limits.SetLimit(MomLoss, 0.0);
        return None, newRelMomLoss, newMaterial;
      }
      var sMax := limits.LowestLimitSignedVal();
      if Abs(sMax) < MinStep {
        return None, newRelMomLoss, newMaterial;
      }
      err, newRelMomLoss, newMaterial := ProbeStep(rep, state7, mom, relMomLoss, pdg, limits, varField);
    }

    /** The part of stepper after the early returns: the minimal step and the
        material there, then the probe. */
    method ProbeStep(rep: Propagator, state7: array<real>, mom: real, relMomLoss: real, pdg: int,
                     limits: StepLimits, varField: bool)
      returns (err: Option<Error>, newRelMomLoss: real, newMaterial: Material)
      requires Valid() && state7.Length == 7 && limits.Valid() && materialInterface.Some? && mom >= Pmin
      modifies this`stepSize, this`dEdx, this`midEnergy, this`mat, state7, limits
      ensures limits.Valid() && limits.stepSign == old(limits.stepSign)
      ensures var out := ProbeAndSearch(old(CurrentSetup()), materialInterface.value, old(CurrentScratch()), rep,
                                        old(state7[..]), mom, relMomLoss, pdg, old(limits.values),
                                        old(limits.stepSign), varField);
              out == StepperOutcome(state7[..], newRelMomLoss, newMaterial, limits.values, CurrentScratch(), err,
                                    out.iterations)
    {
      ghost var sc0, s70, setup := CurrentScratch(), state7[..], CurrentSetup();
      var ifc := materialInterface.value;
      var sign := limits.stepSign as real;
      MoveMinStep(state7, sign);
      mat := Probe(ifc, state7[..], sign);
      stepSize := 1.0;
      newMaterial := mat;
      assert setup == CurrentSetup();
      ghost var probe := ProbeOf(setup, CurrentScratch(), sign, mom, pdg);
      ProbeAndSearchIsAfterProbe(setup, ifc, sc0, rep, s70, mom, relMomLoss, pdg,
                                 limits.values, limits.stepSign, varField, state7[..], CurrentScratch(), probe);
      err, newRelMomLoss := ProbeLossStep(rep, state7, mom, relMomLoss, pdg, limits, varField, probe);
    }

    /** The momentum loss over 1 cm at the material ahead (none in vacuum),
        then the limits and the search; probe is that momentum loss. */
    method ProbeLossStep(rep: Propagator, state7: array<real>, mom: real, relMomLoss: real, pdg: int,
                         limits: StepLimits, varField: bool, ghost probe: Result<LossStep>)
      returns (err: Option<Error>, newRelMomLoss: real)
      requires Valid() && state7.Length == 7 && limits.Valid() && materialInterface.Some? && mom >= Pmin
      requires probe == ProbeOf(CurrentSetup(), CurrentScratch(), limits.stepSign as real, mom, pdg)
      modifies this`stepSize, this`dEdx, this`midEnergy, state7, limits
      ensures limits.Valid() && limits.stepSign == old(limits.stepSign)
      ensures var out := AfterProbe(materialInterface.value, rep, old(state7[..]), old(CurrentScratch()), probe,
                                    mom, relMomLoss, old(limits.values), old(limits.stepSign),
                                    ignoreBoundariesBetweenEqualMaterials, varField);
              out == StepperOutcome(state7[..], newRelMomLoss, mat, limits.values, CurrentScratch(), err,
                                    out.iterations)
    {
      var rate := ProbeRate(limits.stepSign as real, mom, pdg, probe);
      if rate.Err? {
        return Some(rate.error), relMomLoss;
      }
      var ifc, m, ignoreEqual := materialInterface.value, mat, ignoreBoundariesBetweenEqualMaterials;
      ghost var sc1 := CurrentScratch();
      stepSize, newRelMomLoss := LimitsAndSearch(ifc, rep, state7, m, sc1, ignoreEqual, rate.value, relMomLoss,
                                                 limits, varField);
      err := None;
    }

    /** The relative momentum loss per unit step that stepper expects from a
        linear probe over the current step in matter, and none in vacuum;
        probe is that momentum loss. */
    method ProbeRate(stepSign: real, mom: real, pdg: int, ghost probe: Result<LossStep>) returns (r: Result<real>)
      requires Valid() && mom >= Pmin
      requires probe == ProbeOf(CurrentSetup(), CurrentScratch(), stepSign, mom, pdg)
      modifies this`dEdx, this`midEnergy
      ensures match probe
              case Ok(ls) => r == Ok(ls.loss / mom) && CurrentScratch() == old(CurrentScratch()).(dEdx := ls.dEdx, midEnergy := ls.midEnergy)
              case Err(e) => r == Err(e) && CurrentScratch() == old(CurrentScratch())
    {
      if mat.z > VacuumZ {
        var loss := MomentumLoss(stepSign, mom, true, pdg);
        if loss.Err? {
          return Err(loss.error);
        }
        return Ok(loss.value / mom);
      }
      return Ok(0.0);
    }
  }
}
