/** What MaterialEffects::effects computes over a range of step records: the
    accumulated momentum loss, the scratch fields it leaves behind, the noise
    it adds, and the error it stops with. */
module EffectsSpec {
  import opened Libm
  import opened Materials
  import opened Outcomes
  import opened EnergyLoss
  import opened Noise
  import opened MaterialState

  /** Sub-steps shorter than this are skipped. */
  const MinPath: real := 1.0e-8

  /** The state effects carries from one sub-step to the next; noise is None
      when no noise matrix was passed. */
  datatype FxState = FxState(scratch: Scratch, momLoss: real, noise: Option<Noise7>)

  /** A state and, when a sub-step threw, the error; what was written before
      the throw stays written. */
  datatype Run = Run(state: FxState, error: Option<Error>)

  predicate Negligible(rec: StepRecord) {
    Abs(rec.stepSize) < MinPath
  }

  predicate Vacuum(rec: StepRecord) {
    !(rec.material.z > VacuumZ)
  }

  /** Energy-loss straggling at the mid-step energy E_, with Bethe–Bloch loss
      and noise on. */
  function StragglingNoise(s: Setup, sc: Scratch, pdg: int, noise: Noise7): (r: Noise7)
    requires sc.mat.z > VacuumZ && sc.midEnergy > s.particles.mass(pdg)
    ensures forall k :: 0 <= k < NoiseSize && k != QopIndex ==> r[k] == noise[k]
  {
    var k := KinematicsOf(s.lib, sc.midEnergy, s.particles.mass(pdg));
    if s.flags.energyLossBetheBloch && s.flags.noiseBetheBloch then
      AddToQop(noise, StragglingIncrement(s.lib, sc.mat, sc.stepSize, sc.dEdx, s.particles.charge(pdg),
                                          s.particles.mass(pdg), k.mom, k.betaSquare, k.gamma, k.gammaSquare))
    else noise
  }

  /** Multiple scattering over |stepSize_| in the given direction, when on. */
  function ScatteringNoise(s: Setup, sc: Scratch, direction: Vec3, pdg: int, noise: Noise7): (r: Noise7)
    requires sc.mat.z > VacuumZ && sc.midEnergy > s.particles.mass(pdg)
    ensures !s.flags.noiseCoulomb ==> r == noise
  {
    var k := KinematicsOf(s.lib, sc.midEnergy, s.particles.mass(pdg));
    if s.flags.noiseCoulomb then
      AddEntrywise(noise, CoulombBlock(MscVariance(s.lib, s.mscModelCode, sc.mat, sc.stepSize, s.particles.charge(pdg),
                                                   k.betaSquare, Sq(k.mom)),
                                       Abs(sc.stepSize), direction))
    else noise
  }

  /** Bremsstrahlung energy variance, with bremsstrahlung loss and noise on,
      for electrons and positrons only. */
  function BremsNoise(s: Setup, sc: Scratch, pdg: int, noise: Noise7): (r: Noise7)
    requires sc.mat.z > VacuumZ && sc.midEnergy > s.particles.mass(pdg)
    ensures forall k :: 0 <= k < NoiseSize && k != QopIndex ==> r[k] == noise[k]
  {
    var k := KinematicsOf(s.lib, sc.midEnergy, s.particles.mass(pdg));
    if s.flags.energyLossBrems && s.flags.noiseBrems && (pdg == 11 || pdg == -11) then
      AddToQop(noise, BremsIncrement(s.lib, sc.mat, sc.stepSize, s.particles.charge(pdg), Sq(k.mom), k.betaSquare))
    else noise
  }

  /** The noise added after a sub-step of the scratch's material and length:
      straggling, then multiple scattering, then bremsstrahlung, all at the
      mid-step energy E_. */
  function StepNoise(s: Setup, sc: Scratch, direction: Vec3, pdg: int, noise: Noise7): (r: Noise7)
    requires sc.mat.z > VacuumZ && sc.midEnergy > s.particles.mass(pdg)
    ensures !s.flags.noiseCoulomb ==> forall k :: 0 <= k < NoiseSize && k != QopIndex ==> r[k] == noise[k]
  {
    BremsNoise(s, sc, pdg, ScatteringNoise(s, sc, direction, pdg, StragglingNoise(s, sc, pdg, noise)))
  }

  /** One iteration of the loop over step records, with momentum mom at the
      start of the segment. A negligible step changes nothing; a vacuum step
      only records its length and material; otherwise the linear momentum loss
      of the step is added and, with noise requested, the noise. */
  function SubStep(s: Setup, st: FxState, mom: real, pdg: int, rec: StepRecord): (r: Run)
    requires Lawful(s.lib)
    ensures Negligible(rec) ==> r == Run(st, None)
    ensures !Negligible(rec) ==> r.state.scratch.stepSize == Abs(rec.stepSize) && r.state.scratch.mat == rec.material
    ensures Vacuum(rec) ==> r.state.momLoss == st.momLoss && r.state.noise == st.noise && r.error.None?
    ensures st.noise.None? ==> r.state.noise.None?
    ensures r.error.Some? ==> r.error.value in {EnergyNotAboveMass, BetaGammaTooLow, MidEnergyNotAboveMass}
  {
    var realPath := rec.stepSize;
    if Abs(realPath) < MinPath then Run(st, None)
    else
      var stepSign := if realPath < 0.0 then -1.0 else 1.0;
      var sc := st.scratch.(stepSize := Abs(realPath), mat := rec.material);
      if !(rec.material.z > VacuumZ) then Run(st.(scratch := sc), None)
      else MatterStep(s, st.(scratch := sc), stepSign, mom, pdg, Direction(rec.state7))
  }

  /** A sub-step through matter, its length and material already in the
      scratch: the linear momentum loss over the step from momentum mom minus
      the loss so far is added and, with noise requested, the noise at E_,
      which must lie above the mass. */
  function MatterStep(s: Setup, st: FxState, stepSign: real, mom: real, pdg: int, direction: Vec3): (r: Run)
    requires Lawful(s.lib) && st.scratch.mat.z > VacuumZ
    ensures r.state.scratch.stepSize == st.scratch.stepSize && r.state.scratch.mat == st.scratch.mat
    ensures st.noise.None? ==> r.state.noise.None?
    ensures r.error.Some? ==> r.error.value in {EnergyNotAboveMass, BetaGammaTooLow, MidEnergyNotAboveMass}
  {
    var sc := st.scratch;
    match LossOverStep(s.lib, s.particles, sc.mat, s.flags.energyLossBetheBloch, s.flags.energyLossBrems,
                       sc.stepSize, stepSign, mom - st.momLoss, false, pdg)
    case Err(e) => Run(st, Some(e))
    case Ok(ls) =>
      var sc' := sc.(dEdx := ls.dEdx, midEnergy := ls.midEnergy);
      NoisePart(s, FxState(sc', st.momLoss + ls.loss, st.noise), pdg, direction)
  }

  /** MatterStep when momentumLoss fails with e: the state stays and e is the error. */
  lemma MatterStepErr(s: Setup, st: FxState, stepSign: real, mom: real, pdg: int, direction: Vec3, e: Error)
    requires Lawful(s.lib) && st.scratch.mat.z > VacuumZ
    requires LossOverStep(s.lib, s.particles, st.scratch.mat, s.flags.energyLossBetheBloch, s.flags.energyLossBrems,
                          st.scratch.stepSize, stepSign, mom - st.momLoss, false, pdg) == Err(e)
    ensures MatterStep(s, st, stepSign, mom, pdg, direction) == Run(st, Some(e))
  { }

  /** MatterStep when momentumLoss succeeds with ls: dEdx_ and E_ take its
      values, the loss is accumulated and the noise part follows. */
  lemma MatterStepOk(s: Setup, st: FxState, stepSign: real, mom: real, pdg: int, direction: Vec3, ls: LossStep,
                     sc: Scratch, momLoss: real)
    requires Lawful(s.lib) && st.scratch.mat.z > VacuumZ
    requires LossOverStep(s.lib, s.particles, st.scratch.mat, s.flags.energyLossBetheBloch, s.flags.energyLossBrems,
                          st.scratch.stepSize, stepSign, mom - st.momLoss, false, pdg) == Ok(ls)
    requires sc == st.scratch.(dEdx := ls.dEdx, midEnergy := ls.midEnergy) && momLoss == st.momLoss + ls.loss
    ensures MatterStep(s, st, stepSign, mom, pdg, direction) == NoisePart(s, FxState(sc, momLoss, st.noise), pdg, direction)
  { }

  /** The doNoise part of a sub-step through matter, after the momentum loss:
      nothing without a noise matrix, an error when E_ is not above the mass,
      otherwise the step noise. */
  function NoisePart(s: Setup, st: FxState, pdg: int, direction: Vec3): (r: Run)
    requires st.scratch.mat.z > VacuumZ
    ensures r.state.scratch == st.scratch && r.state.momLoss == st.momLoss
    ensures st.noise.None? ==> r == Run(st, None)
    ensures r.error.Some? <==> st.noise.Some? && st.scratch.midEnergy <= s.particles.mass(pdg)
  {
    if st.noise.None? then Run(st, None)
    else if st.scratch.midEnergy <= s.particles.mass(pdg) then Run(st, Some(MidEnergyNotAboveMass))
    else Run(st.(noise := Some(StepNoise(s, st.scratch, direction, pdg, st.noise.value))), None)
  }

  /** The loop over records, in order, stopping at the first error. */
  function EffectsLoop(s: Setup, st: FxState, mom: real, pdg: int, recs: seq<StepRecord>): (r: Run)
    requires Lawful(s.lib)
    decreases |recs|
  {
    if |recs| == 0 then Run(st, None)
    else
      var r := SubStep(s, st, mom, pdg, recs[0]);
      if r.error.Some? then r else EffectsLoop(s, r.state, mom, pdg, recs[1..])
  }

  /** The result of effects and the state it leaves. */
  datatype FxOutcome = FxOutcome(state: FxState, result: Result<real>)

  /** effects over the records recs (the range [materialsFXStart,
      materialsFXStop) of the step list). With noEffects nothing happens and the
      loss is 0; without a material interface it fails before touching
      anything; a normal return is always below the momentum. */
  function EffectsOutcome(s: Setup, hasInterface: bool, sc: Scratch, noise: Option<Noise7>,
                          recs: seq<StepRecord>, mom: real, pdg: int): (r: FxOutcome)
    requires Lawful(s.lib)
    ensures s.flags.noEffects ==> r == FxOutcome(FxState(sc, 0.0, noise), Ok(0.0))
    ensures !s.flags.noEffects && !hasInterface ==>
              r == FxOutcome(FxState(sc, 0.0, noise), Err(NotInitialized))
    ensures !s.flags.noEffects ==> (r.result.Ok? ==> r.result.value < mom)
    ensures r.result.Ok? && !s.flags.noEffects ==> r.result.value == r.state.momLoss
    ensures noise.None? ==> r.state.noise.None?
  {
    var st0 := FxState(sc, 0.0, noise);
    if s.flags.noEffects then FxOutcome(st0, Ok(0.0))
    else if !hasInterface then FxOutcome(st0, Err(NotInitialized))
    else
      var run := EffectsLoop(s, st0, mom, pdg, recs);
      NoNoiseStaysNone(s, st0, mom, pdg, recs);
      if run.error.Some? then FxOutcome(run.state, Err(run.error.value))
      else if run.state.momLoss >= mom then FxOutcome(run.state, Err(MomentumLossTooLarge))
      else FxOutcome(run.state, Ok(run.state.momLoss))
  }

  /** One record of the loop, given what its sub-step produced: the loop
      stops on an error, and otherwise goes on from the new state. */
  lemma EffectsLoopStep(s: Setup, st: FxState, mom: real, pdg: int, recs: seq<StepRecord>,
                        sc1: Scratch, momLoss1: real, noise1: Option<Noise7>, err: Option<Error>)
    requires Lawful(s.lib) && |recs| > 0
    requires var r := SubStep(s, st, mom, pdg, recs[0]);
             r.state.scratch == sc1 && r.state.momLoss == momLoss1 && r.state.noise == noise1 && r.error == err
    ensures EffectsLoop(s, st, mom, pdg, recs) ==
              if err.Some? then Run(FxState(sc1, momLoss1, noise1), err)
              else EffectsLoop(s, FxState(sc1, momLoss1, noise1), mom, pdg, recs[1..])
  {
  }

  /** effects once the switch and the interface let the loop run: the
      outcome follows from the loop's run. */
  lemma EffectsOutcomeOfRun(s: Setup, sc: Scratch, noise: Option<Noise7>, recs: seq<StepRecord>,
                            mom: real, pdg: int, run: Run)
    requires Lawful(s.lib) && !s.flags.noEffects
    requires run == EffectsLoop(s, FxState(sc, 0.0, noise), mom, pdg, recs)
    ensures EffectsOutcome(s, true, sc, noise, recs, mom, pdg) ==
              if run.error.Some? then FxOutcome(run.state, Err(run.error.value))
              else if run.state.momLoss >= mom then FxOutcome(run.state, Err(MomentumLossTooLarge))
              else FxOutcome(run.state, Ok(run.state.momLoss))
  {
  }

  // ---- Properties of the loop ------------------------------------------------

  /** Without a noise matrix none is ever produced. */
  lemma {:induction false} NoNoiseStaysNone(s: Setup, st: FxState, mom: real, pdg: int, recs: seq<StepRecord>)
    requires Lawful(s.lib)
    ensures st.noise.None? ==> EffectsLoop(s, st, mom, pdg, recs).state.noise.None?
    decreases |recs|
  {
    if |recs| > 0 {
      var r := SubStep(s, st, mom, pdg, recs[0]);
      if r.error.None? {
        NoNoiseStaysNone(s, r.state, mom, pdg, recs[1..]);
      }
    }
  }

  /** The loop raises only the errors of a step through matter: the energy
      and beta*gamma errors of the momentum loss and the mid-step energy error
      of the noise. */
  lemma {:induction false} EffectsLoopErrors(s: Setup, st: FxState, mom: real, pdg: int, recs: seq<StepRecord>)
    requires Lawful(s.lib)
    ensures var r := EffectsLoop(s, st, mom, pdg, recs);
            r.error.Some? ==> r.error.value in {EnergyNotAboveMass, BetaGammaTooLow, MidEnergyNotAboveMass}
    decreases |recs|
  {
    if |recs| > 0 {
      var r := SubStep(s, st, mom, pdg, recs[0]);
      if r.error.None? {
        EffectsLoopErrors(s, r.state, mom, pdg, recs[1..]);
      }
    }
  }

  /** Records that are all negligible or vacuum add no momentum loss and no
      noise, and raise no error. */
  lemma {:induction false} SkippedStepsAddNothing(s: Setup, st: FxState, mom: real, pdg: int, recs: seq<StepRecord>)
    requires Lawful(s.lib)
    requires forall i :: 0 <= i < |recs| ==> Negligible(recs[i]) || Vacuum(recs[i])
    ensures EffectsLoop(s, st, mom, pdg, recs).error.None?
    ensures EffectsLoop(s, st, mom, pdg, recs).state.momLoss == st.momLoss
    ensures EffectsLoop(s, st, mom, pdg, recs).state.noise == st.noise
    decreases |recs|
  {
    if |recs| > 0 {
      var r := SubStep(s, st, mom, pdg, recs[0]);
      SkippedStepsAddNothing(s, r.state, mom, pdg, recs[1..]);
    }
  }

  /** The loop over a concatenation runs the second part from where the first
      part ended, unless the first part threw. */
  lemma {:induction false} EffectsLoopAppend(s: Setup, st: FxState, mom: real, pdg: int,
                                             recs1: seq<StepRecord>, recs2: seq<StepRecord>)
    requires Lawful(s.lib)
    ensures var r1 := EffectsLoop(s, st, mom, pdg, recs1);
            EffectsLoop(s, st, mom, pdg, recs1 + recs2) ==
              if r1.error.Some? then r1 else EffectsLoop(s, r1.state, mom, pdg, recs2)
    decreases |recs1|
  {
    if |recs1| > 0 {
      assert (recs1 + recs2)[0] == recs1[0];
      assert (recs1 + recs2)[1..] == recs1[1..] + recs2;
      var r := SubStep(s, st, mom, pdg, recs1[0]);
      if r.error.None? {
        EffectsLoopAppend(s, r.state, mom, pdg, recs1[1..], recs2);
      }
    } else {
      assert recs1 + recs2 == recs2;
    }
  }
}
