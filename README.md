# GenFit MaterialEffects in Dafny

This project models `MaterialEffects`, the class of the GenFit track-fitting
library that the Runge–Kutta track representation calls for material effects.
It covers two entry points:

- **`stepper`** limits the next Runge–Kutta step, before the step is taken.
  It does this by the expected relative momentum loss and by the next
  material boundary.
- **`effects`** processes the steps taken. For each step through matter it
  accumulates the momentum loss and adds the energy-loss straggling, the
  multiple-scattering spread and the bremsstrahlung variance to a 7×7 noise
  matrix.

The project is organised as follows:

- `outcomes.dfy`: the exceptions of the source become `Result`/`Option`
  values with an `Error` kind per throw.
- `libm.dfy`: the transcendental functions (`log`, `exp`, `sqrt`, `pow`,
  `atan`) are fields of a `MathLib` value, with no law beyond their ranges
  (positive, and (-pi/2, pi/2) for `atan`) and one bound: `pow(b, e) < 1`
  for `0 < b < 1` and `e > 0`.
- `materials.dfy`: the material parameters, the step records, and the outside
  services as function-valued parameters. These services are the material
  interface (material at a point, next boundary), the Runge–Kutta propagator
  and the particle database (mass, charge).
- `step_limits.dfy`: the `StepLimits` object that `stepper` reads and writes.
  It is a map from limit kind to magnitude plus a step sign.
- `energy_loss.dfy`: `dEdx`, `dEdxBetheBloch`, `dEdxBrems` (with its
  101-entry coefficient table) and the momentum-loss computation of
  `momentumLoss`, as functions.
- `noise.dfy`: the three noise increments and the 7×7 multiple-scattering
  block, as functions over the flat 49-entry buffer.
- `effects_spec.dfy` and `stepper_spec.dfy`: the loop of `effects` and the
  checks and boundary search of `stepper`, as value-level definitions with
  their properties.
- `material_effects.dfy`: the class `MaterialEffects`. It has its switches, its
  scratch fields (`stepSize_`, `dEdx_`, `E_`, the material parameters), its
  scattering model code and its material-interface handle. Its methods
  overwrite these fields, the noise array, the state vector array and the
  limits in place, as the source does. Each method is proved equal to the
  value-level definitions.

Two places where the code differs from its messages are modelled as the code
is written:

- `init` builds an "already initialized" error and never throws it, so it
  always stores the new handle.
- Entry (5,0) of the scattering block, and its three copies, use the product
  of direction components 0 and 1.

`EffectsSpec`, `StepperSpec`, `EnergyLoss` and `Noise` state what the
operations promise. Among these promises:

- the order of the early returns of `stepper`;
- the bound of 100 boundary-search iterations, and exactly one when
  boundaries between equal materials are not ignored;
- the non-negative momentum-loss limit;
- skipped and vacuum steps adding nothing;
- an accumulated momentum loss below the momentum on every normal return of
  `effects`;
- the symmetry of the scattering block and its empty seventh row and column;
- single-entry updates of the noise buffer;
- the coefficient-index bounds of the bremsstrahlung fit polynomial;
- the validity guards and clamps of the energy-loss formulas.

## Model

| member | source | states |
|---|---|---|
| Limits.Lowest | trackReps/src/MaterialEffects.cc:342 | the lowest limit is at most every limit and equal to one of them (99e99 when none is set), and non-negative when all limits are |
| Limits.LowestSigned | trackReps/src/MaterialEffects.cc:247 | the signed lowest limit is the lowest limit for a forward step and its negation for a backward one, so it is negative only when stepping backwards |
| Limits.SetKeepsNonNegative | trackReps/src/MaterialEffects.cc:277 | setting a limit stores its magnitude, so all limits stay non-negative |
| Limits.StepLimits.SetLimit | trackReps/src/MaterialEffects.cc:339 | setLimit replaces exactly the named limit by the magnitude of the value; the sign and other limits are unchanged |
| Limits.StepLimits.RemoveLimit | trackReps/src/MaterialEffects.cc:276-277 | removes exactly the named limit, leaving the others and the sign |
| Limits.StepLimits.LowestLimitVal | trackReps/src/MaterialEffects.cc:342 | getLowestLimitVal is at most every stored limit and equal to one of them |
| Limits.StepLimits.LowestLimitSignedVal | trackReps/src/MaterialEffects.cc:286 | getLowestLimitSignedVal is stepSign times getLowestLimitVal: the lowest limit for step sign 1, its negation for -1 |
| EnergyLoss.BetheBloch | trackReps/src/MaterialEffects.cc:438-460 | fails exactly when beta²gamma² < 0.05², with the beta*gamma error; otherwise the rate is clamped to be non-negative |
| EnergyLoss.SIndex | trackReps/src/MaterialEffects.cc:647-667 | every coefficient index K of the first polynomial (6I+J-6, plus 24 for I >= 3 when Y > 0) lies in 1..60 |
| EnergyLoss.SSIndex | trackReps/src/MaterialEffects.cc:672-692 | every coefficient index K of the second polynomial (5I+J+55, plus 15 for I >= 3 when Y > 0) lies in 61..100 |
| EnergyLoss.BremsCoefficient | trackReps/src/MaterialEffects.cc:604-607 | definition, no contract: the 101 coefficients C(0..100) of the default table, indexed only within 0..100 |
| EnergyLoss.Bcut | trackReps/src/MaterialEffects.cc:613-621 | BCUT is 10000 confined to the momentum: at most both, positive for a positive momentum, the momentum itself up to 10000 |
| EnergyLoss.BremsT | trackReps/src/MaterialEffects.cc:623-634 | T is the momentum confined to THIGH = 100: at most both, positive for a positive momentum, the momentum itself up to 100 |
| EnergyLoss.BremsKc | trackReps/src/MaterialEffects.cc:623-638 | kc never exceeds BCUT or T and is positive for a positive momentum |
| EnergyLoss.QuadraticPositive | trackReps/src/MaterialEffects.cc:716-728 | the high-energy correction denominator 1 - RAT/2 + 2RAT²/9 is positive for every RAT |
| EnergyLoss.HighEnergyFactor | trackReps/src/MaterialEffects.cc:715-729 | the correction applied at or above THIGH is a ratio of positive factors, so it is positive |
| EnergyLoss.BremsCutsPositive | trackReps/src/MaterialEffects.cc:613-638 | the confined cut BCUT lies in (0, mom], and T and kc are positive |
| EnergyLoss.MigdalTermNonNegative | trackReps/src/MaterialEffects.cc:697-700 | the denominator A*kc² of the Migdal correction term is positive and the term is non-negative, so CORR = 1/(1 + term) is well defined |
| EnergyLoss.BremsFromSum | trackReps/src/MaterialEffects.cc:696-737 | the electron rate built from the polynomial sum S is non-negative, and zero when S <= 0 |
| EnergyLoss.BremsRaw | trackReps/src/MaterialEffects.cc:613-737 | the electron bremsstrahlung rate dedxBrems is non-negative before the positron factor |
| EnergyLoss.PositronEta | trackReps/src/MaterialEffects.cc:743-753 | ETA = 0.5 + atan(W)/pi, 0 below X = -8 or for Z <= 0, 1 from X = 9, always lies in [0, 1] |
| EnergyLoss.PositronFactor | trackReps/src/MaterialEffects.cc:740-768 | the positron correction factor is strictly positive |
| EnergyLoss.BremsLoss | trackReps/src/MaterialEffects.cc:597-771 | dEdxBrems is 0 unless abs(pdg) = 11, equals the electron rate for pdg = 11, and is never negative |
| EnergyLoss.KinematicsOf | trackReps/src/MaterialEffects.cc:421-424 | for energy above mass: gamma = E/m > 1, beta² in (0, 1) and beta²gamma² = gamma² - 1 |
| EnergyLoss.KinematicsFromGamma | trackReps/src/MaterialEffects.cc:421-423 | for gamma > 1, 1 - 1/gamma² lies in (0, 1) and times gamma² gives gamma² - 1 |
| EnergyLoss.DEdx | trackReps/src/MaterialEffects.cc:413-435 | succeeds exactly when energy > mass and, with Bethe–Bloch on, beta²gamma² >= 0.05²; energy <= mass gives the energy error; a rate is non-negative |
| EnergyLoss.Rk4Mean | trackReps/src/MaterialEffects.cc:383 | the weighted mean (k1+2k2+2k3+k4)/6 lies between the smallest and largest of the four rates |
| EnergyLoss.LossFromEnergy | trackReps/src/MaterialEffects.cc:390-399 | the loss equals the whole momentum exactly when E0 - step*dEdx <= mass, and never exceeds the momentum |
| EnergyLoss.MeanRate | trackReps/src/MaterialEffects.cc:371-384 | in linear mode the rate is the first evaluation at E0; in either mode a rate is non-negative and implies the first evaluation succeeded |
| EnergyLoss.RungeKuttaRate | trackReps/src/MaterialEffects.cc:375-384 | a Runge–Kutta rate is non-negative and implies the evaluation at E0 succeeded |
| EnergyLoss.LossOverStep | trackReps/src/MaterialEffects.cc:349-410 | dEdx_ >= 0; E_ = E0 - dEdx_*step/2; the loss is at most mom and is mom exactly when the particle would stop; in linear mode dEdx_ is the evaluation at E0 and fails exactly when it fails |
| Noise.AddEntrywise | trackReps/src/MaterialEffects.cc:591-593 | every one of the 49 entries is raised by the corresponding increment |
| Noise.AddToQop | trackReps/src/MaterialEffects.cc:522 | entry 6*7+6 = 48 is raised by the increment and every other entry is unchanged |
| Noise.SigmaAlpha | trackReps/src/MaterialEffects.cc:494-509 | sigmaalpha never exceeds 54.6 and above lambda max 1010 follows the linear continuation when below the cap |
| Noise.EnergyVariance | trackReps/src/MaterialEffects.cc:471-519 | sigma²(E) of the straggling (Vavilov–Gaussian, truncated Landau or Urban regime) vanishes for a zero-length step |
| Noise.StragglingIncrement | trackReps/src/MaterialEffects.cc:521-522 | the q/p increment of noiseBetheBloch vanishes for a zero-length step |
| Noise.MscVariance | trackReps/src/MaterialEffects.cc:531-544 | sigma² of the scattering angle is clamped to >= 0, and a code other than GEANE (0) or Highland (1) contributes 0 |
| Noise.CoulombEntryIsCovariance | trackReps/src/MaterialEffects.cc:553-588 | every block entry outside the (5,0) group equals the scattering covariance of position and direction coordinates |
| Noise.CoulombEntryFrom50 | trackReps/src/MaterialEffects.cc:558-583 | entry (5,0) and its copies (0,5), (3,2), (2,3) equal the (4,0) covariance, built from a[0]*a[1] |
| Noise.CoulombEntry | trackReps/src/MaterialEffects.cc:553-588 | an entry of the scattering block as written; row and column 6 are zero, and every entry is zero when sigma² is; see also the three CoulombEntry lemmas |
| Noise.CoulombEntryDiffersFromCovariance | trackReps/src/MaterialEffects.cc:558 | for direction (0.6, 0, 0.8) the (5,0) entry is 0 while the covariance of z and a_x is -0.48 |
| Noise.CoulombEntrySymmetric | trackReps/src/MaterialEffects.cc:553-588 | entry (r,c) of the block equals entry (c,r) |
| Noise.CoulombBlock | trackReps/src/MaterialEffects.cc:547-588 | the scratch block holds the block entries, satisfies inc[r*7+c] = inc[c*7+r], and its row and column 6 are zero |
| Noise.BremsVariance | trackReps/src/MaterialEffects.cc:784-786 | sigma²(E) of the radiated energy is clamped to >= 0 |
| Noise.BremsIncrement | trackReps/src/MaterialEffects.cc:783-789 | the q/p increment of noiseBrems is non-negative whenever beta² > 0 |
| EffectsSpec.StragglingNoise | trackReps/src/MaterialEffects.cc:184-185 | the straggling part of a step changes at most the q/p entry |
| EffectsSpec.ScatteringNoise | trackReps/src/MaterialEffects.cc:187-188 | with noiseCoulomb off the scattering part leaves the buffer unchanged |
| EffectsSpec.BremsNoise | trackReps/src/MaterialEffects.cc:190-191 | the bremsstrahlung part of a step changes at most the q/p entry |
| EffectsSpec.StepNoise | trackReps/src/MaterialEffects.cc:184-191 | without scattering noise a step's noise changes at most the q/p entry |
| EffectsSpec.SubStep | trackReps/src/MaterialEffects.cc:143-194 | a step shorter than 1e-8 changes nothing; otherwise stepSize_ and the material are recorded; a vacuum step (Z <= 1e-3) adds no loss, no noise and no error; the only errors are the energy and beta*gamma ones |
| EffectsSpec.MatterStep | trackReps/src/MaterialEffects.cc:166-194 | a step through matter keeps the recorded step size and material and fails only with the energy or beta*gamma errors |
| EffectsSpec.NoisePart | trackReps/src/MaterialEffects.cc:170-192 | the noise part fails exactly when noise is requested and E_ <= mass; without noise it does nothing |
| EffectsSpec.EffectsLoop | trackReps/src/MaterialEffects.cc:141-196 | definition, no contract: the records in order, stopping at the first error; its properties are the lemmas below |
| EffectsSpec.EffectsLoopErrors | trackReps/src/MaterialEffects.cc:141-196 | by induction over the records, the loop raises only the energy, beta*gamma and mid-step energy errors |
| EffectsSpec.EffectsOutcome | trackReps/src/MaterialEffects.cc:128-204 | noEffects returns 0 and changes nothing; no interface is an error; every normal return is the accumulated loss and is below mom; requesting no noise leaves none |
| EffectsSpec.NoNoiseStaysNone | trackReps/src/MaterialEffects.cc:136-192 | without a noise matrix no record produces one |
| EffectsSpec.SkippedStepsAddNothing | trackReps/src/MaterialEffects.cc:144-166 | records that are all negligible or vacuum add no momentum loss, no noise and no error |
| EffectsSpec.EffectsLoopAppend | trackReps/src/MaterialEffects.cc:141-196 | the loop over two concatenated record ranges is the loop over the second started where the first ended, unless the first failed |
| StepperSpec.MinStepForward | trackReps/src/MaterialEffects.cc:253-255 | the position moves 1e-4 times the sign along the direction and the direction and q/p are unchanged |
| StepperSpec.BoundarySearch | trackReps/src/MaterialEffects.cc:293-337 | definition, no contract: the boundary search loop with its three exits; its bounds are SearchBounded |
| StepperSpec.SearchBounded | trackReps/src/MaterialEffects.cc:293-337 | the boundary search from pass i ends after more than i and at most 100 passes, and after exactly i+1 when boundaries between equal materials are not ignored |
| StepperSpec.MomLossLimit | trackReps/src/MaterialEffects.cc:276-277 | the momentum-loss limit is set non-negative (removed when nothing is lost per cm) and no other limit changes |
| StepperSpec.ProbeOf | trackReps/src/MaterialEffects.cc:269-274 | definition, no contract: the linear momentum loss over 1 cm in matter, none in vacuum; its bounds are ProbeBounds |
| StepperSpec.ProbeBounds | trackReps/src/MaterialEffects.cc:269-274 | the probe never fails in vacuum and expects no loss there, and in matter expects at most the whole momentum |
| StepperSpec.SearchFromProbe | trackReps/src/MaterialEffects.cc:276-342 | after the probe: limits stay non-negative, 1..100 search passes, exactly 1 without ignoring equal boundaries, a boundary limit set, no error, only stepSize_ changed |
| StepperSpec.AfterProbe | trackReps/src/MaterialEffects.cc:269-342 | fails exactly when the probing momentum loss fails, and then changes nothing; otherwise as after the probe, with the probed material recorded |
| StepperSpec.ProbeAndSearch | trackReps/src/MaterialEffects.cc:252-342 | from the minimal step on: at most 100 passes (1 without ignoring equal boundaries), a boundary limit on success, limits unchanged on failure, and the material found 1e-4 ahead as current material |
| StepperSpec.StepperResult | trackReps/src/MaterialEffects.cc:208-343 | mom < 4e-3 fails before any other check; then noEffects returns untouched; then a missing interface fails; then relMomLoss > 0.01 sets the momentum-loss limit 0 and returns; then abs(sMax) < 1e-4 returns; limits stay non-negative with the momentum-loss limit >= 0; at most 100 passes, at most 1 without ignoring equal boundaries |
| Effects.AddSRow | trackReps/src/MaterialEffects.cc:647-667 | one I-row of the J loop adds the row I of the first fit polynomial to S |
| Effects.AddSSRow | trackReps/src/MaterialEffects.cc:672-692 | one I-row of the J loop adds the row I of the second fit polynomial to SS |
| Effects.BremsPolynomials | trackReps/src/MaterialEffects.cc:643-692 | the four nested loops compute S and SS as the two fit polynomials in X and Y |
| Effects.ElectronBrems | trackReps/src/MaterialEffects.cc:613-737 | the electron computation of dEdxBrems yields the electron bremsstrahlung rate |
| Effects.AddInto | trackReps/src/MaterialEffects.cc:591-593 | the noise buffer becomes its old value plus the increment entry by entry |
| Effects.MoveMinStep | trackReps/src/MaterialEffects.cc:253-255 | the state vector makes the minimal step in place |
| Effects.CopyInto | trackReps/src/MaterialEffects.cc:319 | the state vector is overwritten by the propagated state |
| Effects.FindBoundary | trackReps/src/MaterialEffects.cc:286-337 | the loop leaves the state vector and stepSize_ where the boundary search ends |
| Effects.SetMomLossLimit | trackReps/src/MaterialEffects.cc:276-277 | the limits become the momentum-loss limit update of the old ones, the sign unchanged |
| Effects.LimitsAndSearch | trackReps/src/MaterialEffects.cc:276-342 | the limits, the state vector, stepSize_ and relMomLoss end as the post-probe outcome states |
| Effects.NoiseOf | trackReps/src/MaterialEffects.cc:136 | noise is requested exactly when a noise matrix is passed |
| Effects.MaterialEffects.constructor | trackReps/src/MaterialEffects.cc:42-60 | all switches on except noEffects, scratch fields zero, GEANE scattering, no material interface |
| Effects.MaterialEffects.Init | trackReps/src/MaterialEffects.cc:81-88 | the handle is always stored, installed before or not |
| Effects.MaterialEffects.SetMscModel | trackReps/src/MaterialEffects.cc:92-105 | "GEANE" sets code 0, "Highland" code 1, any other name fails and leaves the code, so the code stays in {0, 1} |
| Effects.MaterialEffects.DEdxBrems | trackReps/src/MaterialEffects.cc:597-771 | the result is the bremsstrahlung rate for the current material and is non-negative |
| Effects.MaterialEffects.MomentumLoss | trackReps/src/MaterialEffects.cc:349-410 | returns the loss over stepSize_*stepSign and sets dEdx_ and E_ as the momentum-loss computation does; on failure neither is written |
| Effects.MaterialEffects.NoiseBetheBloch | trackReps/src/MaterialEffects.cc:463-523 | only entry 48 changes, by the straggling increment |
| Effects.MaterialEffects.NoiseCoulomb | trackReps/src/MaterialEffects.cc:526-594 | the buffer is raised entry by entry by the symmetric scattering block of the clamped sigma² over abs(stepSize_) |
| Effects.MaterialEffects.NoiseBrems | trackReps/src/MaterialEffects.cc:774-790 | no change unless abs(pdg) = 11; then only entry 48 changes, by the bremsstrahlung increment |
| Effects.MaterialEffects.AddStepNoise | trackReps/src/MaterialEffects.cc:178-191 | the three noise routines, each under its switches, give the step's noise at E_ |
| Effects.MaterialEffects.NoiseInMatter | trackReps/src/MaterialEffects.cc:170-192 | the doNoise block fails exactly when noise is requested and E_ <= mass, and otherwise adds the step's noise |
| Effects.MaterialEffects.EffectsInMatter | trackReps/src/MaterialEffects.cc:166-194 | the fields, the loss, the noise and the error end as the step-through-matter definition states |
| Effects.MaterialEffects.EffectsStep | trackReps/src/MaterialEffects.cc:143-194 | one pass of the loop of effects leaves the fields, the loss, the noise and the error as the sub-step definition states |
| Effects.MaterialEffects.Effects | trackReps/src/MaterialEffects.cc:108-205 | visits only records in [start, stop) and ends with the result, scratch fields and noise of the effects outcome |
| Effects.MaterialEffects.Stepper | trackReps/src/MaterialEffects.cc:208-343 | the error, relMomLoss, current material, state vector, limits and scratch fields end as the stepper outcome states; the step sign is unchanged |
| Effects.MaterialEffects.ProbeStep | trackReps/src/MaterialEffects.cc:252-342 | from the minimal step on, the method ends as the probe-and-search outcome |
| Effects.MaterialEffects.ProbeLossStep | trackReps/src/MaterialEffects.cc:268-342 | after the material lookup, the method ends as the post-probe outcome |
| Effects.MaterialEffects.ProbeRate | trackReps/src/MaterialEffects.cc:268-274 | the loss per cm is the linear momentum loss over 1 cm divided by mom in matter and 0 in vacuum; a failure is passed on and changes no field |

## Left out

- `drawdEdx` (diagnostic histograms and file output), `setDebugLvl` and all debug and error printing: output only.
- The singleton `getInstance`/`destruct` and the destructor: memory management.
- The `BETHE` compile-time variant of the bremsstrahlung coefficients and constants: only the default build is modelled.
- Floating point: all arithmetic is over exact reals. Rounding, infinities and NaN are not modelled.
- `log`, `exp`, `sqrt`, `pow` and `atan` are uninterpreted functions whose only laws are their ranges (positive, and (-pi/2, pi/2) for `atan`) and the bound `pow(b, e) < 1` for `0 < b < 1` and `e > 0`. The magnitudes of the physics formulas are modelled, but nothing is proved about their values beyond signs and clamps.
- A division whose divisor may be zero (a transcendental result, or the particle's beta² and momentum) gives 0 in the model. In IEEE arithmetic it is infinite.
- Massless particles: the particle database gives positive masses only.
- Unphysical materials: every material from the step records and the material interface is assumed physical (the `Physical` predicate of `materials.dfy`). Above Z = 1e-3 its density is non-negative and its A, radiation length and mean excitation energy are positive. The source accepts any material and would divide by zero at an A or radiation length of zero.
- The particle database (`getParticleMass`, `getParticleCharge`), the material interface (`initTrack`, `getMaterialParameters`, `findNextBoundary`) and `RKPropagate` are function-valued parameters. The material interface's position state is modelled as a pure lookup of the material at a point.
- StepLimits.h is not part of this model. The `StepLimits` class keeps a magnitude per limit kind and a step sign, and takes the lowest magnitude (99e99 when none is set). Any margin or tie-breaking rules of the real class are left out.
- StepperSpec.MomLossLimit: in vacuum, where the loss per cm is 0, the source's division gives an infinite limit. The model removes the momentum-loss limit instead.
- The noise routines are modelled only for a step through matter (Z > 1e-3), as `effects` calls them.
- The `assert` on the scattering model code in `noiseCoulomb` is not modelled; any other code gives zero variance.
- `relMomLoss`, passed by reference in the source, is an argument and a result of `Stepper`.
- The step records are a Dafny sequence, the noise matrix a nullable array of 49 entries, and the state vector an array of 7.
