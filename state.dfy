/** The state of MaterialEffects as values: the configuration that a
    computation only reads, and the scratch fields it overwrites. */
module MaterialState {
  import opened Libm
  import opened Materials

  /** The effect switches (all on, except noEffects, after construction). */
  datatype Flags = Flags(
    noEffects: bool,
    energyLossBetheBloch: bool,
    noiseBetheBloch: bool,
    noiseCoulomb: bool,
    energyLossBrems: bool,
    noiseBrems: bool,
    ignoreBoundariesBetweenEqualMaterials: bool)

  /** What effects and stepper read and never write: the math library, the
      particle database, the switches and the multiple-scattering model. */
  datatype Setup = Setup(lib: MathLib, particles: ParticleTable, flags: Flags, mscModelCode: int)

  /** stepSize_, dEdx_, E_ and the current material parameters
      (matDensity_, matZ_, matA_, radiationLength_, mEE_). */
  datatype Scratch = Scratch(stepSize: real, dEdx: real, midEnergy: real, mat: Material)

  /** The values the constructor sets. */
  const DefaultFlags: Flags := Flags(false, true, true, true, true, true, true)
  const DefaultScratch: Scratch := Scratch(0.0, 0.0, 0.0, NoMaterial)
}
