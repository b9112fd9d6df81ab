/** Material snapshots, step records, and the external collaborators
    (particle database, material interface, track propagator) as values. */
module Materials {
  import opened Libm

  /** Materials with Z at or below this are treated as vacuum (matZ_ > 1.E-3). */
  const VacuumZ: real := 0.001

  /** density [g/cm^3], Z, A, radiation length X0 [cm], mean excitation energy I [eV] */
  datatype MaterialProperties = MaterialProperties(
    density: real, z: real, a: real, radiationLength: real, mEE: real)

  /** What a material interface reports: a non-vacuum material has a non-negative
      density and positive A, X0 and I (the formulas divide by them). */
  predicate Physical(m: MaterialProperties) {
    m.z > VacuumZ ==> m.density >= 0.0 && m.a > 0.0 && m.radiationLength > 0.0 && m.mEE > 0.0
  }

  type Material = m: MaterialProperties | Physical(m)
    witness MaterialProperties(0.0, 0.0, 0.0, 0.0, 0.0)

  /** The empty snapshot the constructor starts from. */
  const NoMaterial: Material := MaterialProperties(0.0, 0.0, 0.0, 0.0, 0.0)

  /** A 7-component state: position (0..2), direction (3..5), q/p (6). */
  type Vec7 = s: seq<real> | |s| == 7 witness [0.0, 0.0, 0.0, 0.0, 0.0, 0.0, 0.0]
  type Vec3 = s: seq<real> | |s| == 3 witness [0.0, 0.0, 0.0]

  function Direction(s: Vec7): Vec3 {
    s[3..6]
  }

  /** One already-taken propagation sub-step (RKStep): its state, its signed
      path length and the material it crossed. */
  datatype StepRecord = StepRecord(state7: Vec7, stepSize: real, material: Material)

  /** getParticleMass / getParticleCharge (the PDG database). */
  datatype ParticleTable = ParticleTable(mass: int -> PosReal, charge: int -> int)

  /** RKTrackRep::RKPropagate, as pure geometry: state, step, varField -> state. */
  datatype Propagator = Propagator(propagate: (Vec7, real, bool) -> Vec7)

  /** AbsMaterialInterface: initTrack followed by getMaterialParameters answers
      the material at a position looking along a direction; findNextBoundary
      answers the distance to the next boundary. */
  datatype MaterialInterface = MaterialInterface(
    materialAt: (real, real, real, real, real, real) -> Material,
    nextBoundary: (Propagator, Vec7, real, bool) -> real)
}
