/** Mean energy-loss rates: Bethe–Bloch ionization, GEANT3 bremsstrahlung fit,
    their sum, and the linear / 4th-order Runge–Kutta momentum loss across a
    step (MaterialEffects::dEdx, dEdxBetheBloch, dEdxBrems, momentumLoss). */
module EnergyLoss {
  import opened Libm
  import opened Materials
  import opened Outcomes

  /** me_: electron mass [GeV] */
  const ElectronMass: real := 0.000510998910
  /** Bethe–Bloch is not valid below this beta*gamma. */
  const BetaGammaMin: real := 0.05

  // ---- Bethe–Bloch ---------------------------------------------------------

  /** dEdxBetheBloch [GeV/cm] for the given kinematics; fails below
      beta*gamma = 0.05 and is clamped at zero otherwise. */
  function BetheBloch(lib: MathLib, mat: Material, betaSquare: real, gamma: real,
                      gammaSquare: real, mass: PosReal, charge: int): (r: Result<real>)
    requires mat.z > VacuumZ && gamma > 0.0
    ensures r.Ok? <==> betaSquare * gammaSquare >= BetaGammaMin * BetaGammaMin
    ensures r.Ok? ==> r.value >= 0.0
    ensures r.Err? ==> r.error == BetaGammaTooLow
  {
    if betaSquare * gammaSquare < BetaGammaMin * BetaGammaMin then
      Err(BetaGammaTooLow)
    else
      var massRatio := ElectronMass / mass;
      var root := lib.sqrt(1.0 + 2.0 * gamma * massRatio + massRatio * massRatio);
      var argument := gammaSquare * betaSquare * ElectronMass * 1000.0 * 2.0 / ((0.000001 * mat.mEE) * root);
      var prefactor := 0.307075 * mat.z / mat.a * mat.density / betaSquare * (charge as real) * (charge as real);
      var result := prefactor * (lib.log(argument) - betaSquare) * 0.001;
      if result < 0.0 then Ok(0.0) else Ok(result)
  }

  // ---- Bremsstrahlung (GEANT3 gbrele) --------------------------------------

  /** The 101 fit coefficients C(0..100) of the default (Migdal-corrected)
      table: C(1..60) belong to the first polynomial, C(61..100) to the second;
      C(0) is unused. */
  function BremsCoefficient(k: int): real
    requires 0 <= k <= 100
  {
    match k
    case 0 => 0.0
    case 1 => -0.960613e-01 case 2 => 0.631029e-01 case 3 => -0.142819e-01 case 4 => 0.150437e-02 case 5 => -0.733286e-04 case 6 => 0.131404e-05
    case 7 => 0.859343e-01 case 8 => -0.529023e-01 case 9 => 0.131899e-01 case 10 => -0.159201e-02 case 11 => 0.926958e-04 case 12 => -0.208439e-05
    case 13 => -0.684096e1 case 14 => 0.370364e1 case 15 => -0.786752e0 case 16 => 0.822670e-01 case 17 => -0.424710e-02 case 18 => 0.867980e-04
    case 19 => -0.200856e1 case 20 => 0.129573e1 case 21 => -0.306533e0 case 22 => 0.343682e-01 case 23 => -0.185931e-02 case 24 => 0.392432e-04
    case 25 => 0.127538e1 case 26 => -0.515705e0 case 27 => 0.820644e-01 case 28 => -0.641997e-02 case 29 => 0.245913e-03 case 30 => -0.365789e-05
    case 31 => 0.115792e0 case 32 => -0.463143e-01 case 33 => 0.725442e-02 case 34 => -0.556266e-03 case 35 => 0.208049e-04 case 36 => -0.300895e-06
    case 37 => -0.271082e-01 case 38 => 0.173949e-01 case 39 => -0.452531e-02 case 40 => 0.569405e-03 case 41 => -0.344856e-04 case 42 => 0.803964e-06
    case 43 => 0.419855e-02 case 44 => -0.277188e-02 case 45 => 0.737658e-03 case 46 => -0.939463e-04 case 47 => 0.569748e-05 case 48 => -0.131737e-06
    case 49 => -0.318752e-03 case 50 => 0.215144e-03 case 51 => -0.579787e-04 case 52 => 0.737972e-05 case 53 => -0.441485e-06 case 54 => 0.994726e-08
    case 55 => 0.938233e-05 case 56 => -0.651642e-05 case 57 => 0.177303e-05 case 58 => -0.224680e-06 case 59 => 0.132080e-07 case 60 => -0.288593e-09
    case 61 => -0.245667e-03 case 62 => 0.833406e-04 case 63 => -0.129217e-04 case 64 => 0.915099e-06 case 65 => -0.247179e-07
    case 66 => 0.147696e-03 case 67 => -0.498793e-04 case 68 => 0.402375e-05 case 69 => 0.989281e-07 case 70 => -0.133378e-07
    case 71 => -0.737702e-02 case 72 => 0.333057e-02 case 73 => -0.553141e-03 case 74 => 0.402464e-04 case 75 => -0.107977e-05
    case 76 => -0.641533e-02 case 77 => 0.290113e-02 case 78 => -0.477641e-03 case 79 => 0.342008e-04 case 80 => -0.900582e-06
    case 81 => 0.574303e-05 case 82 => 0.908521e-04 case 83 => -0.256900e-04 case 84 => 0.239921e-05 case 85 => -0.741271e-07
    case 86 => -0.341260e-04 case 87 => 0.971711e-05 case 88 => -0.172031e-06 case 89 => -0.119455e-06 case 90 => 0.704166e-08
    case 91 => 0.341740e-05 case 92 => -0.775867e-06 case 93 => -0.653231e-07 case 94 => 0.225605e-07 case 95 => -0.114860e-08
    case 96 => -0.119391e-06 case 97 => 0.194885e-07 case 98 => 0.588959e-08 case 99 => -0.127589e-08 case 100 => 0.608247e-10
    case _ => assert false; 0.0
  }

  const Xi: real := 2.51
  const BremsBeta: real := 0.99
  const Vl: real := 0.00004
  /** BCUT: soft bremsstrahlung is integrated up to this energy. */
  const BremsCut: real := 10000.0
  const THigh: real := 100.0
  const CHigh: real := 50.0

  /** Coefficient index K of the first polynomial (K = 6I + J - 6, plus 24 for
      I >= 3 when Y > 0). */
  function SIndex(i: int, j: int, yPositive: bool): (k: int)
    requires 1 <= i <= 6 && 1 <= j <= 6
    ensures 1 <= k <= 60
  {
    6 * i + j - 6 + (if i >= 3 && yPositive then 24 else 0)
  }

  /** Coefficient index K of the second polynomial (K = 5I + J + 55, plus 15
      for I >= 3 when Y > 0). */
  function SSIndex(i: int, j: int, yPositive: bool): (k: int)
    requires 1 <= i <= 5 && 1 <= j <= 5
    ensures 61 <= k <= 100
  {
    5 * i + j + 55 + (if i >= 3 && yPositive then 15 else 0)
  }

  /** Sum over J = 1..j of C[SIndex(i, J)] * x^(J-1) * y^(i-1). */
  function SRow(x: real, y: real, i: int, j: int): real
    requires 1 <= i <= 6 && 0 <= j <= 6
  {
    if j == 0 then 0.0
    else SRow(x, y, i, j - 1) + Mul(Mul(BremsCoefficient(SIndex(i, j, y > 0.0)), Power(x, j - 1)), Power(y, i - 1))
  }

  /** Rows 1..i of the first polynomial. */
  function SSum(x: real, y: real, i: int): real
    requires 0 <= i <= 6
  {
    if i == 0 then 0.0 else SSum(x, y, i - 1) + SRow(x, y, i, 6)
  }

  /** Sum over J = 1..j of C[SSIndex(i, J)] * x^(J-1) * y^(i-1). */
  function SSRow(x: real, y: real, i: int, j: int): real
    requires 1 <= i <= 5 && 0 <= j <= 5
  {
    if j == 0 then 0.0
    else SSRow(x, y, i, j - 1) + Mul(Mul(BremsCoefficient(SSIndex(i, j, y > 0.0)), Power(x, j - 1)), Power(y, i - 1))
  }

  /** Rows 1..i of the second polynomial. */
  function SSSum(x: real, y: real, i: int): real
    requires 0 <= i <= 5
  {
    if i == 0 then 0.0 else SSSum(x, y, i - 1) + SSRow(x, y, i, 5)
  }

  /** S + Z SS: the two fit polynomials combined for atomic number z. */
  function PolynomialSum(x: real, y: real, z: real): real {
    SSum(x, y, 6) + z * SSSum(x, y, 5)
  }

  lemma QuadraticPositive(rat: real)
    ensures 1.0 - 0.5 * rat + 2.0 * rat * rat / 9.0 > 0.0
  {
    var d := rat - 9.0 / 8.0;
    assert 1.0 - 0.5 * rat + 2.0 * rat * rat / 9.0 == 2.0 * d * d / 9.0 + 23.0 / 32.0;
    assert d * d >= 0.0;
  }

  /** Energy cut BCUT confined to the momentum. */
  function Bcut(mom: real): (r: real)
    ensures r <= BremsCut && r <= mom
    ensures mom > 0.0 ==> r > 0.0
    ensures mom <= BremsCut ==> r == mom
  {
    if BremsCut > mom then mom else BremsCut
  }

  /** T: the momentum confined to THIGH. */
  function BremsT(mom: real): (r: real)
    ensures r <= THigh && r <= mom
    ensures mom > 0.0 ==> r > 0.0
    ensures mom <= THigh ==> r == mom
  {
    if mom > THigh then THigh else mom
  }

  /** kc: the cut confined to CHIGH above THIGH, and to T. */
  function BremsKc(mom: real): (r: real)
    ensures r <= Bcut(mom) && r <= BremsT(mom)
    ensures mom > 0.0 ==> r > 0.0
  {
    var bcut := Bcut(mom);
    var t := BremsT(mom);
    var kc := if mom > THigh then (if bcut >= THigh then CHigh else bcut) else bcut;
    if bcut > t then t else kc
  }

  lemma BremsCutsPositive(mom: real)
    requires mom > 0.0
    ensures 0.0 < Bcut(mom) <= mom && 0.0 < BremsT(mom) && 0.0 < BremsKc(mom)
  {
  }

  /** Correction for momenta at or above THIGH (MaterialEffects.cc, lines 716-728);
      it is a ratio of positive quantities, so it never changes the sign of
      the rate it scales. */
  function HighEnergyFactor(mom: real): (r: real)
    requires mom > 0.0
    ensures r > 0.0
  {
    var bcut := Bcut(mom);
    var t := BremsT(mom);
    var kc := BremsKc(mom);
    BremsCutsPositive(mom);
    var rat1 := bcut / mom;
    QuadraticPositive(rat1);
    var n1 := 1.0 - 0.5 * rat1 + 2.0 * rat1 * rat1 / 9.0;
    if bcut < THigh then
      var rat2 := bcut / t;
      QuadraticPositive(rat2);
      var d := 1.0 - 0.5 * rat2 + 2.0 * rat2 * rat2 / 9.0;
      QuotientPositive(n1, d);
      n1 / d
    else
      var rat2 := kc / t;
      QuadraticPositive(rat2);
      var d := 1.0 - 0.5 * rat2 + 2.0 * rat2 * rat2 / 9.0;
      ProductPositive(bcut, n1);
      ProductPositive(kc, d);
      QuotientPositive(bcut * n1, kc * d);
      bcut * n1 / (kc * d)
  }

  lemma MigdalTermNonNegative(mat: Material, e: real, kc: real)
    requires mat.z > VacuumZ && kc > 0.0
    ensures mat.a * kc * kc > 0.0
    ensures 0.805485e-10 * mat.density * mat.z * e * e / (mat.a * kc * kc) >= 0.0
  {
    ProductPositive(kc, kc);
    ProductPositive(mat.a * kc, kc);
    ProductNonNegative(0.805485e-10 * mat.density, mat.z);
    ProductNonNegative(0.805485e-10 * mat.density * mat.z, e * e);
    QuotientNonNegative(0.805485e-10 * mat.density * mat.z * e * e, mat.a * kc * kc);
  }

  /** X = log(T / me) and Y = log(kc / (E vl)), E = T + me: the variables of
      the two fit polynomials. */
  function BremsX(lib: MathLib, mom: real): real {
    lib.log(BremsT(mom) / ElectronMass)
  }

  function BremsY(lib: MathLib, mom: real): real
    requires mom > 0.0
  {
    BremsCutsPositive(mom);
    lib.log(BremsKc(mom) / ((BremsT(mom) + ElectronMass) * Vl))
  }

  /** The bremsstrahlung rate for polynomial value s = S + Z SS: zero unless s is
      positive, then the Migdal-corrected, high-energy-corrected rate, clamped
      at zero (MaterialEffects.cc, lines 694-737). */
  function BremsFromSum(lib: MathLib, mat: Material, mom: real, s: real): (r: real)
    requires mat.z > VacuumZ && mom > 0.0
    ensures r >= 0.0
    ensures s <= 0.0 ==> r == 0.0
  {
    var t := BremsT(mom);
    var kc := BremsKc(mom);
    var e := t + ElectronMass;
    BremsCutsPositive(mom);
    if s > 0.0 then
      MigdalTermNonNegative(mat, e, kc);
      var corr := 1.0 / (1.0 + 0.805485e-10 * mat.density * mat.z * e * e / (mat.a * kc * kc));
      var fac := mat.z * (mat.z + Xi) * e * e / (e + ElectronMass) * lib.exp(BremsBeta * lib.log(kc * corr / t));
      if fac <= 0.0 then 0.0
      else
        var d := fac * s;
        var d' := if mom >= THigh then d * HighEnergyFactor(mom) else d;
        var d'' := d' * (0.60221367 * mat.density / mat.a);
        if d'' < 0.0 then 0.0 else d''
    else 0.0
  }

  /** The bremsstrahlung loss rate before the positron factor: never negative. */
  function BremsRaw(lib: MathLib, mat: Material, mom: real): (r: real)
    requires mat.z > VacuumZ && mom > 0.0
    ensures r >= 0.0
  {
    BremsFromSum(lib, mat, mom, PolynomialSum(BremsX(lib, mom), BremsY(lib, mom), mat.z))
  }

  const AA: real := 7522100.0
  const A1: real := 0.415
  const A3: real := 0.0021
  const A5: real := 0.00054

  /** ETA of the positron annihilation sigmoid in log(AA p / Z^2): a weight
      between 0 (far below, X <= -8) and 1 (X >= 9). */
  function PositronEta(lib: MathLib, mat: Material, mom: real): (r: real)
    requires mom > 0.0
    ensures 0.0 <= r <= 1.0
  {
    if mat.z > 0.0 then
      var x := lib.log(AA * mom / (mat.z * mat.z));
      if x > -8.0 then
        if x >= 9.0 then 1.0
        else 0.5 + lib.atan(A1 * x + A3 * Power(x, 3) + A5 * Power(x, 5)) / Pi
      else 0.0
    else 0.0
  }

  /** The positron correction factor (MaterialEffects.cc, lines 740-768); it is positive. */
  function PositronFactor(lib: MathLib, mat: Material, mom: real): (r: real)
    requires Lawful(lib) && mom > 0.0
    ensures r > 0.0
  {
    var eta := PositronEta(lib, mat, mom);
    if eta < 0.0001 then 0.0000000001
    else if eta > 0.9999 then 1.0
    else
      var e0 := if Bcut(mom) / mom > 1.0 then 1.0 else Bcut(mom) / mom;
      if e0 < 0.00000001 then 1.0
      else
        var p := PowZeroBase(lib, 1.0 - e0, 1.0 / eta);
        ProductPositive(eta, 1.0 - p);
        QuotientPositive(eta * (1.0 - p), e0);
        eta * (1.0 - p) / e0
  }

  /** dEdxBrems: zero except for electrons and positrons (|pdg| == 11), and
      never negative. */
  function BremsLoss(lib: MathLib, mat: Material, mom: real, pdg: int): (r: real)
    requires Lawful(lib) && mat.z > VacuumZ && mom > 0.0
    ensures pdg != 11 && pdg != -11 ==> r == 0.0
    ensures pdg == 11 ==> r == BremsRaw(lib, mat, mom)
    ensures r >= 0.0
  {
    if pdg != 11 && pdg != -11 then 0.0
    else if pdg == -11 then PositronFactor(lib, mat, mom) * BremsRaw(lib, mat, mom)
    else BremsRaw(lib, mat, mom)
  }

  /** The two polynomial sums put together as dEdxBrems does. */
  lemma PolynomialSumOfParts(x: real, y: real, z: real, s: real, ss: real)
    requires s == SSum(x, y, 6) && ss == SSSum(x, y, 5)
    ensures s + z * ss == PolynomialSum(x, y, z)
  {
  }

  /** The electron rate is BremsFromSum of the polynomial sum at X and Y. */
  lemma BremsRawOfSum(lib: MathLib, mat: Material, mom: real, total: real)
    requires mat.z > VacuumZ && mom > 0.0
    requires total == PolynomialSum(BremsX(lib, mom), BremsY(lib, mom), mat.z)
    ensures BremsFromSum(lib, mat, mom, total) == BremsRaw(lib, mat, mom)
  {
  }

  /** For a positron the electron rate is scaled by the annihilation factor. */
  lemma PositronLoss(lib: MathLib, mat: Material, mom: real, raw: real)
    requires Lawful(lib) && mat.z > VacuumZ && mom > 0.0 && raw == BremsRaw(lib, mat, mom)
    ensures BremsLoss(lib, mat, mom, -11) == PositronFactor(lib, mat, mom) * raw
  {
  }

  // ---- Total rate ----------------------------------------------------------

  /** gamma = E / m, gamma^2, beta^2 = 1 - 1 / gamma^2 and p = E beta of a
      particle of total energy E above its mass m. */
  datatype Kinematics = Kinematics(gamma: real, gammaSquare: real, betaSquare: real, mom: PosReal)

  function KinematicsOf(lib: MathLib, energy: real, mass: PosReal): (k: Kinematics)
    requires energy > mass
    ensures k.gamma == energy / mass && k.gammaSquare == k.gamma * k.gamma
    ensures k.gamma > 1.0 && k.gammaSquare > 1.0
    ensures 0.0 < k.betaSquare < 1.0
    ensures k.betaSquare * k.gammaSquare == k.gammaSquare - 1.0
  {
    var gamma := energy / mass;
    var gammaSquare := gamma * gamma;
    var betaSquare := 1.0 - 1.0 / gammaSquare;
    KinematicsFromGamma(gamma);
    Kinematics(gamma, gammaSquare, betaSquare, PosMul(energy, lib.sqrt(betaSquare)))
  }

  /** dEdx: Bethe–Bloch term plus bremsstrahlung term, each when enabled. Fails
      when energy <= mass, and (with Bethe–Bloch on) when beta*gamma < 0.05. */
  function DEdx(lib: MathLib, mat: Material, lossBetheBloch: bool, lossBrems: bool,
                energy: real, mass: PosReal, charge: int, pdg: int): (r: Result<real>)
    requires Lawful(lib) && mat.z > VacuumZ
    ensures r.Ok? <==> energy > mass &&
                       (lossBetheBloch ==> (energy / mass) * (energy / mass) - 1.0 >= BetaGammaMin * BetaGammaMin)
    ensures energy <= mass ==> r == Err(EnergyNotAboveMass)
    ensures r.Ok? ==> r.value >= 0.0
  {
    if energy <= mass then Err(EnergyNotAboveMass)
    else
      var k := KinematicsOf(lib, energy, mass);
      var bb :- if lossBetheBloch then BetheBloch(lib, mat, k.betaSquare, k.gamma, k.gammaSquare, mass, charge) else Ok(0.0);
      var brems := if lossBrems then BremsLoss(lib, mat, k.mom, pdg) else 0.0;
      Ok(bb + brems)
  }

  /** For gamma > 1: beta^2 lies in (0, 1) and beta^2 gamma^2 = gamma^2 - 1. */
  lemma KinematicsFromGamma(gamma: real)
    requires gamma > 1.0
    ensures gamma * gamma > 1.0
    ensures 0.0 < 1.0 - 1.0 / (gamma * gamma) < 1.0
    ensures (1.0 - 1.0 / (gamma * gamma)) * (gamma * gamma) == gamma * gamma - 1.0
  {
    var gs := gamma * gamma;
    assert gs > 1.0 by { assert gamma * gamma > 1.0 * gamma; }
    assert 1.0 / gs < 1.0;
  }

  // ---- Momentum loss over a step ---------------------------------------------

  /** The Runge–Kutta weighted mean (k1 + 2 k2 + 2 k3 + k4) / 6: it lies between
      the smallest and the largest of the four rates. */
  function Rk4Mean(k1: real, k2: real, k3: real, k4: real): (r: real)
    ensures Min(Min(k1, k2), Min(k3, k4)) <= r <= Max(Max(k1, k2), Max(k3, k4))
  {
    (k1 + 2.0 * k2 + 2.0 * k3 + k4) / 6.0
  }

  /** Momentum lost over a signed step when the total energy starts at e0 and
      falls at the given rate: the whole momentum exactly when the particle
      would stop, less than it otherwise. */
  function LossFromEnergy(lib: MathLib, mom: real, e0: real, step: real, rate: real,
                          mass: PosReal): (r: real)
    ensures r == mom <==> e0 - Mul(step, rate) <= mass
    ensures r <= mom
  {
    var dE := Mul(step, rate);
    if e0 - dE <= mass then mom
    else
      var ef := e0 - dE;
      assert ef * ef > mass * mass by { assert ef * ef > ef * mass; }
      mom - lib.sqrt(ef * ef - mass * mass)
  }

  /** What momentumLoss computes: the mean rate dEdx_, the mid-step energy E_,
      and the momentum loss it returns. */
  datatype LossStep = LossStep(dEdx: real, midEnergy: real, loss: real)

  /** E0 = hypot(mom, mass). */
  function InitialEnergy(lib: MathLib, mom: real, mass: PosReal): PosReal {
    lib.sqrt(Sq(mom) + Sq(mass))
  }

  /** The rate dEdx_ that momentumLoss settles on: the rate at E0 when linear,
      otherwise the Runge–Kutta mean of the rates at E0 and at the three
      refined energies E0 - k1 h/2, E0 - k2 h/2, E0 - k3 h. */
  function MeanRate(lib: MathLib, mat: Material, lossBetheBloch: bool, lossBrems: bool,
                    e0: real, step: real, mass: PosReal, charge: int, pdg: int,
                    linear: bool): (r: Result<real>)
    requires Lawful(lib) && mat.z > VacuumZ
    ensures r.Ok? ==> r.value >= 0.0
    ensures r.Ok? ==> DEdx(lib, mat, lossBetheBloch, lossBrems, e0, mass, charge, pdg).Ok?
    ensures linear ==> r == DEdx(lib, mat, lossBetheBloch, lossBrems, e0, mass, charge, pdg)
  {
    if linear then DEdx(lib, mat, lossBetheBloch, lossBrems, e0, mass, charge, pdg)
    else RungeKuttaRate(lib, mat, lossBetheBloch, lossBrems, e0, step, mass, charge, pdg)
  }

  /** The Runge–Kutta mean of the rates at e0 and at the three refined
      energies e0 - k1 h/2, e0 - k2 h/2, e0 - k3 h along the signed step h; the
      first failing evaluation is the result. */
  function RungeKuttaRate(lib: MathLib, mat: Material, lossBetheBloch: bool, lossBrems: bool,
                          e0: real, step: real, mass: PosReal, charge: int, pdg: int): (r: Result<real>)
    requires Lawful(lib) && mat.z > VacuumZ
    ensures r.Ok? ==> r.value >= 0.0
    ensures r.Ok? ==> DEdx(lib, mat, lossBetheBloch, lossBrems, e0, mass, charge, pdg).Ok?
  {
    var k1 :- DEdx(lib, mat, lossBetheBloch, lossBrems, e0, mass, charge, pdg);
    var k2 :- DEdx(lib, mat, lossBetheBloch, lossBrems, e0 - Mul(k1, step) / 2.0, mass, charge, pdg);
    var k3 :- DEdx(lib, mat, lossBetheBloch, lossBrems, e0 - Mul(k2, step) / 2.0, mass, charge, pdg);
    var k4 :- DEdx(lib, mat, lossBetheBloch, lossBrems, e0 - Mul(k3, step), mass, charge, pdg);
    Ok(Rk4Mean(k1, k2, k3, k4))
  }

  /** momentumLoss over a step of length stepSize * stepSign. */
  function LossOverStep(lib: MathLib, particles: ParticleTable, mat: Material,
                        lossBetheBloch: bool, lossBrems: bool, stepSize: real,
                        stepSign: real, mom: real, linear: bool, pdg: int): (r: Result<LossStep>)
    requires Lawful(lib) && mat.z > VacuumZ
    ensures r.Ok? ==> r.value.dEdx >= 0.0 && r.value.loss <= mom
    ensures r.Ok? ==> (r.value.loss == mom <==>
      InitialEnergy(lib, mom, particles.mass(pdg)) - Mul(stepSize * stepSign, r.value.dEdx) <= particles.mass(pdg))
    ensures r.Ok? ==> (r.value.midEnergy ==
      InitialEnergy(lib, mom, particles.mass(pdg)) - Mul(r.value.dEdx, stepSize * stepSign) * 0.5)
    ensures linear ==> (r.Ok? <==> DEdx(lib, mat, lossBetheBloch, lossBrems, InitialEnergy(lib, mom, particles.mass(pdg)),
                                         particles.mass(pdg), particles.charge(pdg), pdg).Ok?)
    ensures linear && r.Ok? ==>
      r.value.dEdx == DEdx(lib, mat, lossBetheBloch, lossBrems, InitialEnergy(lib, mom, particles.mass(pdg)),
                           particles.mass(pdg), particles.charge(pdg), pdg).value
  {
    var mass := particles.mass(pdg);
    var e0 := InitialEnergy(lib, mom, mass);
    var step := stepSize * stepSign;
    var rate :- MeanRate(lib, mat, lossBetheBloch, lossBrems, e0, step, mass, particles.charge(pdg), pdg, linear);
    Ok(LossStep(rate, e0 - Mul(rate, step) * 0.5, LossFromEnergy(lib, mom, e0, step, rate, mass)))
  }
}
