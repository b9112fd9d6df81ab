/** The increments that the noise routines add to the flat 7x7 (row-major)
    process-noise buffer: energy-loss straggling and bremsstrahlung on the
    (q/p, q/p) entry, multiple Coulomb scattering on the position/direction
    block (MaterialEffects::noiseBetheBloch, noiseCoulomb, noiseBrems). */
module Noise {
  import opened Libm
  import opened Materials
  import EnergyLoss

  /** Number of entries of a 7x7 matrix stored row-major. */
  const NoiseSize: nat := 49
  /** 6 * 7 + 6: the (q/p, q/p) entry. */
  const QopIndex: nat := 48

  type Noise7 = s: seq<real> | |s| == NoiseSize witness seq(NoiseSize, k => 0.0)

  /** Entry (r, c) of a row-major 7x7 matrix. */
  function Entry7(m: Noise7, r: int, c: int): real
    requires 0 <= r < 7 && 0 <= c < 7
  {
    m[r * 7 + c]
  }

  predicate Symmetric7(m: Noise7) {
    forall r, c :: 0 <= r < 7 && 0 <= c < 7 ==> Entry7(m, r, c) == Entry7(m, c, r)
  }

  /** Entry-by-entry sum of two 7x7 buffers. */
  function AddEntrywise(m: Noise7, inc: Noise7): (r: Noise7)
    ensures forall k :: 0 <= k < NoiseSize ==> r[k] == m[k] + inc[k]
  {
    seq(NoiseSize, k requires 0 <= k < NoiseSize => m[k] + inc[k])
  }

  /** The buffer with only the (q/p, q/p) entry raised by inc. */
  function AddToQop(m: Noise7, inc: real): (r: Noise7)
    ensures r[QopIndex] == m[QopIndex] + inc
    ensures forall k :: 0 <= k < NoiseSize && k != QopIndex ==> r[k] == m[k]
  {
    m[QopIndex := m[QopIndex] + inc]
  }

  // ---- Energy-loss straggling (GEANT3 erland) --------------------------------

  /** Emax [eV]: the largest energy transfer to an atomic electron. */
  function MaxTransfer(mass: PosReal, betaSquare: real, gamma: real, gammaSquare: real): real {
    var me := EnergyLoss.ElectronMass;
    Quot(2.0e9 * me * betaSquare * gammaSquare,
         1.0 + 2.0 * gamma * me / mass + (me / mass) * (me / mass))
  }

  /** sigmaalpha of the truncated Landau regime: the empirical polynomial in
      lambda max (or its linear continuation above 1010), clamped at 54.6. */
  function SigmaAlpha(rlamax: real): (r: real)
    ensures r <= 54.6
    ensures rlamax > 1010.0 && 18.71887 + 0.01296254 * rlamax <= 54.6 ==>
              r == 18.71887 + 0.01296254 * rlamax
  {
    var s := if rlamax <= 1010.0 then
      1.975560 + 0.09898841 * rlamax - 0.0002828670 * rlamax * rlamax
      + 5.345406e-7 * Power(rlamax, 3) - 4.942035e-10 * Power(rlamax, 4)
      + 1.729807e-13 * Power(rlamax, 5)
    else 18.71887 + 0.01296254 * rlamax;
    if s > 54.6 then 54.6 else s
  }

  /** sigma^2(E) [GeV^2] of the energy lost over a step of length |stepSize|:
      Vavilov–Gaussian for kappa > 0.01, otherwise Urban's model with the
      number of collisions Nc deciding between a truncated Landau width
      (Nc > 50) and the Urban sum. dEdx is the mean rate of the step. */
  function EnergyVariance(lib: MathLib, mat: Material, stepSize: real, dEdx: real,
                          charge: int, mass: PosReal, betaSquare: real, gamma: real,
                          gammaSquare: real): (r: real)
    requires mat.z > VacuumZ
    ensures stepSize == 0.0 ==> r == 0.0
  {
    var step := Abs(stepSize);
    var q := charge as real;
    var zeta := Quot(153.4e3 * q * q, betaSquare) * mat.z / mat.a * mat.density * step;
    var emax := MaxTransfer(mass, betaSquare, gamma, gammaSquare);
    var kappa := Quot(zeta, emax);
    var sigma2E :=
      if kappa > 0.01 then
        zeta * emax * (1.0 - betaSquare / 2.0)
      else
        var i: PosReal := 16.0 * lib.pow(mat.z, 0.9);
        var f2 := if mat.z > 2.0 then 2.0 / mat.z else 0.0;
        var f1 := 1.0 - f2;
        var e2: PosReal := PosMul(10.0 * mat.z, mat.z);
        var e1 := lib.pow(PosDiv(i, lib.pow(e2, f2)), Quot(1.0, f1));
        var mbbgg2 := 2.0e9 * mass * betaSquare * gammaSquare;
        var sigma1 := Quot(dEdx * 1.0e9 * f1 / e1 * (lib.log(mbbgg2 / e1) - betaSquare),
                           lib.log(mbbgg2 / i) - betaSquare) * 0.6;
        var sigma2 := Quot(dEdx * 1.0e9 * f2 / e2 * (lib.log(mbbgg2 / e2) - betaSquare),
                           lib.log(mbbgg2 / i) - betaSquare) * 0.6;
        var sigma3 := Quot(dEdx * 1.0e9 * emax,
                           i * (emax + i) * lib.log((emax + i) / i)) * 0.4;
        var nc := (sigma1 + sigma2 + sigma3) * step;
        if nc > 50.0 then
          var rlamed := -0.422784 - betaSquare - lib.log(Quot(zeta, emax));
          var rlamax := 0.60715 + 1.1934 * rlamed
                        + (0.67794 + 0.052382 * rlamed) * lib.exp(0.94753 + 0.74442 * rlamed);
          var sa := SigmaAlpha(rlamax);
          sa * sa * zeta * zeta
        else
          var alpha := 0.996;
          var ealpha := Quot(i, 1.0 - Quot(alpha * emax, emax + i));
          var meanE32 := Quot(i * (emax + i), emax) * (ealpha - i);
          step * (sigma1 * e1 * e1 + sigma2 * e2 * e2 + sigma3 * meanE32);
    sigma2E * 1.0e-18
  }

  /** What noiseBetheBloch adds to the (q/p, q/p) entry: sigma^2(E) carried
      over to q/p by linear error propagation. */
  function StragglingIncrement(lib: MathLib, mat: Material, stepSize: real, dEdx: real,
                               charge: int, mass: PosReal, mom: real, betaSquare: real,
                               gamma: real, gammaSquare: real): (r: real)
    requires mat.z > VacuumZ
    ensures stepSize == 0.0 ==> r == 0.0
  {
    var q := charge as real;
    Quot(Quot(q * q, betaSquare), Power(mom, 4))
      * EnergyVariance(lib, mat, stepSize, dEdx, charge, mass, betaSquare, gamma, gammaSquare)
  }

  // ---- Multiple Coulomb scattering -----------------------------------------

  /** sigma^2 of the scattering angle: model 0 is GEANE (linear in the step
      length), model 1 Highland; any other code contributes nothing. The
      result is clamped at zero. */
  function MscVariance(lib: MathLib, mscModelCode: int, mat: Material, stepSize: real,
                       charge: int, betaSquare: real, momSquare: real): (r: real)
    requires mat.z > VacuumZ
    ensures r >= 0.0
    ensures mscModelCode != 0 && mscModelCode != 1 ==> r == 0.0
  {
    var step := Abs(stepSize);
    var q := charge as real;
    var sigma2 :=
      if mscModelCode == 0 then
        Quot(225.0e-6 * q * q, betaSquare * momSquare) * step / mat.radiationLength
          * mat.z / (mat.z + 1.0)
          * Quot(lib.log(159.0 * lib.pow(mat.z, -1.0 / 3.0)), lib.log(287.0 * lib.pow(mat.z, -0.5)))
      else if mscModelCode == 1 then
        var stepOverRadLength := step / mat.radiationLength;
        var logCor := 1.0 + 0.038 * lib.log(stepOverRadLength);
        Quot(0.0136 * 0.0136 * q * q, betaSquare * momSquare) * stepOverRadLength * logCor * logCor
      else 0.0;
    if sigma2 > 0.0 then sigma2 else 0.0
  }

  /** The coordinate axis (x, y or z) of position or direction coordinate r. */
  function Axis(r: int): (i: int)
    requires 0 <= r < 6
    ensures 0 <= i < 3
  {
    if r < 3 then r else r - 3
  }

  /** How a covariance entry scales with the step: step^2 / 3 between positions,
      step / 2 between a position and a direction, 1 between directions. */
  function BlockScale(sigma2: real, step: real, r: int, c: int): real
    requires 0 <= r < 6 && 0 <= c < 6
  {
    if r < 3 && c < 3 then sigma2 * (step * step) / 3.0
    else if r >= 3 && c >= 3 then sigma2
    else sigma2 * step * 0.5
  }

  /** The multiple-scattering covariance of the 7D state (section 27.3 of the
      2010 Review of Particle Physics): for coordinates with axes i and j it is
      the block scale times (delta_ij - a_i a_j); q/p is not affected. */
  function ScatteringCovariance(sigma2: real, step: real, a: Vec3, r: int, c: int): real
    requires 0 <= r < 7 && 0 <= c < 7
  {
    if r == 6 || c == 6 then 0.0
    else
      var i := Axis(r);
      var j := Axis(c);
      BlockScale(sigma2, step, r, c) * ((if i == j then 1.0 else 0.0) - a[i] * a[j])
  }

  /** A diagonal entry of a spread block, scale (1 - a_i^2). */
  function Diagonal(scale: real, ai: real): real {
    scale * (1.0 - ai * ai)
  }

  /** An off-diagonal entry of a spread block, -scale a_i a_j. */
  function OffDiagonal(scale: real, ai: real, aj: real): real {
    -scale * ai * aj
  }

  /** The four entries that take their value from entry (5, 0): (5, 0) itself,
      which is written with a_x a_y where the covariance of x and a_z has a_x a_z,
      and (3, 2), (0, 5) and (2, 3), which copy it. */
  predicate FromEntry50(r: int, c: int) {
    (r == 5 && c == 0) || (r == 0 && c == 5) || (r == 3 && c == 2) || (r == 2 && c == 3)
  }

  /** Entry (r, c) of the scattering increment for angular variance sigma2 over a
      step of length step in direction a, as noiseCoulomb writes it out. It is the
      scattering covariance except in the four entries taken from (5, 0), and row
      and column 6 (q/p) stay zero. */
  function CoulombEntry(sigma2: real, step: real, a: Vec3, r: int, c: int): (e: real)
    requires 0 <= r < 7 && 0 <= c < 7
    ensures r == 6 || c == 6 ==> e == 0.0
    ensures sigma2 == 0.0 ==> e == 0.0
  {
    if r == 6 || c == 6 then 0.0
    else if FromEntry50(r, c) then OffDiagonal(sigma2 * step * 0.5, a[0], a[1])
    else
      var i := Axis(r);
      var j := Axis(c);
      if i == j then Diagonal(BlockScale(sigma2, step, r, c), a[i])
      else if i < j then OffDiagonal(BlockScale(sigma2, step, r, c), a[i], a[j])
      else OffDiagonal(BlockScale(sigma2, step, r, c), a[j], a[i])
  }

  /** Outside the four entries taken from (5, 0), the increment is the
      scattering covariance. */
  lemma CoulombEntryIsCovariance(sigma2: real, step: real, a: Vec3, r: int, c: int)
    requires 0 <= r < 7 && 0 <= c < 7
    ensures !FromEntry50(r, c) ==> CoulombEntry(sigma2, step, a, r, c) == ScatteringCovariance(sigma2, step, a, r, c)
  {
    if r < 6 && c < 6 && !FromEntry50(r, c) {
      var i, j := Axis(r), Axis(c);
      var scale := BlockScale(sigma2, step, r, c);
      SpreadEntries(scale, a[i], a[j]);
      SpreadEntries(scale, a[j], a[i]);
    }
  }

  /** The four entries taken from (5, 0) hold the covariance of x and a_y. */
  lemma CoulombEntryFrom50(sigma2: real, step: real, a: Vec3, r: int, c: int)
    requires 0 <= r < 7 && 0 <= c < 7
    ensures FromEntry50(r, c) ==> CoulombEntry(sigma2, step, a, r, c) == ScatteringCovariance(sigma2, step, a, 4, 0)
  {
    if FromEntry50(r, c) {
      SpreadEntries(sigma2 * step * 0.5, a[0], a[1]);
    }
  }

  /** The spread entries in the covariance's form scale (delta - x y). */
  lemma SpreadEntries(scale: real, x: real, y: real)
    ensures Diagonal(scale, x) == scale * (1.0 - x * x)
    ensures OffDiagonal(scale, x, y) == scale * (0.0 - x * y)
    ensures OffDiagonal(scale, x, y) == scale * (0.0 - y * x)
  {
  }

  /** For a direction in the x-z plane, entry (5, 0) is zero but the covariance
      of x and a_z is not. */
  lemma CoulombEntryDiffersFromCovariance()
    ensures CoulombEntry(1.0, 2.0, [0.6, 0.0, 0.8], 5, 0) == 0.0
    ensures ScatteringCovariance(1.0, 2.0, [0.6, 0.0, 0.8], 5, 0) == -0.48
  {
  }

  lemma CoulombEntrySymmetric(sigma2: real, step: real, a: Vec3, r: int, c: int)
    requires 0 <= r < 7 && 0 <= c < 7
    ensures CoulombEntry(sigma2, step, a, r, c) == CoulombEntry(sigma2, step, a, c, r)
  {
  }

  /** The scratch block noiseCoulomb builds: symmetric, with row and column 6
      all zero. */
  function CoulombBlock(sigma2: real, step: real, a: Vec3): (m: Noise7)
    ensures forall r, c :: 0 <= r < 7 && 0 <= c < 7 ==>
              Entry7(m, r, c) == CoulombEntry(sigma2, step, a, r, c)
    ensures Symmetric7(m)
    ensures forall k :: 0 <= k < 7 ==> Entry7(m, 6, k) == 0.0 && Entry7(m, k, 6) == 0.0
  {
    var m: Noise7 := seq(NoiseSize, k requires 0 <= k < NoiseSize => CoulombEntry(sigma2, step, a, k / 7, k % 7));
    assert forall r, c :: 0 <= r < 7 && 0 <= c < 7 ==> Entry7(m, r, c) == CoulombEntry(sigma2, step, a, r, c) by {
      forall r, c | 0 <= r < 7 && 0 <= c < 7
        ensures Entry7(m, r, c) == CoulombEntry(sigma2, step, a, r, c)
      {
        assert (r * 7 + c) / 7 == r && (r * 7 + c) % 7 == c;
      }
    }
    forall r, c | 0 <= r < 7 && 0 <= c < 7
      ensures Entry7(m, r, c) == Entry7(m, c, r)
    {
      CoulombEntrySymmetric(sigma2, step, a, r, c);
    }
    m
  }

  // ---- Bremsstrahlung -------------------------------------------------------

  /** sigma^2(E) of the energy radiated over a step (Bethe–Heitler with the
      empirical factor 1.44, E taken as p); clamped at zero. */
  function BremsVariance(lib: MathLib, mat: Material, stepSize: real, momSquare: real): (r: real)
    requires mat.z > VacuumZ
    ensures r >= 0.0
  {
    var minusXOverLn2 := -1.442695 * Abs(stepSize) / mat.radiationLength;
    var s := 1.44 * (lib.pow(3.0, minusXOverLn2) - lib.pow(4.0, minusXOverLn2)) * momSquare;
    if s < 0.0 then 0.0 else s
  }

  /** What noiseBrems adds to the (q/p, q/p) entry for an electron or positron. */
  function BremsIncrement(lib: MathLib, mat: Material, stepSize: real, charge: int,
                          momSquare: real, betaSquare: real): (r: real)
    requires mat.z > VacuumZ
    ensures betaSquare > 0.0 ==> r >= 0.0
  {
    var q := charge as real;
    var w := Quot(Quot(q * q, betaSquare), Power(momSquare, 2));
    var v := BremsVariance(lib, mat, stepSize, momSquare);
    if betaSquare > 0.0 then
      assert q * q == Sq(q);
      QuotientNonNegative(q * q, betaSquare);
      assert Power(momSquare, 1) == momSquare;
      assert Power(momSquare, 2) == Sq(momSquare);
      assert w >= 0.0 by {
        if Power(momSquare, 2) != 0.0 {
          QuotientNonNegative(Quot(q * q, betaSquare), Power(momSquare, 2));
        }
      }
      ProductNonNegative(w, v);
      w * v
    else w * v
  }
}
