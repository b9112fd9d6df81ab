/** Fatal conditions of the material-effects code, which the source raises as
    exceptions, and the result types that carry them back to the caller. */
module Outcomes {

  datatype Error =
    | UnknownMscModel(name: string)   // setMscModel: no such scattering model
    | NotInitialized                  // no material interface installed
    | EnergyNotAboveMass              // dEdx: energy <= mass
    | MidEnergyNotAboveMass           // effects: mid-step energy E_ <= mass
    | BetaGammaTooLow                 // dEdxBetheBloch: beta*gamma < 0.05
    | MomentumLossTooLarge            // effects: accumulated loss >= momentum
    | MomentumTooLow                  // stepper: momentum below 4 MeV/c

  /** A value, or the error the source throws instead of returning it. */
  datatype Result<+T> = Ok(value: T) | Err(error: Error) {

    predicate IsFailure() {
      Err?
    }

    function PropagateFailure<U>(): Result<U>
      requires Err?
    {
      Err(error)
    }

    function Extract(): T
      requires Ok?
    {
      value
    }
  }

  datatype Option<+T> = None | Some(value: T)
}
