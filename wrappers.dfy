/** Failure-compatible wrappers used for the error paths of the model. */
module Wrappers {

  datatype Option<+T> = None | Some(value: T)

  datatype Result<+R, +E> = Success(value: R) | Failure(error: E)

  /** An operation that either completes or raises, without a value. */
  datatype Outcome<+E> = Pass | Fail(error: E)
}

/** The exceptions the modelled code raises (or lets escape from the
    Python runtime), named after their Python classes. */
module Exceptions {

  datatype Error =
    | DimensionError      // unit string of a dimensionality other than molar, mass or volumetric flow
    | ValueError          // unknown property name, empty variable inlets, unknown balance kind
    | TypeError           // subscripting the integer 0 that a sum of no arrays gives
    | AttributeError      // attribute that is not set (phases of an uncast stream, `index` before initialisation)
    | AssertionError      // no equilibrium chemical present
    | IndexError          // stage list or right-hand side of length zero
    | UndefinedChemical   // chemical (ID or CAS number) missing from the chemical set
    | InfeasibleRegion    // not enough water in the permeate
    | RuntimeError        // negative extract flow rate
    | LinAlgError         // linear system that is not square or is singular
}
