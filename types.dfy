/** Data model of the Raman solver: the solver's input records, the results it
    produces, the library routines it delegates to, and small helpers on
    real-valued vectors and matrices. */
module RamanTypes {

  datatype Option<T> = None | Some(value: T)

  /** The ways a solve or a coefficient set-up can fail. */
  datatype Error =
    | MissingFiberInformation   // `fiber_information` is None when a solve is requested
    | MissingSolverParams       // `solver_params` is None when a solve is requested
    | SpectrumShapeMismatch     // power, frequency and direction vectors of unequal length
    | EmptyTable                // a coefficient table without any sample
    | TableLengthMismatch       // a table's value and frequency columns differ in length
    | OutOfInterpolationRange   // a lookup outside the sampled range of a table
    | InvalidGrid               // the z axis cannot be built from length and resolution
    | SolutionShapeMismatch     // the BVP solution does not have one row per slice
    | ZeroLaunchPower           // a slice launched with zero power cannot be normalised

  datatype Result<T> = Ok(value: T) | Err(error: Error)

  /** Attenuation coefficient (1/m) sampled against frequency (Hz). */
  datatype AttenuationCoefficient = AttenuationCoefficient(alphaPower: seq<real>, frequency: seq<real>)

  /** Raman gain efficiency (1/W/m) sampled against frequency offset (Hz). */
  datatype RamanCoefficient = RamanCoefficient(cr: seq<real>, frequency: seq<real>)

  datatype FiberInformation = FiberInformation(
    length: real,
    attenuationCoefficient: AttenuationCoefficient,
    ramanCoefficient: RamanCoefficient)

  datatype Channel = Channel(channelNumber: int, frequency: real, power: real)
  datatype SpectralInformation = SpectralInformation(carriers: seq<Channel>)

  datatype RamanPump = RamanPump(pumpNumber: int, power: real, frequency: real, propagationDirection: int)
  datatype PumpInformation = PumpInformation(pumps: seq<RamanPump>)

  datatype SolverParams = SolverParams(zResolution: real, tolerance: real, verbose: int)

  /** The (power, frequency, direction) triple that the spectrum builder merges
      from the carriers and the pumps; one entry per frequency slice. */
  datatype PowerSpectrum = PowerSpectrum(power: seq<real>, frequency: seq<real>, direction: seq<int>)

  /** Everything handed to the boundary-value solver: the initial mesh, the
      initial guess, and the data its right-hand side and residual close over. */
  datatype BvpProblem = BvpProblem(
    z: seq<real>,
    guess: seq<seq<real>>,
    power: seq<real>,
    frequency: seq<real>,
    alpha: seq<real>,
    cr: seq<seq<real>>,
    direction: seq<int>,
    tolerance: real,
    verbose: int)

  /** What the boundary-value solver hands back: its final mesh, the power on
      that mesh (one row per slice) and whether it converged. */
  datatype BvpResult = BvpResult(x: seq<real>, y: seq<seq<real>>, success: bool)

  /** The cached Raman profile: mesh, frequency axis, power and the squared
      field gain (the source stores its square root). */
  datatype BvpSolution = BvpSolution(
    z: seq<real>,
    frequency: seq<real>,
    power: seq<seq<real>>,
    rhoSquared: seq<seq<real>>,
    success: bool)

  datatype AseSolution = AseSolution(z: seq<real>, frequency: seq<real>, power: seq<seq<real>>)

  /** The routines the solver calls but that are not part of this model:
      the spectrum builder, the library interpolant `interp1d(xs, ys)(x)`,
      the exponential and the collocation BVP solver. */
  datatype Library = Library(
    powerSpectrum: (Option<SpectralInformation>, Option<PumpInformation>) -> PowerSpectrum,
    interp1d: (seq<real>, seq<real>, real) -> real,
    exp: real -> real,
    solveBvp: BvpProblem -> BvpResult)

  function Abs(x: real): (r: real)
    ensures r >= 0.0 && (r == x || r == -x)
  {
    if x < 0.0 then -x else x
  }

  /** `m` has `rows` rows of `cols` entries each. */
  predicate IsMatrix(m: seq<seq<real>>, rows: nat, cols: nat)
  {
    |m| == rows && forall i :: 0 <= i < rows ==> |m[i]| == cols
  }

  /** The `k`-th column of a matrix: the value of every slice at one z-sample. */
  function Column(m: seq<seq<real>>, k: nat): (c: seq<real>)
    requires forall i :: 0 <= i < |m| ==> k < |m[i]|
    ensures |c| == |m| && forall i :: 0 <= i < |m| ==> c[i] == m[i][k]
  {
    seq(|m|, i requires 0 <= i < |m| => m[i][k])
  }

  predicate AllNonZero(s: seq<real>)
  {
    forall i :: 0 <= i < |s| ==> s[i] != 0.0
  }
}
