/** The Raman solver object: its inputs, the cached Raman profile, and the
    two getters that compute on demand. The specification functions state
    what one solve yields from the current inputs; the class keeps the cache
    and the setters that are meant to invalidate it. */
module Solver {
  import opened RamanTypes
  import opened Coefficients
  import opened Grid
  import opened Boundary

  /** One power, one frequency and one direction per slice. */
  predicate WellShaped(s: PowerSpectrum)
  {
    |s.power| == |s.frequency| == |s.direction|
  }

  /** The spectrum with the coefficients looked up on it. */
  datatype CoefficientSet = CoefficientSet(spectrum: PowerSpectrum, alpha: seq<real>, cr: seq<seq<real>>)

  /** Specification of the set-up both getters share: the fiber and the solver
      parameters must be present, the spectrum well shaped, and both tables
      must be looked up without error. */
  function SetupCoefficients(fiber: Option<FiberInformation>, spectral: Option<SpectralInformation>,
                             pumps: Option<PumpInformation>, params: Option<SolverParams>,
                             lib: Library): (r: Result<CoefficientSet>)
    ensures fiber.None? ==> r == Err(MissingFiberInformation)
    ensures fiber.Some? && params.None? ==> r == Err(MissingSolverParams)
    ensures var s := lib.powerSpectrum(spectral, pumps);
      r.Ok? <==>
        fiber.Some? && params.Some? && WellShaped(s) &&
        AttenuationVector(fiber.value.attenuationCoefficient, s.frequency, lib.interp1d).Ok? &&
        CouplingMatrix(fiber.value.ramanCoefficient, FrequencyDifference(s.frequency), lib.interp1d).Ok?
    ensures r.Ok? ==>
      var s := lib.powerSpectrum(spectral, pumps);
      var n := |s.power|;
      r.value.spectrum == s && WellShaped(s) && |r.value.alpha| == n && IsMatrix(r.value.cr, n, n) &&
      r.value.alpha == AttenuationVector(fiber.value.attenuationCoefficient, s.frequency, lib.interp1d).value &&
      r.value.cr == CouplingMatrix(fiber.value.ramanCoefficient, FrequencyDifference(s.frequency), lib.interp1d).value
  {
    if fiber.None? then Err(MissingFiberInformation)
    else if params.None? then Err(MissingSolverParams)
    else
      var s := lib.powerSpectrum(spectral, pumps);
      if !WellShaped(s) then Err(SpectrumShapeMismatch)
      else
        var alpha := AttenuationVector(fiber.value.attenuationCoefficient, s.frequency, lib.interp1d);
        if alpha.Err? then Err(alpha.error)
        else
          var cr := CouplingMatrix(fiber.value.ramanCoefficient, FrequencyDifference(s.frequency), lib.interp1d);
          if cr.Err? then Err(cr.error)
          else Ok(CoefficientSet(s, alpha.value, cr.value))
  }

  /** The problem on the mesh `z`: the decay guess on it, and the data the
      right-hand side and the residual close over. */
  function ProblemOnMesh(c: CoefficientSet, z: seq<real>, params: SolverParams, lib: Library): (p: BvpProblem)
    requires |c.alpha| == |c.spectrum.power| && WellShaped(c.spectrum)
    ensures p.z == z && p.power == c.spectrum.power && p.frequency == c.spectrum.frequency &&
      p.direction == c.spectrum.direction && p.alpha == c.alpha && p.cr == c.cr &&
      p.tolerance == params.tolerance && p.verbose == params.verbose
    ensures IsMatrix(p.guess, |p.power|, |z|) &&
      p.guess == InitialGuess(z, p.power, p.alpha, p.direction, lib.exp)
  {
    var s := c.spectrum;
    InitialGuessShape(z, s.power, c.alpha, s.direction, lib.exp);
    BvpProblem(z, InitialGuess(z, s.power, c.alpha, s.direction, lib.exp), s.power, s.frequency,
               c.alpha, c.cr, s.direction, params.tolerance, params.verbose)
  }

  /** Specification of the boundary-value problem the source hands to the
      solver. Its mesh is `arange(0, length + 1, z_resolution)`: the multiples
      of the resolution below `length + 1`. A resolution that is not positive,
      or a mesh of fewer than two points, cannot be solved. */
  function SetupProblem(fiber: Option<FiberInformation>, spectral: Option<SpectralInformation>,
                        pumps: Option<PumpInformation>, params: Option<SolverParams>,
                        lib: Library): (r: Result<BvpProblem>)
    ensures var c := SetupCoefficients(fiber, spectral, pumps, params, lib);
      (c.Err? ==> r == Err(c.error)) &&
      (c.Ok? ==> (r.Ok? <==> 0.0 < params.value.zResolution < fiber.value.length + 1.0))
    ensures r.Ok? ==>
      var c := SetupCoefficients(fiber, spectral, pumps, params, lib).value;
      var p := r.value;
      var dz := params.value.zResolution;
      p.power == c.spectrum.power && p.frequency == c.spectrum.frequency &&
      p.direction == c.spectrum.direction && p.alpha == c.alpha && p.cr == c.cr &&
      p.tolerance == params.value.tolerance && p.verbose == params.value.verbose &&
      p.z == ArangeGrid(fiber.value.length, dz) && |p.z| >= 2 &&
      (forall k :: 0 <= k < |p.z| ==> p.z[k] == k as real * dz) &&
      p.z[|p.z| - 1] < fiber.value.length + 1.0 <= p.z[|p.z| - 1] + dz &&
      IsMatrix(p.guess, |p.power|, |p.z|) &&
      p.guess == InitialGuess(p.z, p.power, p.alpha, p.direction, lib.exp)
  {
    var c := SetupCoefficients(fiber, spectral, pumps, params, lib);
    if c.Err? then Err(c.error)
    else if params.value.zResolution <= 0.0 then Err(InvalidGrid)
    else
      var z := ArangeGrid(fiber.value.length, params.value.zResolution);
      ArangeGridSpan(fiber.value.length, params.value.zResolution);
      if |z| < 2 then Err(InvalidGrid)
      else Ok(ProblemOnMesh(c.value, z, params.value, lib))
  }

  /** The problem on the intended mesh, from 0 to exactly the fiber length in
      steps of at most the resolution. */
  function SetupProblemOnFiberGrid(fiber: Option<FiberInformation>, spectral: Option<SpectralInformation>,
                                   pumps: Option<PumpInformation>, params: Option<SolverParams>,
                                   lib: Library): (r: Result<BvpProblem>)
    ensures var c := SetupCoefficients(fiber, spectral, pumps, params, lib);
      (c.Err? ==> r == Err(c.error)) &&
      (c.Ok? ==> (r.Ok? <==> fiber.value.length > 0.0 && params.value.zResolution > 0.0))
    ensures r.Ok? ==>
      var c := SetupCoefficients(fiber, spectral, pumps, params, lib).value;
      var p := r.value;
      p.power == c.spectrum.power && p.frequency == c.spectrum.frequency &&
      p.direction == c.spectrum.direction && p.alpha == c.alpha && p.cr == c.cr &&
      p.tolerance == params.value.tolerance && p.verbose == params.value.verbose &&
      |p.z| >= 2 && p.z[0] == 0.0 && p.z[|p.z| - 1] == fiber.value.length &&
      (forall k :: 0 <= k < |p.z| - 1 ==> p.z[k] < p.z[k + 1] <= p.z[k] + params.value.zResolution) &&
      IsMatrix(p.guess, |p.power|, |p.z|) &&
      p.guess == InitialGuess(p.z, p.power, p.alpha, p.direction, lib.exp)
  {
    var c := SetupCoefficients(fiber, spectral, pumps, params, lib);
    if c.Err? then Err(c.error)
    else if fiber.value.length <= 0.0 || params.value.zResolution <= 0.0 then Err(InvalidGrid)
    else Ok(ProblemOnMesh(c.value, FiberGrid(fiber.value.length, params.value.zResolution), params.value, lib))
  }

  /** Where the fiber length is a whole number of steps of at least 1 m, the
      source's problem is the one on the intended mesh. */
  lemma ProblemsAgreeOnWholeSteps(fiber: Option<FiberInformation>, spectral: Option<SpectralInformation>,
                                  pumps: Option<PumpInformation>, params: Option<SolverParams>,
                                  lib: Library, steps: nat)
    requires fiber.Some? && params.Some? && steps >= 1 && params.value.zResolution >= 1.0
    requires fiber.value.length == steps as real * params.value.zResolution
    ensures SetupProblem(fiber, spectral, pumps, params, lib) ==
            SetupProblemOnFiberGrid(fiber, spectral, pumps, params, lib)
  {
    var length, dz := fiber.value.length, params.value.zResolution;
    GridsAgreeOnWholeSteps(steps, dz);
    ScaleWeak(1.0, steps as real, dz);
    assert length == steps as real * dz;
    assert ArangeGrid(length, dz) == FiberGrid(length, dz);
    ProblemsAgreeOnEqualMeshes(fiber, spectral, pumps, params, lib);
  }

  lemma ProblemsAgreeOnEqualMeshes(fiber: Option<FiberInformation>, spectral: Option<SpectralInformation>,
                                   pumps: Option<PumpInformation>, params: Option<SolverParams>,
                                   lib: Library)
    requires fiber.Some? && params.Some? && fiber.value.length > 0.0 && params.value.zResolution > 0.0
    requires ArangeGrid(fiber.value.length, params.value.zResolution) ==
             FiberGrid(fiber.value.length, params.value.zResolution)
    ensures SetupProblem(fiber, spectral, pumps, params, lib) ==
            SetupProblemOnFiberGrid(fiber, spectral, pumps, params, lib)
  {
  }

  /** Specification of one solve: the problem is handed to the collocation
      solver; its result is kept whether or not it converged, with the power
      normalised slice by slice into the squared gain. */
  function Solve(fiber: Option<FiberInformation>, spectral: Option<SpectralInformation>,
                 pumps: Option<PumpInformation>, params: Option<SolverParams>,
                 lib: Library): (r: Result<BvpSolution>)
    ensures var p := SetupProblem(fiber, spectral, pumps, params, lib);
      (p.Err? ==> r == Err(p.error)) &&
      (p.Ok? ==>
        var out := lib.solveBvp(p.value);
        (r.Ok? <==> |out.y| == |p.value.power| && AllNonZero(p.value.power)) &&
        (r.Ok? ==>
          r.value.z == out.x && r.value.power == out.y && r.value.frequency == p.value.frequency &&
          r.value.success == out.success &&
          |r.value.rhoSquared| == |out.y| &&
          (forall i :: 0 <= i < |out.y| ==> |r.value.rhoSquared[i]| == |out.y[i]|) &&
          (forall i, k :: 0 <= i < |out.y| && 0 <= k < |out.y[i]| ==>
             r.value.rhoSquared[i][k] * p.value.power[i] == out.y[i][k])))
  {
    var p := SetupProblem(fiber, spectral, pumps, params, lib);
    if p.Err? then Err(p.error)
    else
      var out := lib.solveBvp(p.value);
      if |out.y| != |p.value.power| then Err(SolutionShapeMismatch)
      else if !AllNonZero(p.value.power) then Err(ZeroLaunchPower)
      else Ok(BvpSolution(out.x, p.value.frequency, out.y, RhoSquared(out.y, p.value.power), out.success))
  }

  /** With `exp(0) = 1`, the guess handed to the solver already meets the
      boundary conditions: every slice starts at its launch power at its own
      launch end of the fiber. */
  lemma GuessHonoursLaunchPower(fiber: Option<FiberInformation>, spectral: Option<SpectralInformation>,
                                pumps: Option<PumpInformation>, params: Option<SolverParams>,
                                lib: Library)
    requires SetupProblem(fiber, spectral, pumps, params, lib).Ok? && lib.exp(0.0) == 1.0
    ensures var p := SetupProblem(fiber, spectral, pumps, params, lib).value;
      ResidualVanishes(Column(p.guess, 0), Column(p.guess, |p.z| - 1), p.power, p.direction)
  {
    var p := SetupProblem(fiber, spectral, pumps, params, lib).value;
    InitialGuessMeetsBoundary(p.z, p.power, p.alpha, p.direction, lib.exp);
  }

  /** When the solver's power meets the boundary conditions, the squared gain
      of the stored profile is one at every slice's launch end. */
  lemma ConvergedGainIsOneAtLaunch(fiber: Option<FiberInformation>, spectral: Option<SpectralInformation>,
                                   pumps: Option<PumpInformation>, params: Option<SolverParams>,
                                   lib: Library, m: nat)
    requires Solve(fiber, spectral, pumps, params, lib).Ok?
    requires var s := Solve(fiber, spectral, pumps, params, lib).value;
      var p := SetupProblem(fiber, spectral, pumps, params, lib).value;
      m > 0 && IsMatrix(s.power, |p.power|, m) &&
      ResidualVanishes(Column(s.power, 0), Column(s.power, m - 1), p.power, p.direction)
    ensures var s := Solve(fiber, spectral, pumps, params, lib).value;
      var p := SetupProblem(fiber, spectral, pumps, params, lib).value;
      forall i :: 0 <= i < |p.power| ==>
        if p.direction[i] == 1 then s.rhoSquared[i][0] == 1.0 else s.rhoSquared[i][m - 1] == 1.0
  {
    var p := SetupProblem(fiber, spectral, pumps, params, lib).value;
    var s := Solve(fiber, spectral, pumps, params, lib).value;
    assert s.rhoSquared == RhoSquared(s.power, p.power);
    RhoSquaredAtLaunch(s.power, p.power, p.direction, m);
  }

  /** The solver object. `library` stands for the routines it calls and is fixed
      for the object's lifetime. */
  class RamanSolver {
    var fiberInformation: Option<FiberInformation>
    var spectralInformation: Option<SpectralInformation>
    var ramanPumpInformation: Option<PumpInformation>
    var solverParams: Option<SolverParams>
    var ramanBvpSolution: Option<BvpSolution>
    var ramanAseSolution: Option<AseSolution>
    const library: Library

    /** What a solve from the current inputs yields. */
    ghost function Current(): Result<BvpSolution>
      reads this
    {
      Solve(fiberInformation, spectralInformation, ramanPumpInformation, solverParams, library)
    }

    /** The cached profile, when there is one, is the solve of the current
        inputs. */
    ghost predicate Coherent()
      reads this
    {
      ramanBvpSolution.Some? ==> Current() == Ok(ramanBvpSolution.value)
    }

    constructor (fiber: Option<FiberInformation>, lib: Library)
      ensures fiberInformation == fiber && library == lib
      ensures spectralInformation.None? && ramanPumpInformation.None? && solverParams.None?
      ensures ramanBvpSolution.None? && ramanAseSolution.None?
      ensures Coherent()
    {
      fiberInformation := fiber;
      solverParams := None;
      spectralInformation := None;
      ramanPumpInformation := None;
      ramanBvpSolution := None;
      ramanAseSolution := None;
      library := lib;
    }

    method SetFiberInformation(fiber: Option<FiberInformation>)
      modifies this
      ensures fiberInformation == fiber && ramanBvpSolution.None?
      ensures spectralInformation == old(spectralInformation) && ramanPumpInformation == old(ramanPumpInformation)
      ensures solverParams == old(solverParams) && ramanAseSolution == old(ramanAseSolution)
      ensures Coherent()
    {
      fiberInformation := fiber;
      ramanBvpSolution := None;
    }

    method SetSpectralInformation(spectral: Option<SpectralInformation>)
      modifies this
      ensures spectralInformation == spectral && ramanBvpSolution.None?
      ensures fiberInformation == old(fiberInformation) && ramanPumpInformation == old(ramanPumpInformation)
      ensures solverParams == old(solverParams) && ramanAseSolution == old(ramanAseSolution)
      ensures Coherent()
    {
      spectralInformation := spectral;
      ramanBvpSolution := None;
    }

    /** The pump setter as written: the cached profile survives, so it is only
        still the solve of the current inputs when the pumps did not change. */
    method SetRamanPumpInformation(pumps: Option<PumpInformation>)
      modifies this
      ensures ramanPumpInformation == pumps && ramanBvpSolution == old(ramanBvpSolution)
      ensures fiberInformation == old(fiberInformation) && spectralInformation == old(spectralInformation)
      ensures solverParams == old(solverParams) && ramanAseSolution == old(ramanAseSolution)
      ensures old(Coherent()) && pumps == old(ramanPumpInformation) ==> Coherent()
    {
      ramanPumpInformation := pumps;
    }

    /** The pump setter with the invalidation the other setters have. */
    method SetRamanPumpInformationInvalidating(pumps: Option<PumpInformation>)
      modifies this
      ensures ramanPumpInformation == pumps && ramanBvpSolution.None?
      ensures fiberInformation == old(fiberInformation) && spectralInformation == old(spectralInformation)
      ensures solverParams == old(solverParams) && ramanAseSolution == old(ramanAseSolution)
      ensures Coherent()
    {
      ramanPumpInformation := pumps;
      ramanBvpSolution := None;
    }

    method SetSolverParams(params: Option<SolverParams>)
      modifies this
      ensures solverParams == params && ramanBvpSolution.None?
      ensures fiberInformation == old(fiberInformation) && spectralInformation == old(spectralInformation)
      ensures ramanPumpInformation == old(ramanPumpInformation) && ramanAseSolution == old(ramanAseSolution)
      ensures Coherent()
    {
      solverParams := params;
      ramanBvpSolution := None;
    }

    /** The Raman profile: the cached one when there is one, otherwise a new
        solve, cached when it succeeds. With a coherent cache the result is
        always the solve of the current inputs. */
    method RamanBvpSolution() returns (r: Result<BvpSolution>)
      modifies this`ramanBvpSolution
      ensures old(ramanBvpSolution).Some? ==>
        r == Ok(old(ramanBvpSolution).value) && ramanBvpSolution == old(ramanBvpSolution)
      ensures old(ramanBvpSolution).None? ==>
        r == Current() && ramanBvpSolution == (if r.Ok? then Some(r.value) else None)
      ensures old(Coherent()) ==> r == Current() && Coherent()
    {
      if ramanBvpSolution.Some? {
        return Ok(ramanBvpSolution.value);
      }
      if fiberInformation.None? {
        return Err(MissingFiberInformation);
      }
      if solverParams.None? {
        return Err(MissingSolverParams);
      }
      var fiber, params := fiberInformation.value, solverParams.value;
      var spectrum := library.powerSpectrum(spectralInformation, ramanPumpInformation);
      if !WellShaped(spectrum) {
        return Err(SpectrumShapeMismatch);
      }
      var alpha := AttenuationVector(fiber.attenuationCoefficient, spectrum.frequency, library.interp1d);
      if alpha.Err? {
        return Err(alpha.error);
      }
      var freqDiff := FrequencyDifference(spectrum.frequency);
      var cr := CouplingMatrix(fiber.ramanCoefficient, freqDiff, library.interp1d);
      if cr.Err? {
        return Err(cr.error);
      }
      if params.zResolution <= 0.0 {
        return Err(InvalidGrid);
      }
      var z := ArangeGrid(fiber.length, params.zResolution);
      if |z| < 2 {
        return Err(InvalidGrid);
      }
      var guess := InitialGuessRaman(z, spectrum.power, alpha.value, spectrum.direction, library.exp);
      var problem := BvpProblem(z, guess, spectrum.power, spectrum.frequency, alpha.value, cr.value,
                                spectrum.direction, params.tolerance, params.verbose);
      assert SetupProblem(fiberInformation, spectralInformation, ramanPumpInformation, solverParams, library)
        == Ok(problem);
      var out := library.solveBvp(problem);
      if |out.y| != |spectrum.power| {
        return Err(SolutionShapeMismatch);
      }
      if !AllNonZero(spectrum.power) {
        return Err(ZeroLaunchPower);
      }
      var solution := BvpSolution(out.x, spectrum.frequency, out.y, RhoSquared(out.y, spectrum.power), out.success);
      ramanBvpSolution := Some(solution);
      r := Ok(solution);
    }

    /** The amplified-spontaneous-emission getter. It repeats the coefficient
        set-up, obtains the Raman profile through the profile getter, and
        hands back the ASE cache, which nothing ever fills. */
    method RamanAseSolution() returns (r: Result<Option<AseSolution>>)
      modifies this`ramanBvpSolution
      ensures ramanAseSolution == old(ramanAseSolution)
      ensures old(ramanAseSolution).Some? ==>
        r == Ok(old(ramanAseSolution)) && ramanBvpSolution == old(ramanBvpSolution)
      ensures old(ramanAseSolution).None? ==>
        var c := SetupCoefficients(fiberInformation, spectralInformation, ramanPumpInformation,
                                   solverParams, library);
        (c.Err? ==> r == Err(c.error) && ramanBvpSolution == old(ramanBvpSolution)) &&
        (c.Ok? && old(ramanBvpSolution).Some? ==>
           r == Ok(None) && ramanBvpSolution == old(ramanBvpSolution)) &&
        (c.Ok? && old(ramanBvpSolution).None? ==>
           (r.Ok? <==> Current().Ok?) && (r.Ok? ==> r == Ok(None)) &&
           (r.Err? ==> r.error == Current().error) &&
           ramanBvpSolution == (if Current().Ok? then Some(Current().value) else None))
      ensures old(Coherent()) ==> Coherent()
    {
      if ramanAseSolution.Some? {
        return Ok(ramanAseSolution);
      }
      if fiberInformation.None? {
        return Err(MissingFiberInformation);
      }
      if solverParams.None? {
        return Err(MissingSolverParams);
      }
      var fiber := fiberInformation.value;
      var spectrum := library.powerSpectrum(spectralInformation, ramanPumpInformation);
      if !WellShaped(spectrum) {
        return Err(SpectrumShapeMismatch);
      }
      var alpha := AttenuationVector(fiber.attenuationCoefficient, spectrum.frequency, library.interp1d);
      if alpha.Err? {
        return Err(alpha.error);
      }
      var freqDiff := FrequencyDifference(spectrum.frequency);
      var cr := CouplingMatrix(fiber.ramanCoefficient, freqDiff, library.interp1d);
      if cr.Err? {
        return Err(cr.error);
      }
      var profile := RamanBvpSolution();
      if profile.Err? {
        return Err(profile.error);
      }
      r := Ok(ramanAseSolution);
    }
  }

  // ---------------------------------------------------------------------
  // The pump setter as written leaves a stale profile in the cache.

  /** A one-slice spectrum whose launch power is 1 W without pumps and 2 W
      once pump information is set. */
  function ExampleSpectrum(spectral: Option<SpectralInformation>, pumps: Option<PumpInformation>): PowerSpectrum
  {
    if pumps.None? then PowerSpectrum([1.0], [1.0], [1]) else PowerSpectrum([2.0], [1.0], [1])
  }

  /** A solver that returns its initial guess and an exponential that is 1
      everywhere. */
  function ExampleLibrary(): Library
  {
    Library(ExampleSpectrum, (xs: seq<real>, ys: seq<real>, x: real) => 0.0, (x: real) => 1.0,
            (p: BvpProblem) => BvpResult(p.z, p.guess, true))
  }

  /** One carrier; the example spectrum takes its launch power from the pumps
      alone. */
  function ExampleCarriers(): SpectralInformation
  {
    SpectralInformation([Channel(1, 1.0, 1.0)])
  }

  function ExampleFiber(): FiberInformation
  {
    FiberInformation(1.0, AttenuationCoefficient([0.0], []), RamanCoefficient([0.0], []))
  }

  /** The profile of the example fiber for the given pumps. */
  function ExampleProfile(pumps: Option<PumpInformation>): Result<BvpSolution>
  {
    Solve(Some(ExampleFiber()), Some(ExampleCarriers()), pumps, Some(ExampleParams()), ExampleLibrary())
  }

  function ExampleParams(): SolverParams
  {
    SolverParams(1.0, 0.001, 0)
  }

  /** The example profile is 1 W without pumps and 2 W with pump information. */
  lemma ExampleSolve(pumps: Option<PumpInformation>)
    ensures var r := ExampleProfile(pumps);
      r.Ok? && |r.value.power| == 1 && |r.value.power[0]| >= 1 &&
      r.value.power[0][0] == if pumps.None? then 1.0 else 2.0
  {
    var lib := ExampleLibrary();
    var params := Some(ExampleParams());
    var spectral := Some(ExampleCarriers());
    var p := SetupProblem(Some(ExampleFiber()), spectral, pumps, params, lib);
    var s := ExampleSpectrum(spectral, pumps);
    assert SetupCoefficients(Some(ExampleFiber()), spectral, pumps, params, lib).Ok?;
    assert p.Ok?;
    assert p.value.power == s.power;
    assert p.value.guess[0] == DecayRow(p.value.z, 0.0, s.power[0], lib.exp);
    assert p.value.guess[0][0] == Decayed(0.0, p.value.z[0], s.power[0], lib.exp);
    assert lib.solveBvp(p.value).y == p.value.guess;
  }

  /** Two solvers with the same fiber, parameters and pumps: the one that was
      asked for its profile before the pumps were set keeps the old profile,
      the other computes the profile for the pumps. */
  method StalePumpRead() returns (cached: Result<BvpSolution>, recomputed: Result<BvpSolution>)
    ensures cached == ExampleProfile(None) && recomputed == ExampleProfile(Some(PumpInformation([])))
    ensures cached.Ok? && recomputed.Ok? && |cached.value.power| == |recomputed.value.power| == 1
    ensures |cached.value.power[0]| >= 1 && |recomputed.value.power[0]| >= 1
    ensures cached.value.power[0][0] == 1.0 && recomputed.value.power[0][0] == 2.0
  {
    var pumps := Some(PumpInformation([]));
    var early := new RamanSolver(Some(ExampleFiber()), ExampleLibrary());
    early.SetSpectralInformation(Some(ExampleCarriers()));
    early.SetSolverParams(Some(ExampleParams()));
    var first := early.RamanBvpSolution();
    assert first == ExampleProfile(None);
    ExampleSolve(None);
    early.SetRamanPumpInformation(pumps);
    cached := early.RamanBvpSolution();
    var late := new RamanSolver(Some(ExampleFiber()), ExampleLibrary());
    late.SetSpectralInformation(Some(ExampleCarriers()));
    late.SetSolverParams(Some(ExampleParams()));
    late.SetRamanPumpInformation(pumps);
    recomputed := late.RamanBvpSolution();
    assert recomputed == ExampleProfile(pumps);
    ExampleSolve(pumps);
  }

  /** The same sequence with the invalidating pump setter: both solvers agree
      on the profile for the pumps. */
  method FreshPumpRead() returns (cached: Result<BvpSolution>, recomputed: Result<BvpSolution>)
    ensures cached == recomputed == ExampleProfile(Some(PumpInformation([])))
    ensures cached.Ok? && |cached.value.power| == 1 && |cached.value.power[0]| >= 1
    ensures cached.value.power[0][0] == 2.0
  {
    var pumps := Some(PumpInformation([]));
    var early := new RamanSolver(Some(ExampleFiber()), ExampleLibrary());
    early.SetSpectralInformation(Some(ExampleCarriers()));
    early.SetSolverParams(Some(ExampleParams()));
    var first := early.RamanBvpSolution();
    early.SetRamanPumpInformationInvalidating(pumps);
    cached := early.RamanBvpSolution();
    assert cached == ExampleProfile(pumps);
    var late := new RamanSolver(Some(ExampleFiber()), ExampleLibrary());
    late.SetSpectralInformation(Some(ExampleCarriers()));
    late.SetSolverParams(Some(ExampleParams()));
    late.SetRamanPumpInformationInvalidating(pumps);
    recomputed := late.RamanBvpSolution();
    assert recomputed == ExampleProfile(pumps);
    ExampleSolve(pumps);
  }
}
