/** Coefficient set-up of the solver: the attenuation vector, the pairwise
    frequency-difference matrix, and the Raman coupling matrix looked up on
    it. A table with at least two samples goes through the library
    interpolant, which refuses points outside the sampled range; a table
    with a single sample is broadcast as a scalar. */
module Coefficients {
  import opened RamanTypes

  /** The library interpolant's default range check: `v` lies between the
      smallest and the largest sample abscissa. */
  predicate InRange(xs: seq<real>, v: real)
  {
    (exists a | a in xs :: a <= v) && (exists b | b in xs :: v <= b)
  }

  /** `|f_i - f_j|` for every pair of slices. */
  function FrequencyDifference(freq: seq<real>): (d: seq<seq<real>>)
    ensures IsMatrix(d, |freq|, |freq|)
    ensures forall i, j :: 0 <= i < |freq| && 0 <= j < |freq| ==>
      d[i][j] >= 0.0 && (d[i][j] == freq[i] - freq[j] || d[i][j] == freq[j] - freq[i])
    ensures forall i, j :: 0 <= i < |freq| && 0 <= j < |freq| ==> d[i][j] == d[j][i]
    ensures forall i :: 0 <= i < |freq| ==> d[i][i] == 0.0
  {
    seq(|freq|, i requires 0 <= i < |freq| =>
      seq(|freq|, j requires 0 <= j < |freq| => Abs(freq[j] - freq[i])))
  }

  /** The attenuation of every slice. */
  function AttenuationVector(table: AttenuationCoefficient, freq: seq<real>,
                             interp1d: (seq<real>, seq<real>, real) -> real): (r: Result<seq<real>>)
    ensures r.Ok? ==> |r.value| == |freq|
    ensures |table.alphaPower| == 0 ==> r == Err(EmptyTable)
    ensures |table.alphaPower| == 1 ==> r.Ok? && forall i :: 0 <= i < |freq| ==> r.value[i] == table.alphaPower[0]
    ensures |table.alphaPower| >= 2 ==>
      (r.Ok? <==> |table.frequency| == |table.alphaPower| &&
                  forall i :: 0 <= i < |freq| ==> InRange(table.frequency, freq[i]))
    ensures |table.alphaPower| >= 2 && r.Ok? ==>
      forall i :: 0 <= i < |freq| ==> r.value[i] == interp1d(table.frequency, table.alphaPower, freq[i])
  {
    if |table.alphaPower| >= 2 then
      if |table.frequency| != |table.alphaPower| then Err(TableLengthMismatch)
      else if exists i | 0 <= i < |freq| :: !InRange(table.frequency, freq[i]) then Err(OutOfInterpolationRange)
      else Ok(seq(|freq|, i requires 0 <= i < |freq| => interp1d(table.frequency, table.alphaPower, freq[i])))
    else if |table.alphaPower| == 1 then
      Ok(seq(|freq|, _ => table.alphaPower[0]))
    else
      Err(EmptyTable)
  }

  /** Lookup of a coefficient table on every entry of a square matrix. A
      table without samples broadcasts to nothing, which numpy accepts only
      for at most one slice; the single entry it leaves unset is the
      diagonal, which the right-hand side never reads, and is given as 0. */
  function CouplingMatrix(table: RamanCoefficient, diff: seq<seq<real>>,
                          interp1d: (seq<real>, seq<real>, real) -> real): (r: Result<seq<seq<real>>>)
    requires IsMatrix(diff, |diff|, |diff|)
    ensures r.Ok? ==> IsMatrix(r.value, |diff|, |diff|)
    ensures |table.cr| == 0 ==> (r.Ok? <==> |diff| <= 1) && (r.Err? ==> r.error == EmptyTable)
    ensures |table.cr| == 0 && r.Ok? ==>
      forall i, j :: 0 <= i < |diff| && 0 <= j < |diff| ==> r.value[i][j] == 0.0
    ensures |table.cr| == 1 ==>
      r.Ok? && forall i, j :: 0 <= i < |diff| && 0 <= j < |diff| ==> r.value[i][j] == table.cr[0]
    ensures |table.cr| >= 2 ==>
      (r.Ok? <==> |table.frequency| == |table.cr| &&
                  forall i, j :: 0 <= i < |diff| && 0 <= j < |diff| ==> InRange(table.frequency, diff[i][j]))
    ensures |table.cr| >= 2 && r.Ok? ==>
      forall i, j :: 0 <= i < |diff| && 0 <= j < |diff| ==>
        r.value[i][j] == interp1d(table.frequency, table.cr, diff[i][j])
  {
    var n := |diff|;
    if |table.cr| >= 2 then
      if |table.frequency| != |table.cr| then Err(TableLengthMismatch)
      else if exists i, j | 0 <= i < n && 0 <= j < n :: !InRange(table.frequency, diff[i][j]) then
        Err(OutOfInterpolationRange)
      else
        Ok(seq(n, i requires 0 <= i < n =>
          seq(n, j requires 0 <= j < n => interp1d(table.frequency, table.cr, diff[i][j]))))
    else if |table.cr| == 1 then
      Ok(seq(n, _ => seq(n, _ => table.cr[0])))
    else if n <= 1 then
      Ok(seq(n, _ => seq(n, _ => 0.0)))
    else
      Err(EmptyTable)
  }

  /** Looked up on the frequency-difference matrix, the coupling is symmetric
      in the two slices, whichever branch builds it. */
  lemma CouplingSymmetric(table: RamanCoefficient, freq: seq<real>,
                          interp1d: (seq<real>, seq<real>, real) -> real, i: nat, j: nat)
    requires i < |freq| && j < |freq|
    requires CouplingMatrix(table, FrequencyDifference(freq), interp1d).Ok?
    ensures var cr := CouplingMatrix(table, FrequencyDifference(freq), interp1d).value;
      cr[i][j] == cr[j][i]
  {
  }

  /** A table looked up on the difference matrix must cover the zero offset on
      its diagonal, although the right-hand side never uses the diagonal. */
  lemma CouplingNeedsZeroOffset(table: RamanCoefficient, freq: seq<real>,
                                interp1d: (seq<real>, seq<real>, real) -> real)
    requires |freq| > 0 && |table.cr| >= 2
    requires !InRange(table.frequency, 0.0)
    ensures CouplingMatrix(table, FrequencyDifference(freq), interp1d).Err?
  {
    var d := FrequencyDifference(freq);
    assert d[0][0] == 0.0;
  }

  /** A single-sample table gives the same result whatever the slices and the
      interpolant are: the scalar is simply broadcast. */
  lemma ScalarAttenuationIgnoresFrequencies(table: AttenuationCoefficient, f1: seq<real>, f2: seq<real>,
                                            i1: (seq<real>, seq<real>, real) -> real,
                                            i2: (seq<real>, seq<real>, real) -> real)
    requires |table.alphaPower| == 1 && |f1| == |f2|
    ensures AttenuationVector(table, f1, i1) == AttenuationVector(table, f2, i2)
  {
  }

  lemma ScalarCouplingIgnoresOffsets(table: RamanCoefficient, d1: seq<seq<real>>, d2: seq<seq<real>>,
                                     i1: (seq<real>, seq<real>, real) -> real,
                                     i2: (seq<real>, seq<real>, real) -> real)
    requires IsMatrix(d1, |d1|, |d1|) && IsMatrix(d2, |d2|, |d2|)
    requires |table.cr| == 1 && |d1| == |d2|
    ensures CouplingMatrix(table, d1, i1) == CouplingMatrix(table, d2, i2)
  {
  }
}
