/** The right-hand side of the Raman ODE system. For slice `i` at z-sample `k`:
      dP_i/dz = dir_i * (-alpha_i + gain_i - loss_i) * P_i
    where the gain sums `cr[i][j] * P_j` over the slices `j > i` and the loss
    sums `(f_i / f_j) * cr[i][j] * P_j` over the slices `j < i`. */
module RamanOde {
  import opened RamanTypes

  /** Sum of a sequence, accumulated from the front to the back. */
  function Sum(s: seq<real>): real
  {
    if |s| == 0 then 0.0 else Sum(s[..|s| - 1]) + s[|s| - 1]
  }

  /** Element-wise product. */
  function Products(a: seq<real>, b: seq<real>): (r: seq<real>)
    requires |a| == |b|
    ensures |r| == |a| && forall j :: 0 <= j < |a| ==> r[j] == a[j] * b[j]
  {
    seq(|a|, j requires 0 <= j < |a| => a[j] * b[j])
  }

  function Negated(s: seq<real>): (r: seq<real>)
    ensures |r| == |s| && forall j :: 0 <= j < |s| ==> r[j] == -s[j]
  {
    seq(|s|, j requires 0 <= j < |s| => -s[j])
  }

  /** The number of z-samples of a power matrix. */
  function Width(power: seq<seq<real>>): nat
  {
    if |power| == 0 then 0 else |power[0]|
  }

  /** The shapes the right-hand side is called with: one entry per slice in
      every vector, a square coupling matrix, a rectangular power matrix, and
      non-zero frequencies (they divide in the loss weights). */
  predicate OdeShape(power: seq<seq<real>>, alpha: seq<real>, freq: seq<real>,
                     cr: seq<seq<real>>, dir: seq<int>)
  {
    var n := |power|;
    |alpha| == n && |freq| == n && |dir| == n &&
    IsMatrix(cr, n, n) && IsMatrix(power, n, Width(power)) && AllNonZero(freq)
  }

  /** `f_i / f_j` for every slice `j` below `i`: the weight that turns the
      power slice `j` takes from slice `i` into the power slice `i` loses.
      Each weight scales `f_j` up to `f_i`, and a lower positive frequency
      gives a weight above one: slice `i` loses more power than `j` gains. */
  function VibrationalLoss(freq: seq<real>, i: nat): (w: seq<real>)
    requires i < |freq| && AllNonZero(freq)
    ensures |w| == i
    ensures forall j :: 0 <= j < i ==> w[j] * freq[j] == freq[i]
    ensures forall j :: 0 <= j < i && 0.0 < freq[j] < freq[i] ==> w[j] > 1.0
  {
    seq(i, j requires 0 <= j < i => freq[i] / freq[j])
  }

  function RamanGain(power: seq<seq<real>>, cr: seq<seq<real>>, i: nat, k: nat): real
    requires i < |power| && IsMatrix(cr, |power|, |power|) && IsMatrix(power, |power|, Width(power))
    requires k < Width(power)
  {
    var col := Column(power, k);
    Sum(Products(cr[i][i + 1..], col[i + 1..]))
  }

  function RamanLoss(power: seq<seq<real>>, freq: seq<real>, cr: seq<seq<real>>, i: nat, k: nat): real
    requires i < |power| && |freq| == |power| && AllNonZero(freq)
    requires IsMatrix(cr, |power|, |power|) && IsMatrix(power, |power|, Width(power))
    requires k < Width(power)
  {
    var col := Column(power, k);
    Sum(Products(Products(VibrationalLoss(freq, i), cr[i][..i]), col[..i]))
  }

  /** The rate equation of one slice at one sample: its direction times its
      net gain (Raman gain less attenuation and Raman loss) times its power. */
  function RateEquation(direction: int, alpha: real, gain: real, loss: real, p: real): real
  {
    (direction as real) * (-alpha + gain - loss) * p
  }

  /** Specification of one entry of the right-hand side. */
  function Derivative(power: seq<seq<real>>, alpha: seq<real>, freq: seq<real>,
                      cr: seq<seq<real>>, dir: seq<int>, i: nat, k: nat): real
    requires OdeShape(power, alpha, freq, cr, dir) && i < |power| && k < Width(power)
  {
    RateEquation(dir[i], alpha[i], RamanGain(power, cr, i, k), RamanLoss(power, freq, cr, i, k), power[i][k])
  }

  /** The whole right-hand side as a matrix of the shape of `power`. */
  function RamanDerivative(power: seq<seq<real>>, alpha: seq<real>, freq: seq<real>,
                           cr: seq<seq<real>>, dir: seq<int>): (d: seq<seq<real>>)
    requires OdeShape(power, alpha, freq, cr, dir)
    ensures IsMatrix(d, |power|, Width(power))
    ensures forall i, k :: 0 <= i < |power| && 0 <= k < Width(power) ==>
      d[i][k] == Derivative(power, alpha, freq, cr, dir, i, k)
  {
    seq(|power|, i requires 0 <= i < |power| =>
      seq(Width(power), k requires 0 <= k < Width(power) => Derivative(power, alpha, freq, cr, dir, i, k)))
  }

  /** The right-hand side as the source evaluates it: a matrix filled entry by
      entry, slice by slice and, within a slice, z-sample by z-sample. */
  method OdeRaman(power: seq<seq<real>>, alpha: seq<real>, freq: seq<real>,
                  cr: seq<seq<real>>, dir: seq<int>) returns (dpdz: seq<seq<real>>)
    requires OdeShape(power, alpha, freq, cr, dir)
    ensures IsMatrix(dpdz, |power|, Width(power))
    ensures forall i, k :: 0 <= i < |power| && 0 <= k < Width(power) ==>
      dpdz[i][k] == Derivative(power, alpha, freq, cr, dir, i, k)
  {
    var n, m := |power|, Width(power);
    var d := new real[n, m];
    for fInd := 0 to n
      invariant forall i, k :: 0 <= i < fInd && 0 <= k < m ==>
        d[i, k] == Derivative(power, alpha, freq, cr, dir, i, k)
    {
      var crRow := cr[fInd];
      var vibrationalLoss := VibrationalLoss(freq, fInd);
      for zInd := 0 to m
        invariant forall i, k :: 0 <= i < fInd && 0 <= k < m ==>
          d[i, k] == Derivative(power, alpha, freq, cr, dir, i, k)
        invariant forall k :: 0 <= k < zInd ==>
          d[fInd, k] == Derivative(power, alpha, freq, cr, dir, fInd, k)
      {
        var col := Column(power, zInd);
        var ramanGain := Sum(Products(crRow[fInd + 1..], col[fInd + 1..]));
        var ramanLoss := Sum(Products(Products(vibrationalLoss, crRow[..fInd]), col[..fInd]));
        assert ramanGain == RamanGain(power, cr, fInd, zInd);
        assert ramanLoss == RamanLoss(power, freq, cr, fInd, zInd);
        d[fInd, zInd] := RateEquation(dir[fInd], alpha[fInd], ramanGain, ramanLoss, power[fInd][zInd]);
      }
    }
    dpdz := seq(n, i requires 0 <= i < n reads d =>
      seq(m, k requires 0 <= k < m reads d => d[i, k]));
  }

  // ---------------------------------------------------------------------
  // Facts about sums

  lemma {:induction false} SumConcat(a: seq<real>, b: seq<real>)
    ensures Sum(a + b) == Sum(a) + Sum(b)
  {
    if |b| > 0 {
      assert (a + b)[..|a + b| - 1] == a + b[..|b| - 1];
      SumConcat(a, b[..|b| - 1]);
    } else {
      assert a + b == a;
    }
  }

  lemma {:induction false} SumNegated(s: seq<real>)
    ensures Sum(Negated(s)) == -Sum(s)
  {
    if |s| > 0 {
      assert Negated(s)[..|s| - 1] == Negated(s[..|s| - 1]);
      SumNegated(s[..|s| - 1]);
    }
  }

  lemma {:induction false} SumOfZeros(s: seq<real>)
    requires forall j :: 0 <= j < |s| ==> s[j] == 0.0
    ensures Sum(s) == 0.0
  {
    if |s| > 0 {
      SumOfZeros(s[..|s| - 1]);
    }
  }

  /** Scaling every term scales the sum. */
  lemma {:induction false} SumScaled(s: seq<real>, t: seq<real>, c: real)
    requires |t| == |s| && forall j :: 0 <= j < |s| ==> t[j] == s[j] * c
    ensures Sum(t) == Sum(s) * c
  {
    if |s| > 0 {
      SumScaled(s[..|s| - 1], t[..|t| - 1], c);
    }
  }

  /** The sum of term-wise sums. */
  lemma {:induction false} SumAdded(a: seq<real>, b: seq<real>, t: seq<real>)
    requires |a| == |b| == |t| && forall j :: 0 <= j < |t| ==> t[j] == a[j] + b[j]
    ensures Sum(t) == Sum(a) + Sum(b)
  {
    if |t| > 0 {
      SumAdded(a[..|a| - 1], b[..|b| - 1], t[..|t| - 1]);
    }
  }

  // ---------------------------------------------------------------------
  // Properties of the right-hand side

  /** A slice without power at a sample does not change there. */
  lemma DerivativeAtZeroPower(power: seq<seq<real>>, alpha: seq<real>, freq: seq<real>,
                              cr: seq<seq<real>>, dir: seq<int>, i: nat, k: nat)
    requires OdeShape(power, alpha, freq, cr, dir) && i < |power| && k < Width(power)
    requires power[i][k] == 0.0
    ensures Derivative(power, alpha, freq, cr, dir, i, k) == 0.0
  {
  }

  /** Negating the direction of slice `i` negates row `i` of the right-hand
      side and leaves every other row as it was. */
  lemma FlipDirection(power: seq<seq<real>>, alpha: seq<real>, freq: seq<real>,
                      cr: seq<seq<real>>, dir: seq<int>, i: nat)
    requires OdeShape(power, alpha, freq, cr, dir) && i < |power|
    ensures var flipped := dir[i := -dir[i]];
      var d := RamanDerivative(power, alpha, freq, cr, dir);
      var e := RamanDerivative(power, alpha, freq, cr, flipped);
      (forall k :: 0 <= k < Width(power) ==> e[i][k] == -d[i][k]) &&
      (forall j :: 0 <= j < |power| && j != i ==> e[j] == d[j])
  {
    var flipped := dir[i := -dir[i]];
    var d := RamanDerivative(power, alpha, freq, cr, dir);
    var e := RamanDerivative(power, alpha, freq, cr, flipped);
    forall k | 0 <= k < Width(power) ensures e[i][k] == -d[i][k] {
      RateEquationOdd(dir[i], alpha[i], RamanGain(power, cr, i, k), RamanLoss(power, freq, cr, i, k), power[i][k]);
    }
    forall j | 0 <= j < |power| && j != i ensures e[j] == d[j] {
      assert flipped[j] == dir[j];
      assert |e[j]| == |d[j]|;
      forall k | 0 <= k < Width(power) ensures e[j][k] == d[j][k] { }
    }
  }

  /** The rate equation is odd in the direction. */
  lemma RateEquationOdd(direction: int, alpha: real, gain: real, loss: real, p: real)
    ensures RateEquation(-direction, alpha, gain, loss, p) == -RateEquation(direction, alpha, gain, loss, p)
  {
  }

  /** The diagonal of the coupling matrix never enters the right-hand side. */
  lemma DiagonalIgnored(power: seq<seq<real>>, alpha: seq<real>, freq: seq<real>,
                        cr: seq<seq<real>>, cr': seq<seq<real>>, dir: seq<int>)
    requires OdeShape(power, alpha, freq, cr, dir) && OdeShape(power, alpha, freq, cr', dir)
    requires forall i, j :: 0 <= i < |power| && 0 <= j < |power| && i != j ==> cr'[i][j] == cr[i][j]
    ensures RamanDerivative(power, alpha, freq, cr', dir) == RamanDerivative(power, alpha, freq, cr, dir)
  {
    var d := RamanDerivative(power, alpha, freq, cr, dir);
    var e := RamanDerivative(power, alpha, freq, cr', dir);
    forall i, k | 0 <= i < |power| && 0 <= k < Width(power) ensures e[i][k] == d[i][k] {
      assert cr'[i][i + 1..] == cr[i][i + 1..];
      assert cr'[i][..i] == cr[i][..i];
    }
    forall i | 0 <= i < |power| ensures e[i] == d[i] {
      assert |e[i]| == |d[i]|;
    }
  }

  /** Without Raman coupling every slice only attenuates, along its own
      direction of propagation. */
  lemma UncoupledAttenuation(power: seq<seq<real>>, alpha: seq<real>, freq: seq<real>,
                             cr: seq<seq<real>>, dir: seq<int>, i: nat, k: nat)
    requires OdeShape(power, alpha, freq, cr, dir) && i < |power| && k < Width(power)
    requires forall a, b :: 0 <= a < |power| && 0 <= b < |power| ==> cr[a][b] == 0.0
    ensures Derivative(power, alpha, freq, cr, dir, i, k) == -(dir[i] as real) * alpha[i] * power[i][k]
  {
    var col := Column(power, k);
    SumOfZeros(Products(cr[i][i + 1..], col[i + 1..]));
    SumOfZeros(Products(Products(VibrationalLoss(freq, i), cr[i][..i]), col[..i]));
  }

  /** A single slice has nothing to couple to: it only attenuates, whatever
      its one coupling entry holds. */
  lemma SingleSliceUncoupled(power: seq<seq<real>>, alpha: seq<real>, freq: seq<real>,
                             cr: seq<seq<real>>, dir: seq<int>, k: nat)
    requires OdeShape(power, alpha, freq, cr, dir) && |power| == 1 && k < Width(power)
    ensures Derivative(power, alpha, freq, cr, dir, 0, k) == -(dir[0] as real) * alpha[0] * power[0][k]
  {
    var col := Column(power, k);
    assert Products(cr[0][1..], col[1..]) == [];
    assert Products(Products(VibrationalLoss(freq, 0), cr[0][..0]), col[..0]) == [];
  }

  /** The coupling exerted by slice `j` on slice `i`, as one term over all
      slices: taken as gain from a slice above `i`, as frequency-weighted
      loss to a slice below it, and nothing from `i` itself. */
  function CouplingTerm(power: seq<seq<real>>, freq: seq<real>, cr: seq<seq<real>>,
                        i: nat, j: nat, k: nat): real
    requires i < |power| && j < |power| && |freq| == |power| && AllNonZero(freq)
    requires IsMatrix(cr, |power|, |power|) && IsMatrix(power, |power|, Width(power))
    requires k < Width(power)
  {
    if j > i then cr[i][j] * power[j][k]
    else if j < i then -((freq[i] / freq[j] * cr[i][j]) * power[j][k])
    else 0.0
  }

  function CouplingTerms(power: seq<seq<real>>, freq: seq<real>, cr: seq<seq<real>>,
                         i: nat, k: nat): (t: seq<real>)
    requires i < |power| && |freq| == |power| && AllNonZero(freq)
    requires IsMatrix(cr, |power|, |power|) && IsMatrix(power, |power|, Width(power))
    requires k < Width(power)
    ensures |t| == |power| && forall j :: 0 <= j < |power| ==> t[j] == CouplingTerm(power, freq, cr, i, j, k)
  {
    seq(|power|, j requires 0 <= j < |power| => CouplingTerm(power, freq, cr, i, j, k))
  }

  /** The sum of the coupling terms of slice `i`: its Raman gain minus its
      Raman loss per unit of its own power. */
  function NetCoupling(power: seq<seq<real>>, freq: seq<real>, cr: seq<seq<real>>, i: nat, k: nat): real
    requires i < |power| && |freq| == |power| && AllNonZero(freq)
    requires IsMatrix(cr, |power|, |power|) && IsMatrix(power, |power|, Width(power))
    requires k < Width(power)
  {
    Sum(CouplingTerms(power, freq, cr, i, k))
  }

  lemma UpperTermsAreGain(power: seq<seq<real>>, freq: seq<real>, cr: seq<seq<real>>, i: nat, k: nat)
    requires i < |power| && |freq| == |power| && AllNonZero(freq)
    requires IsMatrix(cr, |power|, |power|) && IsMatrix(power, |power|, Width(power))
    requires k < Width(power)
    ensures CouplingTerms(power, freq, cr, i, k)[i + 1..] == Products(cr[i][i + 1..], Column(power, k)[i + 1..])
  {
    var t := CouplingTerms(power, freq, cr, i, k);
    var gainTerms := Products(cr[i][i + 1..], Column(power, k)[i + 1..]);
    forall x | 0 <= x < |gainTerms| ensures t[i + 1..][x] == gainTerms[x] {
      assert t[i + 1 + x] == CouplingTerm(power, freq, cr, i, i + 1 + x, k);
    }
  }

  lemma LowerTermsAreLoss(power: seq<seq<real>>, freq: seq<real>, cr: seq<seq<real>>, i: nat, k: nat)
    requires i < |power| && |freq| == |power| && AllNonZero(freq)
    requires IsMatrix(cr, |power|, |power|) && IsMatrix(power, |power|, Width(power))
    requires k < Width(power)
    ensures CouplingTerms(power, freq, cr, i, k)[..i] ==
            Negated(Products(Products(VibrationalLoss(freq, i), cr[i][..i]), Column(power, k)[..i]))
  {
    var t := CouplingTerms(power, freq, cr, i, k);
    var lossTerms := Products(Products(VibrationalLoss(freq, i), cr[i][..i]), Column(power, k)[..i]);
    forall x | 0 <= x < i ensures t[..i][x] == Negated(lossTerms)[x] {
      assert t[x] == CouplingTerm(power, freq, cr, i, x, k);
    }
  }

  /** Gain over the slices above and loss over the slices below partition the
      coupling to all other slices: together they are a single sum over every
      slice in which `i` itself contributes nothing. */
  lemma {:induction false} GainLossPartition(power: seq<seq<real>>, freq: seq<real>, cr: seq<seq<real>>,
                                             i: nat, k: nat)
    requires i < |power| && |freq| == |power| && AllNonZero(freq)
    requires IsMatrix(cr, |power|, |power|) && IsMatrix(power, |power|, Width(power))
    requires k < Width(power)
    ensures RamanGain(power, cr, i, k) - RamanLoss(power, freq, cr, i, k) == NetCoupling(power, freq, cr, i, k)
  {
    var t := CouplingTerms(power, freq, cr, i, k);
    var lossTerms := Products(Products(VibrationalLoss(freq, i), cr[i][..i]), Column(power, k)[..i]);
    assert t == t[..i] + ([t[i]] + t[i + 1..]);
    UpperTermsAreGain(power, freq, cr, i, k);
    LowerTermsAreLoss(power, freq, cr, i, k);
    SumConcat(t[..i], [t[i]] + t[i + 1..]);
    SumConcat([t[i]], t[i + 1..]);
    assert Sum([t[i]]) == 0.0 by { assert [t[i]][..0] == []; }
    SumNegated(lossTerms);
  }

  /** The sum of the first `p` entries of row `i`. */
  function RowSum(a: seq<seq<real>>, i: nat, p: nat): real
    requires i < |a| && p <= |a[i]|
  {
    Sum(a[i][..p])
  }

  lemma RowSumStep(a: seq<seq<real>>, i: nat, p: nat)
    requires i < |a| && 0 < p <= |a[i]|
    ensures RowSum(a, i, p) == RowSum(a, i, p - 1) + a[i][p - 1]
  {
    assert a[i][..p][..p - 1] == a[i][..p - 1];
  }

  /** The sum of the leading `p` by `p` block of a square matrix. */
  function BlockSum(a: seq<seq<real>>, p: nat): real
    requires p <= |a| && IsMatrix(a, |a|, |a|)
  {
    Sum(seq(p, i requires 0 <= i < p => RowSum(a, i, p)))
  }

  /** Growing the block by one row and one column adds the new column above
      the diagonal, the new row left of it and the new diagonal entry. */
  lemma BlockSumStep(a: seq<seq<real>>, p: nat)
    requires 0 < p <= |a| && IsMatrix(a, |a|, |a|)
    ensures BlockSum(a, p) ==
      BlockSum(a, p - 1) + Sum(seq(p - 1, i requires 0 <= i < p - 1 => a[i][p - 1])) + RowSum(a, p - 1, p)
  {
    var q := p - 1;
    var whole := seq(p, i requires 0 <= i < p => RowSum(a, i, p));
    var inner := seq(q, i requires 0 <= i < q => RowSum(a, i, q));
    var column := seq(q, i requires 0 <= i < q => a[i][q]);
    var upper := whole[..q];
    forall i | 0 <= i < q ensures upper[i] == inner[i] + column[i] {
      RowSumStep(a, i, p);
    }
    SumAdded(inner, column, upper);
  }

  /** An antisymmetric square matrix sums to zero over its leading `p` by `p`
      block. */
  lemma {:induction false} AntisymmetricBlockSum(a: seq<seq<real>>, p: nat)
    requires p <= |a| && IsMatrix(a, |a|, |a|)
    requires forall i, j :: 0 <= i < |a| && 0 <= j < |a| ==> a[i][j] == -a[j][i]
    ensures BlockSum(a, p) == 0.0
  {
    if p > 0 {
      var q := p - 1;
      AntisymmetricBlockSum(a, q);
      BlockSumStep(a, p);
      var column := seq(q, i requires 0 <= i < q => a[i][q]);
      assert column == Negated(a[q][..q]);
      SumNegated(a[q][..q]);
      RowSumStep(a, q, p);
      assert a[q][q] == 0.0;
    }
  }

  /** Entry `[i][j]` is the photon flux slice `i` exchanges with slice `j`. */
  function FluxMatrix(power: seq<seq<real>>, freq: seq<real>, cr: seq<seq<real>>, k: nat): (a: seq<seq<real>>)
    requires |freq| == |power| && AllNonZero(freq)
    requires IsMatrix(cr, |power|, |power|) && IsMatrix(power, |power|, Width(power))
    requires k < Width(power)
    ensures IsMatrix(a, |power|, |power|)
    ensures forall i, j :: 0 <= i < |power| && 0 <= j < |power| ==>
      a[i][j] == CouplingTerm(power, freq, cr, i, j, k) * PhotonsPerWatt(power, freq, i, k)
  {
    var n := |power|;
    seq(n, i requires 0 <= i < n =>
      seq(n, j requires 0 <= j < n => CouplingTerm(power, freq, cr, i, j, k) * PhotonsPerWatt(power, freq, i, k)))
  }

  /** `P_i / f_i` at sample `k`. */
  function PhotonsPerWatt(power: seq<seq<real>>, freq: seq<real>, i: nat, k: nat): real
    requires i < |power| && |freq| == |power| && AllNonZero(freq) && k < |power[i]|
  {
    power[i][k] / freq[i]
  }

  /** The rate of change of the photon count of slice `i` along z: its power
      derivative divided by its frequency. */
  function PhotonRate(power: seq<seq<real>>, alpha: seq<real>, freq: seq<real>,
                      cr: seq<seq<real>>, dir: seq<int>, i: nat, k: nat): real
    requires OdeShape(power, alpha, freq, cr, dir) && i < |power| && k < Width(power)
  {
    Derivative(power, alpha, freq, cr, dir, i, k) / freq[i]
  }

  lemma FluxMatrixRow(power: seq<seq<real>>, alpha: seq<real>, freq: seq<real>,
                      cr: seq<seq<real>>, dir: seq<int>, i: nat, k: nat)
    requires OdeShape(power, alpha, freq, cr, dir) && i < |power| && k < Width(power)
    requires dir[i] == 1 && alpha[i] == 0.0
    ensures PhotonRate(power, alpha, freq, cr, dir, i, k) == RowSum(FluxMatrix(power, freq, cr, k), i, |power|)
  {
    ForwardLosslessPhotonDerivative(power, alpha, freq, cr, dir, i, k);
    FluxRowScaled(power, freq, cr, i, k);
  }

  /** On a forward slice without attenuation, the photon rate is the net
      coupling times the photon count of the slice. */
  lemma ForwardLosslessPhotonDerivative(power: seq<seq<real>>, alpha: seq<real>, freq: seq<real>,
                                        cr: seq<seq<real>>, dir: seq<int>, i: nat, k: nat)
    requires OdeShape(power, alpha, freq, cr, dir) && i < |power| && k < Width(power)
    requires dir[i] == 1 && alpha[i] == 0.0
    ensures PhotonRate(power, alpha, freq, cr, dir, i, k) ==
            NetCoupling(power, freq, cr, i, k) * PhotonsPerWatt(power, freq, i, k)
  {
    GainLossPartition(power, freq, cr, i, k);
    PerPhoton(RamanGain(power, cr, i, k), RamanLoss(power, freq, cr, i, k), NetCoupling(power, freq, cr, i, k),
              power[i][k], freq[i]);
  }

  /** A row of the flux matrix sums to the row's coupling terms times the
      photon count of that slice. */
  lemma FluxRowScaled(power: seq<seq<real>>, freq: seq<real>, cr: seq<seq<real>>, i: nat, k: nat)
    requires i < |power| && |freq| == |power| && AllNonZero(freq)
    requires IsMatrix(cr, |power|, |power|) && IsMatrix(power, |power|, Width(power))
    requires k < Width(power)
    ensures RowSum(FluxMatrix(power, freq, cr, k), i, |power|) ==
            NetCoupling(power, freq, cr, i, k) * PhotonsPerWatt(power, freq, i, k)
  {
    var terms := CouplingTerms(power, freq, cr, i, k);
    var row := FluxMatrix(power, freq, cr, k)[i];
    var c := PhotonsPerWatt(power, freq, i, k);
    forall j | 0 <= j < |terms| ensures row[j] == terms[j] * c {
      assert row[j] == CouplingTerm(power, freq, cr, i, j, k) * c;
    }
    SumScaled(terms, row, c);
    assert row[..|power|] == row;
  }

  lemma PerPhoton(gain: real, loss: real, coupling: real, p: real, f: real)
    requires f != 0.0 && gain - loss == coupling
    ensures RateEquation(1, 0.0, gain, loss, p) / f == coupling * (p / f)
  {
  }

  lemma FluxMatrixAntisymmetric(power: seq<seq<real>>, freq: seq<real>, cr: seq<seq<real>>, k: nat)
    requires |freq| == |power| && AllNonZero(freq)
    requires IsMatrix(cr, |power|, |power|) && IsMatrix(power, |power|, Width(power))
    requires k < Width(power)
    requires forall i, j :: 0 <= i < |power| && 0 <= j < |power| ==> cr[i][j] == cr[j][i]
    ensures var a := FluxMatrix(power, freq, cr, k);
      forall i, j :: 0 <= i < |power| && 0 <= j < |power| ==> a[i][j] == -a[j][i]
  {
    var a := FluxMatrix(power, freq, cr, k);
    forall i, j | 0 <= i < |power| && 0 <= j < |power| ensures a[i][j] == -a[j][i] {
      if i < j {
        PairFluxBalance(power, freq, cr, i, j, k);
      } else if j < i {
        PairFluxBalance(power, freq, cr, j, i, k);
      }
    }
  }

  /** Photon-number balance of the right-hand side: for co-propagating slices
      without attenuation and with a symmetric coupling matrix, what one
      slice loses is what the others gain, counted in photons (power divided
      by frequency), at every z-sample. */
  lemma PhotonFluxConserved(power: seq<seq<real>>, alpha: seq<real>, freq: seq<real>,
                            cr: seq<seq<real>>, dir: seq<int>, k: nat)
    requires OdeShape(power, alpha, freq, cr, dir) && k < Width(power)
    requires forall i :: 0 <= i < |power| ==> dir[i] == 1 && alpha[i] == 0.0
    requires forall i, j :: 0 <= i < |power| && 0 <= j < |power| ==> cr[i][j] == cr[j][i]
    ensures Sum(seq(|power|, i requires 0 <= i < |power| =>
                      PhotonRate(power, alpha, freq, cr, dir, i, k))) == 0.0
  {
    var n := |power|;
    var a := FluxMatrix(power, freq, cr, k);
    var flux := seq(n, i requires 0 <= i < n => PhotonRate(power, alpha, freq, cr, dir, i, k));
    forall i | 0 <= i < n ensures flux[i] == RowSum(a, i, n) {
      FluxMatrixRow(power, alpha, freq, cr, dir, i, k);
      assert a[i][..n] == a[i];
    }
    FluxMatrixAntisymmetric(power, freq, cr, k);
    AntisymmetricBlockSum(a, n);
    assert flux == seq(n, i requires 0 <= i < n => RowSum(a, i, n));
  }

  /** The photon flux slice `lo` gains from slice `hi` is the one `hi` loses
      to `lo`. */
  lemma PairFluxBalance(power: seq<seq<real>>, freq: seq<real>, cr: seq<seq<real>>, lo: nat, hi: nat, k: nat)
    requires lo < hi < |power| && |freq| == |power| && AllNonZero(freq)
    requires IsMatrix(cr, |power|, |power|) && IsMatrix(power, |power|, Width(power))
    requires k < Width(power) && cr[lo][hi] == cr[hi][lo]
    ensures CouplingTerm(power, freq, cr, lo, hi, k) * (power[lo][k] / freq[lo]) ==
            -(CouplingTerm(power, freq, cr, hi, lo, k) * (power[hi][k] / freq[hi]))
  {
    var x := (freq[hi] / freq[lo] * cr[hi][lo]) * power[lo][k];
    var y := power[hi][k] / freq[hi];
    assert CouplingTerm(power, freq, cr, hi, lo, k) == -x;
    assert -x * y == -(x * y);
    CouplingAntisymmetric(power[lo][k], power[hi][k], freq[lo], freq[hi], cr[lo][hi]);
  }

  lemma CouplingAntisymmetric(pLo: real, pHi: real, fLo: real, fHi: real, c: real)
    requires fLo != 0.0 && fHi != 0.0
    ensures (c * pHi) * (pLo / fLo) == ((fHi / fLo * c) * pLo) * (pHi / fHi)
  {
    calc {
      ((fHi / fLo * c) * pLo) * (pHi / fHi);
    ==
      (fHi / fHi) * (c * pHi) * (pLo / fLo);
    ==
      (c * pHi) * (pLo / fLo);
    }
  }
}
