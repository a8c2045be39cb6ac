/** The boundary side of the Raman problem: the residual the collocation solver
    drives to zero, the initial guess it starts from, and the normalisation of
    the converged power into the squared field gain. A slice whose direction
    is +1 is launched at the first mesh point; any other direction value
    counts as backward, launched at the last mesh point. */
module Boundary {
  import opened RamanTypes

  /** The power the solver currently has for slice `i` at its own launch end. */
  function LaunchValue(ya: seq<real>, yb: seq<real>, dir: seq<int>, i: nat): real
    requires i < |ya| && i < |yb| && i < |dir|
  {
    if dir[i] == 1 then ya[i] else yb[i]
  }

  /** Specification of the boundary residual: launch power minus the value
      at the slice's launch end. */
  function BoundaryResidual(ya: seq<real>, yb: seq<real>, power: seq<real>, dir: seq<int>): seq<real>
    requires |ya| == |yb| == |power| == |dir|
  {
    seq(|power|, i requires 0 <= i < |power| => power[i] - LaunchValue(ya, yb, dir, i))
  }

  function Minus(a: seq<real>, b: seq<real>): (r: seq<real>)
    requires |a| == |b|
    ensures |r| == |a| && forall i :: 0 <= i < |a| ==> r[i] == a[i] - b[i]
  {
    seq(|a|, i requires 0 <= i < |a| => a[i] - b[i])
  }

  /** The residual as the source computes it: a zeroed vector filled slice by
      slice from `ya` or `yb`, then subtracted from the launch powers. */
  method ResidualsRaman(ya: seq<real>, yb: seq<real>, power: seq<real>, dir: seq<int>)
    returns (r: seq<real>)
    requires |ya| == |yb| == |power| == |dir|
    ensures |r| == |power|
    ensures forall i :: 0 <= i < |r| ==>
      r[i] == power[i] - (if dir[i] == 1 then ya[i] else yb[i])
    ensures r == BoundaryResidual(ya, yb, power, dir)
  {
    var computed := new real[|ya|](_ => 0.0);
    for index := 0 to |dir|
      invariant forall j :: 0 <= j < index ==> computed[j] == LaunchValue(ya, yb, dir, j)
    {
      if dir[index] == 1 {
        computed[index] := ya[index];
      } else {
        computed[index] := yb[index];
      }
    }
    r := Minus(power, computed[..]);
  }

  /** The residual vanishes exactly when every slice has its launch power at
      its own launch end. */
  predicate ResidualVanishes(ya: seq<real>, yb: seq<real>, power: seq<real>, dir: seq<int>)
    requires |ya| == |yb| == |power| == |dir|
  {
    forall i :: 0 <= i < |power| ==> BoundaryResidual(ya, yb, power, dir)[i] == 0.0
  }

  lemma ResidualZeroIff(ya: seq<real>, yb: seq<real>, power: seq<real>, dir: seq<int>)
    requires |ya| == |yb| == |power| == |dir|
    ensures ResidualVanishes(ya, yb, power, dir) <==>
            (forall i :: 0 <= i < |power| ==> (if dir[i] == 1 then ya[i] else yb[i]) == power[i])
  {
    var r := BoundaryResidual(ya, yb, power, dir);
    if ResidualVanishes(ya, yb, power, dir) {
      forall i | 0 <= i < |power| ensures LaunchValue(ya, yb, dir, i) == power[i] {
        assert r[i] == 0.0;
      }
    }
  }

  function Reverse(z: seq<real>): (r: seq<real>)
    ensures |r| == |z| && forall k :: 0 <= k < |z| ==> r[k] == z[|z| - 1 - k]
  {
    seq(|z|, k requires 0 <= k < |z| => z[|z| - 1 - k])
  }

  /** The exponent of the attenuation-only decay over a distance `z`. */
  function DecayExponent(alpha: real, z: real): real
  {
    -alpha * z
  }

  /** `exp(-alpha * z) * p`: power `p` attenuated over a distance `z`. */
  function Decayed(alpha: real, z: real, p: real, exp: real -> real): real
  {
    exp(DecayExponent(alpha, z)) * p
  }

  /** The attenuated power along the mesh `z`. */
  function DecayRow(z: seq<real>, alpha: real, p: real, exp: real -> real): (row: seq<real>)
    ensures |row| == |z| && forall k :: 0 <= k < |z| ==> row[k] == Decayed(alpha, z[k], p, exp)
  {
    seq(|z|, k requires 0 <= k < |z| => Decayed(alpha, z[k], p, exp))
  }

  /** Specification of the initial guess: exponential decay from z = 0 for a
      forward slice, the same decay on the reversed mesh for any other. */
  function InitialGuess(z: seq<real>, power: seq<real>, alpha: seq<real>, dir: seq<int>,
                        exp: real -> real): seq<seq<real>>
    requires |power| == |alpha| == |dir|
  {
    seq(|power|, i requires 0 <= i < |power| =>
      DecayRow(if dir[i] == 1 then z else Reverse(z), alpha[i], power[i], exp))
  }

  /** The initial guess as the source builds it, one row per slice. */
  method InitialGuessRaman(z: seq<real>, power: seq<real>, alpha: seq<real>, dir: seq<int>,
                           exp: real -> real) returns (guess: seq<seq<real>>)
    requires |power| == |alpha| == |dir|
    ensures IsMatrix(guess, |power|, |z|)
    ensures forall i, k :: 0 <= i < |power| && 0 <= k < |z| ==>
      guess[i][k] == Decayed(alpha[i], if dir[i] == 1 then z[k] else z[|z| - 1 - k], power[i], exp)
    ensures guess == InitialGuess(z, power, alpha, dir, exp)
  {
    var rows := new seq<real>[|power|];
    for fIndex := 0 to |power|
      invariant forall j :: 0 <= j < fIndex ==> rows[j] == InitialGuess(z, power, alpha, dir, exp)[j]
    {
      if dir[fIndex] == 1 {
        rows[fIndex] := DecayRow(z, alpha[fIndex], power[fIndex], exp);
      } else {
        rows[fIndex] := DecayRow(Reverse(z), alpha[fIndex], power[fIndex], exp);
      }
    }
    guess := rows[..];
    forall i, k | 0 <= i < |power| && 0 <= k < |z|
      ensures guess[i][k] == Decayed(alpha[i], if dir[i] == 1 then z[k] else z[|z| - 1 - k], power[i], exp)
    {
      InitialGuessEntry(z, power, alpha, dir, exp, i, k);
    }
  }

  lemma InitialGuessEntry(z: seq<real>, power: seq<real>, alpha: seq<real>, dir: seq<int>,
                          exp: real -> real, i: nat, k: nat)
    requires |power| == |alpha| == |dir| && i < |power| && k < |z|
    ensures var g := InitialGuess(z, power, alpha, dir, exp);
      |g| == |power| && |g[i]| == |z| &&
      g[i][k] == Decayed(alpha[i], if dir[i] == 1 then z[k] else z[|z| - 1 - k], power[i], exp)
  {
    var g := InitialGuess(z, power, alpha, dir, exp);
    var mesh := if dir[i] == 1 then z else Reverse(z);
    assert g[i] == DecayRow(mesh, alpha[i], power[i], exp);
    assert mesh[k] == if dir[i] == 1 then z[k] else z[|z| - 1 - k];
  }

  /** With `exp(0) = 1` and a mesh starting at 0, every row of the guess
      starts at its launch power at its own launch end. */
  lemma InitialGuessAtLaunch(z: seq<real>, power: seq<real>, alpha: seq<real>, dir: seq<int>,
                             exp: real -> real, i: nat)
    requires |power| == |alpha| == |dir| && i < |power|
    requires |z| > 0 && z[0] == 0.0 && exp(0.0) == 1.0
    ensures var g := InitialGuess(z, power, alpha, dir, exp);
      if dir[i] == 1 then g[i][0] == power[i] else g[i][|z| - 1] == power[i]
  {
    var g := InitialGuess(z, power, alpha, dir, exp);
    assert DecayExponent(alpha[i], 0.0) == 0.0;
    assert Reverse(z)[|z| - 1] == z[0];
  }

  lemma InitialGuessShape(z: seq<real>, power: seq<real>, alpha: seq<real>, dir: seq<int>, exp: real -> real)
    requires |power| == |alpha| == |dir|
    ensures IsMatrix(InitialGuess(z, power, alpha, dir, exp), |power|, |z|)
  {
    var g := InitialGuess(z, power, alpha, dir, exp);
    forall i | 0 <= i < |power| ensures |g[i]| == |z| {
      if dir[i] != 1 {
        assert |Reverse(z)| == |z|;
      }
    }
  }

  /** With `exp(0) = 1` and a mesh starting at 0, the guess meets the boundary
      conditions: its boundary residual vanishes. */
  lemma InitialGuessMeetsBoundary(z: seq<real>, power: seq<real>, alpha: seq<real>, dir: seq<int>,
                                  exp: real -> real)
    requires |power| == |alpha| == |dir|
    requires |z| > 0 && z[0] == 0.0 && exp(0.0) == 1.0
    ensures var g := InitialGuess(z, power, alpha, dir, exp);
      IsMatrix(g, |power|, |z|) && ResidualVanishes(Column(g, 0), Column(g, |z| - 1), power, dir)
  {
    var g := InitialGuess(z, power, alpha, dir, exp);
    InitialGuessShape(z, power, alpha, dir, exp);
    var ya, yb := Column(g, 0), Column(g, |z| - 1);
    forall i | 0 <= i < |power| ensures LaunchValue(ya, yb, dir, i) == power[i] {
      InitialGuessAtLaunch(z, power, alpha, dir, exp, i);
    }
    ResidualZeroIff(ya, yb, power, dir);
  }

  /** A backward row is the forward decay profile of the same slice read from
      the far end. */
  lemma BackwardGuessMirrorsForward(z: seq<real>, power: seq<real>, alpha: seq<real>, dir: seq<int>,
                                    exp: real -> real, i: nat)
    requires |power| == |alpha| == |dir| && i < |power| && dir[i] != 1
    ensures InitialGuess(z, power, alpha, dir, exp)[i] == Reverse(DecayRow(z, alpha[i], power[i], exp))
  {
    var row := InitialGuess(z, power, alpha, dir, exp)[i];
    var forward := DecayRow(z, alpha[i], power[i], exp);
    var mirrored := Reverse(forward);
    assert row == DecayRow(Reverse(z), alpha[i], power[i], exp);
    assert |row| == |mirrored|;
    forall k | 0 <= k < |z| ensures row[k] == mirrored[k] {
      assert mirrored[k] == forward[|z| - 1 - k];
    }
  }

  /** The squared field gain: each row of the power divided by that slice's
      launch power. */
  function RhoSquared(y: seq<seq<real>>, power: seq<real>): (rho2: seq<seq<real>>)
    requires |y| == |power| && AllNonZero(power)
    ensures |rho2| == |y| && forall i :: 0 <= i < |y| ==> |rho2[i]| == |y[i]|
    ensures forall i, k :: 0 <= i < |y| && 0 <= k < |y[i]| ==> rho2[i][k] * power[i] == y[i][k]
  {
    seq(|y|, i requires 0 <= i < |y| =>
      seq(|y[i]|, k requires 0 <= k < |y[i]| => y[i][k] / power[i]))
  }

  /** The squared gain is one exactly where the power equals the launch power. */
  lemma RhoSquaredOneIff(y: seq<seq<real>>, power: seq<real>, i: nat, k: nat)
    requires |y| == |power| && AllNonZero(power) && i < |y| && k < |y[i]|
    ensures RhoSquared(y, power)[i][k] == 1.0 <==> y[i][k] == power[i]
  {
    var rho2 := RhoSquared(y, power);
    assert rho2[i][k] * power[i] == y[i][k];
    if y[i][k] == power[i] {
      assert (rho2[i][k] - 1.0) * power[i] == 0.0;
    }
  }

  /** Once the boundary residual vanishes, the squared gain of every slice is
      one at its own launch end: the first mesh point for a forward slice, the
      last one for any other. */
  lemma RhoSquaredAtLaunch(y: seq<seq<real>>, power: seq<real>, dir: seq<int>, m: nat)
    requires m > 0 && IsMatrix(y, |power|, m) && |dir| == |power| && AllNonZero(power)
    requires ResidualVanishes(Column(y, 0), Column(y, m - 1), power, dir)
    ensures forall i :: 0 <= i < |power| ==>
      if dir[i] == 1 then RhoSquared(y, power)[i][0] == 1.0
      else RhoSquared(y, power)[i][m - 1] == 1.0
  {
    ResidualZeroIff(Column(y, 0), Column(y, m - 1), power, dir);
    forall i | 0 <= i < |power|
      ensures if dir[i] == 1 then RhoSquared(y, power)[i][0] == 1.0
              else RhoSquared(y, power)[i][m - 1] == 1.0
    {
      RhoSquaredOneIff(y, power, i, 0);
      RhoSquaredOneIff(y, power, i, m - 1);
    }
  }
}
