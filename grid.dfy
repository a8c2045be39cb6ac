/** The initial z mesh of the boundary-value solve. The source builds it as
    `arange(0, length + 1, z_resolution)`: the multiples of the resolution
    below `length + 1`. `ArangeGrid` models that expression; `FiberGrid` is
    the mesh from 0 to exactly the fiber length that the `+ 1` was meant to
    produce. The solver model builds its problem on `ArangeGrid`, as the
    source does, and on `FiberGrid` in its corrected variant. */
module Grid {

  /** The least integer not below `x`. */
  function Ceil(x: real): (c: int)
    ensures x <= c as real < x + 1.0
  {
    if x.Floor as real == x then x.Floor else x.Floor + 1
  }

  lemma ScaleStrict(a: real, b: real, s: real)
    requires a < b && s > 0.0
    ensures a * s < b * s
  {
  }

  lemma ScaleWeak(a: real, b: real, s: real)
    requires a <= b && s >= 0.0
    ensures a * s <= b * s
  {
  }

  lemma CeilScaled(stop: real, step: real)
    requires step > 0.0
    ensures stop <= Ceil(stop / step) as real * step
    ensures (Ceil(stop / step) - 1) as real * step < stop
  {
    var x := stop / step;
    var c := Ceil(x);
    var below := (c - 1) as real;
    assert below < x;
    calc {
      below * step;
    <  { ScaleStrict(below, x, step); }
      x * step;
    ==
      stop;
    }
    calc {
      stop;
    ==
      x * step;
    <= { ScaleWeak(x, c as real, step); }
      c as real * step;
    }
  }

  /** The number of elements of `arange(0, stop, step)`. */
  function ArangeCount(stop: real, step: real): (n: nat)
    requires step > 0.0
    ensures stop <= n as real * step
    ensures n > 0 ==> (n - 1) as real * step < stop
  {
    CeilScaled(stop, step);
    var c := Ceil(stop / step);
    if c <= 0 then 0 else c
  }

  /** The mesh as the source writes it: `arange(0, length + 1, dz)`. */
  function ArangeGrid(length: real, dz: real): (z: seq<real>)
    requires dz > 0.0
    ensures forall k :: 0 <= k < |z| ==> z[k] == k as real * dz
    ensures forall k :: 0 <= k < |z| ==> z[k] < length + 1.0
    ensures length + 1.0 <= |z| as real * dz
  {
    var n := ArangeCount(length + 1.0, dz);
    var z := seq(n, k requires 0 <= k < n => k as real * dz);
    forall k | 0 <= k < n ensures z[k] < length + 1.0 {
      MultipleBelow(k, n, dz, length + 1.0);
    }
    z
  }

  /** When the last of `n` multiples of `dz` lies below `stop`, so does each. */
  lemma MultipleBelow(k: nat, n: nat, dz: real, stop: real)
    requires k < n && dz > 0.0 && (n - 1) as real * dz < stop
    ensures k as real * dz < stop
  {
    ScaleWeak(k as real, (n - 1) as real, dz);
  }

  lemma AtLeastOneStep(m: nat, dz: real)
    requires m >= 1 && dz >= 0.0
    ensures dz <= m as real * dz
  {
    ScaleWeak(1.0, m as real, dz);
  }

  lemma AtMostOneStep(m: nat, dz: real)
    requires m <= 1 && dz >= 0.0
    ensures m as real * dz <= dz
  {
    if m == 0 {
      assert m as real == 0.0;
    } else {
      assert m as real == 1.0;
    }
  }

  lemma NextMultiple(m: nat, dz: real)
    requires m >= 1
    ensures (m - 1) as real * dz + dz == m as real * dz
  {
    var x := m as real;
    assert (m - 1) as real == x - 1.0;
    assert (x - 1.0) * dz + dz == x * dz;
  }

  lemma MultipleDifference(a: int, b: int, dz: real)
    ensures (a - b) as real * dz == a as real * dz - b as real * dz
  {
    var x, y := a as real, b as real;
    assert (a - b) as real == x - y;
    assert (x - y) * dz == x * dz - y * dz;
  }

  /** The source's mesh has the two points a boundary-value solve needs
      exactly when one step fits below `length + 1`; its last point lies
      less than one step below `length + 1`. */
  lemma ArangeGridSpan(length: real, dz: real)
    requires dz > 0.0
    ensures var z := ArangeGrid(length, dz); |z| >= 2 <==> dz < length + 1.0
    ensures var z := ArangeGrid(length, dz); |z| > 0 ==> z[|z| - 1] < length + 1.0 <= z[|z| - 1] + dz
  {
    var z := ArangeGrid(length, dz);
    var n := |z|;
    if n >= 2 {
      AtLeastOneStep(n - 1, dz);
      assert z[n - 1] == (n - 1) as real * dz;
    } else {
      AtMostOneStep(n, dz);
    }
    if n > 0 {
      NextMultiple(n, dz);
      assert z[n - 1] == (n - 1) as real * dz;
    }
  }

  /** On the source's evenly spaced mesh, reading the mesh backwards gives the
      distance to its last point, so a row decayed over the reversed mesh
      decays from the far end of the mesh. */
  lemma ArangeGridReversedIsDistanceToEnd(length: real, dz: real, k: nat)
    requires dz > 0.0 && k < |ArangeGrid(length, dz)|
    ensures var z := ArangeGrid(length, dz); z[|z| - 1 - k] == z[|z| - 1] - z[k]
  {
    var z := ArangeGrid(length, dz);
    var m := |z|;
    MultipleDifference(m - 1, k, dz);
    assert z[m - 1 - k] == (m - 1 - k) as real * dz;
    assert z[m - 1] == (m - 1) as real * dz && z[k] == k as real * dz;
  }

  /** A fiber of 1500 m on a 1000 m resolution: the mesh stops at 1000 m, so
      the backward boundary is imposed 500 m before the fiber end. */
  lemma ArangeGridStopsShort()
    ensures var z := ArangeGrid(1500.0, 1000.0); |z| == 2 && z[|z| - 1] == 1000.0
  {
    var z := ArangeGrid(1500.0, 1000.0);
    assert |z| == 2 by {
      assert Ceil(1501.0 / 1000.0) == 2 by { assert (1501.0 / 1000.0).Floor == 1; }
    }
  }

  /** A fiber of 10 m on a 0.4 m resolution: the mesh runs on to 10.8 m, past
      the fiber end. */
  lemma ArangeGridOvershoots()
    ensures var z := ArangeGrid(10.0, 0.4); |z| == 28 && z[|z| - 1] == 10.8
  {
    var z := ArangeGrid(10.0, 0.4);
    assert |z| == 28 by {
      assert Ceil(11.0 / 0.4) == 28 by { assert (11.0 / 0.4).Floor == 27; }
    }
  }

  /** The mesh from 0 to the fiber length at the requested resolution: every
      multiple of `dz` below `length`, then `length` itself. */
  function FiberGrid(length: real, dz: real): (z: seq<real>)
    requires length > 0.0 && dz > 0.0
    ensures |z| >= 2 && z[0] == 0.0 && z[|z| - 1] == length
    ensures forall k :: 0 <= k < |z| - 1 ==> z[k] < z[k + 1] <= z[k] + dz
  {
    var n := ArangeCount(length, dz);
    seq(n, k requires 0 <= k < n => k as real * dz) + [length]
  }

  lemma CeilOfWhole(n: int, e: real)
    requires 0.0 <= e <= 1.0
    ensures e == 0.0 ==> Ceil(n as real + e) == n
    ensures e > 0.0 ==> Ceil(n as real + e) == n + 1
  {
  }

  lemma WholeSteps(steps: nat, dz: real)
    requires dz >= 1.0
    ensures (steps as real * dz) / dz == steps as real + 0.0
    ensures (steps as real * dz + 1.0) / dz == steps as real + 1.0 / dz
    ensures 0.0 < 1.0 / dz <= 1.0
  {
  }

  /** Where the length is a whole number of steps of at least one metre, the
      source's mesh is already the intended one. */
  lemma GridsAgreeOnWholeSteps(steps: nat, dz: real)
    requires steps >= 1 && dz >= 1.0
    ensures ArangeGrid(steps as real * dz, dz) == FiberGrid(steps as real * dz, dz)
  {
    var length := steps as real * dz;
    WholeSteps(steps, dz);
    CeilOfWhole(steps, 0.0);
    CeilOfWhole(steps, 1.0 / dz);
    assert ArangeCount(length, dz) == steps;
    assert ArangeCount(length + 1.0, dz) == steps + 1;
    var a := ArangeGrid(length, dz);
    var f := FiberGrid(length, dz);
    assert |a| == |f|;
    forall k | 0 <= k < |a| ensures a[k] == f[k] {
      if k == steps { assert f[k] == length; }
    }
  }
}
