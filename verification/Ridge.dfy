/**
 The small regularised regression behind the thermal model: build the normal system, reduce it by pivoted
 Gauss-Jordan elimination, read off the coefficients.
 */
module Ridge {
  import opened Common
  import opened Vectors

  const REGULARISER := 0.01
  const PIVOT_THRESHOLD := 0.000000000001

  ghost predicate Rectangular(m: seq<seq<real>>, width: nat) { forall i | 0 <= i < |m| :: |m[i]| == width }

  // ---------------------------------------------------------------- the normal system

  /** Row `i` of the normal system: the outer products of the samples, plus the regulariser. */
  ghost function NormalRow(xs: seq<seq<real>>, ys: seq<real>, width: nat, i: nat): (r: seq<real>)
    requires Rectangular(xs, width) && |xs| == |ys| && i < width
    ensures |r| == width + 1
  {
    if |xs| == 0 then AddScaled(Zero(width + 1), REGULARISER, Unit(width + 1, i))
    else
      var n := |xs| - 1;
      AddScaled(NormalRow(xs[..n], ys[..n], width, i), xs[n][i], xs[n] + [ys[n]])
  }

  ghost function NormalSystem(xs: seq<seq<real>>, ys: seq<real>, width: nat): (m: seq<seq<real>>)
    requires Rectangular(xs, width) && |xs| == |ys|
    ensures |m| == width && Rectangular(m, width + 1)
  {
    seq(width, i requires 0 <= i < width => NormalRow(xs, ys, width, i))
  }

  /** Half the derivative of the regularised squared error in direction `i`. */
  ghost function Gradient(xs: seq<seq<real>>, ys: seq<real>, c: seq<real>, i: nat): real
    requires Rectangular(xs, |c|) && |xs| == |ys| && i < |c|
  {
    if |xs| == 0 then Times(REGULARISER, c[i])
    else
      var n := |xs| - 1;
      Gradient(xs[..n], ys[..n], c, i) + Times(xs[n][i], Dot(xs[n], c) - ys[n])
  }

  /** (X'X + 0.01 I) c == X'y, coordinate by coordinate. */
  ghost predicate SolvesNormal(xs: seq<seq<real>>, ys: seq<real>, c: seq<real>)
    requires Rectangular(xs, |c|) && |xs| == |ys|
  {
    forall i: nat | i < |c| :: Gradient(xs, ys, c, i) == 0.0
  }

  /** Every row vanishes on `v`; coefficients `c` solve the system when `v` is `c` followed by -1. */
  ghost predicate InKernel(m: seq<seq<real>>, v: seq<real>)
    requires Rectangular(m, |v|)
  {
    forall i: nat | i < |m| :: Vanishes(m[i], v)
  }

  ghost predicate Vanishes(row: seq<real>, v: seq<real>)
    requires |row| == |v|
  {
    Dot(row, v) == 0.0
  }

  lemma {:induction false} NormalRowDot(xs: seq<seq<real>>, ys: seq<real>, c: seq<real>, i: nat)
    requires Rectangular(xs, |c|) && |xs| == |ys| && i < |c|
    ensures Dot(NormalRow(xs, ys, |c|, i), c + [-1.0]) == Gradient(xs, ys, c, i)
  {
    hide Times;
    var v := c + [-1.0];
    if |xs| == 0 {
      DotAddScaled(Zero(|v|), REGULARISER, Unit(|v|, i), v);
      DotZero(v);
      DotUnit(i, v);
    } else {
      var n := |xs| - 1;
      NormalRowDot(xs[..n], ys[..n], c, i);
      DotAddScaled(NormalRow(xs[..n], ys[..n], |c|, i), xs[n][i], xs[n] + [ys[n]], v);
      DotAppend(xs[n], ys[n], c, -1.0);
      MinusOne(ys[n]);
    }
  }

  lemma MinusOne(y: real)
    ensures Times(y, -1.0) == -y
  {}

  lemma KernelIsSolution(xs: seq<seq<real>>, ys: seq<real>, c: seq<real>)
    requires Rectangular(xs, |c|) && |xs| == |ys|
    ensures InKernel(NormalSystem(xs, ys, |c|), c + [-1.0]) <==> SolvesNormal(xs, ys, c)
  {
    hide Dot, NormalRow, Gradient;
    var m := NormalSystem(xs, ys, |c|);
    forall i: nat | i < |c| ensures Vanishes(m[i], c + [-1.0]) <==> Gradient(xs, ys, c, i) == 0.0 {
      NormalRowDot(xs, ys, c, i);
    }
  }

  // ---------------------------------------------------------------- exchanging the order of summation

  /** Residuals of coefficients `c`, one per sample. */
  ghost function Residuals(xs: seq<seq<real>>, ys: seq<real>, c: seq<real>): (r: seq<real>)
    requires Rectangular(xs, |c|) && |xs| == |ys|
    ensures |r| == |xs|
  {
    if |xs| == 0 then []
    else var n := |xs| - 1; Residuals(xs[..n], ys[..n], c) + [Dot(xs[n], c) - ys[n]]
  }

  ghost function Fitted(xs: seq<seq<real>>, d: seq<real>): (r: seq<real>)
    requires Rectangular(xs, |d|)
    ensures |r| == |xs|
  {
    if |xs| == 0 then [] else var n := |xs| - 1; Fitted(xs[..n], d) + [Dot(xs[n], d)]
  }

  ghost function GradientVector(xs: seq<seq<real>>, ys: seq<real>, c: seq<real>): (r: seq<real>)
    requires Rectangular(xs, |c|) && |xs| == |ys|
    ensures |r| == |c|
  {
    seq(|c|, i requires 0 <= i < |c| => Gradient(xs, ys, c, i))
  }

  lemma {:induction false} GradientAlong(xs: seq<seq<real>>, ys: seq<real>, c: seq<real>, d: seq<real>)
    requires Rectangular(xs, |c|) && |xs| == |ys| && |d| == |c|
    ensures Dot(GradientVector(xs, ys, c), d)
         == Dot(Fitted(xs, d), Residuals(xs, ys, c)) + Times(REGULARISER, Dot(c, d))
  {
    hide Times;
    if |xs| == 0 {
      assert GradientVector(xs, ys, c) == AddScaled(Zero(|c|), REGULARISER, c);
      DotAddScaled(Zero(|c|), REGULARISER, c, d);
      DotZero(d);
    } else {
      var n := |xs| - 1;
      var r := Dot(xs[n], c) - ys[n];
      forall i | 0 <= i < |c| ensures Times(xs[n][i], r) == Times(r, xs[n][i]) { TimesAdds(0.0, xs[n][i], r); }
      assert GradientVector(xs, ys, c) == AddScaled(GradientVector(xs[..n], ys[..n], c), r, xs[n]);
      DotAddScaled(GradientVector(xs[..n], ys[..n], c), r, xs[n], d);
      GradientAlong(xs[..n], ys[..n], c, d);
      DotAppend(Fitted(xs[..n], d), Dot(xs[n], d), Residuals(xs[..n], ys[..n], c), r);
      TimesAdds(0.0, Dot(xs[n], d), r);
    }
  }

  // ---------------------------------------------------------------- least squares

  ghost function Loss(xs: seq<seq<real>>, ys: seq<real>, c: seq<real>): real
    requires Rectangular(xs, |c|) && |xs| == |ys|
  {
    Dot(Residuals(xs, ys, c), Residuals(xs, ys, c)) + Times(REGULARISER, Dot(c, c))
  }

  function Minus(a: seq<real>, b: seq<real>): (r: seq<real>)
    requires |a| == |b|
    ensures |r| == |a|
  {
    seq(|a|, i requires 0 <= i < |a| => a[i] - b[i])
  }

  lemma SquareExpand(a: real, b: real)
    ensures Times(a + b, a + b) == Times(a, a) + Times(2.0, Times(b, a)) + Times(b, b)
  {}

  lemma {:induction false} DotExpand(a: seq<real>, z: seq<real>, d: seq<real>)
    requires |a| == |z| == |d| && forall i | 0 <= i < |a| :: z[i] == a[i] + d[i]
    ensures Dot(z, z) == Dot(a, a) + Times(2.0, Dot(d, a)) + Dot(d, d)
  {
    hide Times;
    if |a| == 0 {
      TimesAdds(2.0, 0.0, 0.0);
    } else {
      var n := |a| - 1;
      DotExpand(a[..n], z[..n], d[..n]);
      SquareExpand(a[n], d[n]);
      TimesAdds(2.0, Dot(d[..n], a[..n]), Times(d[n], a[n]));
    }
  }

  lemma {:induction false} ResidualsShift(xs: seq<seq<real>>, ys: seq<real>, c: seq<real>, z: seq<real>)
    requires Rectangular(xs, |c|) && |xs| == |ys| && |z| == |c|
    ensures forall k | 0 <= k < |xs| :: Residuals(xs, ys, z)[k] == Residuals(xs, ys, c)[k] + Fitted(xs, Minus(z, c))[k]
  {
    if |xs| > 0 {
      var n := |xs| - 1;
      ResidualsShift(xs[..n], ys[..n], c, z);
      DotMinus(xs[n], z, c);
    }
  }

  lemma {:induction false} DotMinus(x: seq<real>, z: seq<real>, c: seq<real>)
    requires |x| == |z| == |c|
    ensures Dot(x, Minus(z, c)) == Dot(x, z) - Dot(x, c)
  {
    hide Times;
    if |x| > 0 {
      var n := |x| - 1;
      assert Minus(z, c)[..n] == Minus(z[..n], c[..n]);
      DotMinus(x[..n], z[..n], c[..n]);
      TimesAdds(x[n], z[n] - c[n], c[n]);
    }
  }

  /** The exact excess of any coefficients over a solution of the normal equations. */
  lemma LossExcess(xs: seq<seq<real>>, ys: seq<real>, c: seq<real>, z: seq<real>)
    requires Rectangular(xs, |c|) && |xs| == |ys| && |z| == |c| && SolvesNormal(xs, ys, c)
    ensures var d := Minus(z, c);
      Loss(xs, ys, z) == Loss(xs, ys, c) + Dot(Fitted(xs, d), Fitted(xs, d)) + Times(REGULARISER, Dot(d, d))
  {
    hide Times, Dot, Residuals, Fitted, Gradient;
    var d := Minus(z, c);
    var r, f := Residuals(xs, ys, c), Fitted(xs, d);
    ResidualsShift(xs, ys, c, z);
    DotExpand(r, Residuals(xs, ys, z), f);
    DotExpand(c, z, d);
    GradientAlong(xs, ys, c, d);
    assert GradientVector(xs, ys, c) == Zero(|d|);
    DotZero(d);
    DotCommutes(c, d);
    TimesAdds(REGULARISER, Dot(c, c) + Times(2.0, Dot(d, c)), Dot(d, d));
    TimesAdds(REGULARISER, Dot(c, c), Times(2.0, Dot(d, c)));
    Reorder(REGULARISER, Dot(d, c), Dot(f, r));
  }

  lemma Reorder(a: real, p: real, q: real)
    requires q + Times(a, p) == 0.0
    ensures Times(2.0, q) + Times(a, Times(2.0, p)) == 0.0
  {}

  /** Coefficients that solve the normal equations are the strict minimiser of the regularised squared error. */
  lemma SolutionMinimises(xs: seq<seq<real>>, ys: seq<real>, c: seq<real>, z: seq<real>)
    requires Rectangular(xs, |c|) && |xs| == |ys| && |z| == |c| && SolvesNormal(xs, ys, c)
    ensures Loss(xs, ys, c) <= Loss(xs, ys, z)
    ensures Loss(xs, ys, c) == Loss(xs, ys, z) ==> z == c
  {
    hide Dot, Loss, Fitted;
    var d := Minus(z, c);
    LossExcess(xs, ys, c, z);
    SquareNonNegative(Fitted(xs, d));
    SquareNonNegative(d);
    if Loss(xs, ys, c) == Loss(xs, ys, z) {
      forall i | 0 <= i < |c| ensures z[i] == c[i] {
        TimesSquare(d[i]);
      }
    }
  }

  // ---------------------------------------------------------------- the normal matrix is never singular

  lemma {:induction false} ResidualsAreFitted(xs: seq<seq<real>>, c: seq<real>)
    requires Rectangular(xs, |c|)
    ensures Residuals(xs, Zero(|xs|), c) == Fitted(xs, c)
  {
    if |xs| > 0 {
      var n := |xs| - 1;
      assert Zero(|xs|)[..n] == Zero(n);
      ResidualsAreFitted(xs[..n], c);
    }
  }

  /** Only the zero vector is sent to zero by X'X + 0.01 I. */
  lemma NormalIsDefinite(xs: seq<seq<real>>, v: seq<real>)
    requires Rectangular(xs, |v|) && SolvesNormal(xs, Zero(|xs|), v)
    ensures forall i | 0 <= i < |v| :: v[i] == 0.0
  {
    hide Dot, Residuals, Fitted, Gradient;
    GradientAlong(xs, Zero(|xs|), v, v);
    assert GradientVector(xs, Zero(|xs|), v) == Zero(|v|);
    DotZero(v);
    ResidualsAreFitted(xs, v);
    SquareNonNegative(Fitted(xs, v));
    SquareNonNegative(v);
    forall i | 0 <= i < |v| ensures v[i] == 0.0 { TimesSquare(v[i]); }
  }

  lemma {:induction false} NormalRowIgnoresTargets(xs: seq<seq<real>>, ys: seq<real>, v: seq<real>, i: nat)
    requires Rectangular(xs, |v|) && |xs| == |ys| && i < |v|
    ensures Dot(NormalRow(xs, ys, |v|, i), v + [0.0]) == Gradient(xs, Zero(|xs|), v, i)
  {
    hide Times;
    var u := v + [0.0];
    if |xs| == 0 {
      DotAddScaled(Zero(|u|), REGULARISER, Unit(|u|, i), u);
      DotZero(u);
      DotUnit(i, u);
    } else {
      var n := |xs| - 1;
      assert Zero(|xs|)[..n] == Zero(n);
      NormalRowIgnoresTargets(xs[..n], ys[..n], v, i);
      DotAddScaled(NormalRow(xs[..n], ys[..n], |v|, i), xs[n][i], xs[n] + [ys[n]], u);
      DotAppend(xs[n], ys[n], v, 0.0);
      TimesAdds(ys[n], 0.0, 0.0);
    }
  }

  lemma NullVectorIsZero(xs: seq<seq<real>>, ys: seq<real>, v: seq<real>)
    requires Rectangular(xs, |v|) && |xs| == |ys|
    requires InKernel(NormalSystem(xs, ys, |v|), v + [0.0])
    ensures forall i | 0 <= i < |v| :: v[i] == 0.0
  {
    hide Dot, NormalRow, Gradient;
    var m := NormalSystem(xs, ys, |v|);
    forall i: nat | i < |v| ensures Gradient(xs, Zero(|xs|), v, i) == 0.0 {
      assert Vanishes(m[i], v + [0.0]);
      NormalRowIgnoresTargets(xs, ys, v, i);
    }
    NormalIsDefinite(xs, v);
  }
}
