/** Pivoted Gauss-Jordan elimination on the augmented normal system. */
module Elimination {
  import opened Common
  import opened Vectors
  import opened Ridge

  // ---------------------------------------------------------------- row operations keep the solutions

  ghost predicate SameKernel(m: seq<seq<real>>, n: seq<seq<real>>, width: nat)
    requires Rectangular(m, width) && Rectangular(n, width)
  {
    forall v: seq<real> | |v| == width :: InKernel(m, v) <==> InKernel(n, v)
  }

  function Divided(row: seq<real>, scale: real): (r: seq<real>)
    requires scale != 0.0
    ensures |r| == |row|
  {
    seq(|row|, k requires 0 <= k < |row| => row[k] / scale)
  }

  /** The row less `factor` times the pivot row. */
  function Cleared(row: seq<real>, factor: real, pivotRow: seq<real>): (r: seq<real>)
    requires |row| == |pivotRow|
    ensures |r| == |row|
  {
    AddScaled(row, -factor, pivotRow)
  }

  lemma DividedVanishes(row: seq<real>, scale: real, v: seq<real>)
    requires scale != 0.0 && |row| == |v|
    ensures Vanishes(Divided(row, scale), v) <==> Vanishes(row, v)
  {
    hide Dot;
    forall k | 0 <= k < |row| ensures Divided(row, scale)[k] == Times(1.0 / scale, row[k]) { DividedEntry(row[k], scale); }
    assert Divided(row, scale) == AddScaled(Zero(|v|), 1.0 / scale, row);
    DotAddScaled(Zero(|v|), 1.0 / scale, row, v);
    DotZero(v);
    NonzeroFactor(1.0 / scale, Dot(row, v));
  }

  lemma DividedEntry(a: real, scale: real)
    requires scale != 0.0
    ensures a / scale == Times(1.0 / scale, a) && 1.0 / scale != 0.0
  {
    assert (1.0 / scale) * scale == 1.0;
  }

  lemma NonzeroFactor(f: real, d: real)
    requires f != 0.0
    ensures Times(f, d) == 0.0 <==> d == 0.0
  {}

  lemma ClearedVanishes(row: seq<real>, factor: real, pivotRow: seq<real>, v: seq<real>)
    requires |row| == |pivotRow| == |v| && Vanishes(pivotRow, v)
    ensures Vanishes(Cleared(row, factor, pivotRow), v) <==> Vanishes(row, v)
  {
    hide Dot;
    DotAddScaled(row, -factor, pivotRow, v);
  }

  lemma SwapKeepsKernel(m: seq<seq<real>>, a: nat, b: nat, width: nat)
    requires Rectangular(m, width) && a < |m| && b < |m|
    ensures SameKernel(m, m[a := m[b]][b := m[a]], width)
  {
    hide Vanishes;
    var n := m[a := m[b]][b := m[a]];
    forall v: seq<real> | |v| == width ensures InKernel(m, v) <==> InKernel(n, v) {
      if InKernel(m, v) {
        forall i: nat | i < |n| ensures Vanishes(n[i], v) { assert Vanishes(m[a], v) && Vanishes(m[b], v); }
      }
      if InKernel(n, v) {
        assert Vanishes(n[a], v) && Vanishes(n[b], v);
        forall i: nat | i < |m| ensures Vanishes(m[i], v) { assert Vanishes(n[i], v); }
      }
    }
  }

  lemma DivideKeepsKernel(m: seq<seq<real>>, a: nat, scale: real, width: nat)
    requires Rectangular(m, width) && a < |m| && scale != 0.0
    ensures SameKernel(m, m[a := Divided(m[a], scale)], width)
  {
    hide Vanishes;
    var n := m[a := Divided(m[a], scale)];
    forall v: seq<real> | |v| == width ensures InKernel(m, v) <==> InKernel(n, v) {
      DividedVanishes(m[a], scale, v);
      OneRowAgrees(m, n, a, v);
    }
  }

  lemma ClearKeepsKernel(m: seq<seq<real>>, pivot: nat, a: nat, factor: real, width: nat)
    requires Rectangular(m, width) && a < |m| && pivot < |m| && a != pivot
    ensures SameKernel(m, m[a := Cleared(m[a], factor, m[pivot])], width)
  {
    hide Vanishes;
    var n := m[a := Cleared(m[a], factor, m[pivot])];
    forall v: seq<real> | |v| == width ensures InKernel(m, v) <==> InKernel(n, v) {
      if Vanishes(m[pivot], v) {
        ClearedVanishes(m[a], factor, m[pivot], v);
        OneRowAgrees(m, n, a, v);
      } else {
        assert !Vanishes(n[pivot], v);
      }
    }
  }

  lemma OneRowAgrees(m: seq<seq<real>>, n: seq<seq<real>>, a: nat, v: seq<real>)
    requires Rectangular(m, |v|) && Rectangular(n, |v|) && |m| == |n| && a < |m|
    requires forall i | 0 <= i < |m| && i != a :: m[i] == n[i]
    requires Vanishes(m[a], v) <==> Vanishes(n[a], v)
    ensures InKernel(m, v) <==> InKernel(n, v)
  {
    hide Vanishes;
    if InKernel(m, v) {
      forall i: nat | i < |n| ensures Vanishes(n[i], v) { assert Vanishes(m[i], v); }
    }
    if InKernel(n, v) {
      forall i: nat | i < |m| ensures Vanishes(m[i], v) { assert Vanishes(n[i], v); }
    }
  }

  // ---------------------------------------------------------------- reduced columns

  /** Column `c` is the `c`-th unit vector. */
  ghost predicate UnitColumn(m: seq<seq<real>>, width: nat, c: nat)
    requires Rectangular(m, width) && c < width
  {
    forall i: nat | i < |m| :: m[i][c] == (if i == c then 1.0 else 0.0)
  }

  ghost predicate Reduced(m: seq<seq<real>>, width: nat, columns: nat)
    requires Rectangular(m, width) && columns <= width
  {
    forall c: nat | c < columns :: UnitColumn(m, width, c)
  }

  /** The direction a zero pivot column would leave free. */
  ghost function FreeDirection(m: seq<seq<real>>, column: nat): (r: seq<real>)
    requires column < |m| && Rectangular(m, |m| + 1)
    ensures |r| == |m|
  {
    seq(|m|, k requires 0 <= k < |m| => if k < column then -m[k][column] else if k == column then 1.0 else 0.0)
  }

  lemma {:induction false} DotSupport(row: seq<real>, v: seq<real>, n: nat)
    requires |row| == |v| && n <= |v| && forall k | n <= k < |v| :: v[k] == 0.0
    ensures Dot(row, v) == Dot(row[..n], v[..n])
  {
    if n < |v| {
      var l := |v| - 1;
      DotSupport(row[..l], v[..l], n);
      assert row[..l][..n] == row[..n] && v[..l][..n] == v[..n];
      TimesAdds(row[l], 0.0, 0.0);
    } else {
      assert row[..n] == row && v[..n] == v;
    }
  }

  lemma FreeDirectionVanishes(m: seq<seq<real>>, column: nat, i: nat)
    requires column < |m| && Rectangular(m, |m| + 1) && Reduced(m, |m| + 1, column) && i < |m|
    requires forall k | column <= k < |m| :: m[k][column] == 0.0
    ensures Vanishes(m[i], FreeDirection(m, column) + [0.0])
  {
    hide Dot, Reduced, FreeDirection;
    FreeDirectionShows(m, column, i);
  }

  /** Exact arithmetic never meets a zero pivot: the regulariser keeps the system definite. */
  lemma PivotExists(xs: seq<seq<real>>, ys: seq<real>, m: seq<seq<real>>, column: nat)
    requires column < |m| && Rectangular(m, |m| + 1) && Reduced(m, |m| + 1, column)
    requires Rectangular(xs, |m|) && |xs| == |ys| && SameKernel(m, NormalSystem(xs, ys, |m|), |m| + 1)
    ensures exists k :: column <= k < |m| && m[k][column] != 0.0
  {
    if forall k | column <= k < |m| :: m[k][column] == 0.0 {
      var v := FreeDirection(m, column);
      forall i: nat | i < |m| ensures Vanishes(m[i], v + [0.0]) { FreeDirectionVanishes(m, column, i); }
      assert InKernel(m, v + [0.0]);
      assert v[column] == 1.0;
      NullVectorIsZero(xs, ys, v);
    }
  }

  /** A fully reduced system has exactly one solution: its last column. */
  lemma ReducedSolution(m: seq<seq<real>>, c: seq<real>)
    requires Rectangular(m, |m| + 1) && Reduced(m, |m| + 1, |m|) && |c| == |m|
    ensures InKernel(m, c + [-1.0]) <==> c == LastColumn(m)
  {
    hide Dot;
    forall i: nat | i < |m| ensures Vanishes(m[i], c + [-1.0]) <==> c[i] == m[i][|m|] {
      var w := |m| + 1;
      forall k: nat | k < |m| ensures m[i][k] == (if i == k then 1.0 else 0.0) { assert UnitColumn(m, w, k); }
      assert m[i] == Unit(|m|, i) + [m[i][|m|]];
      DotAppend(Unit(|m|, i), m[i][|m|], c, -1.0);
      DotUnit(i, c);
      MinusOne(m[i][|m|]);
    }
    if InKernel(m, c + [-1.0]) {
      forall i: nat | i < |m| ensures c[i] == m[i][|m|] { assert Vanishes(m[i], c + [-1.0]); }
    }
  }

  function LastColumn(m: seq<seq<real>>): (r: seq<real>)
    requires Rectangular(m, |m| + 1)
    ensures |r| == |m|
  {
    seq(|m|, i requires 0 <= i < |m| => m[i][|m|])
  }

  // ---------------------------------------------------------------- how small a pivot can be

  ghost predicate Zeroed(m: seq<seq<real>>, n: nat, u: seq<real>)
    requires Rectangular(m, |u|) && n <= |m|
  {
    forall k: nat | k < n :: Vanishes(m[k], u)
  }

  /** On `u` the row vanishes, or has the value of a row that is not reduced yet. */
  ghost predicate Shown(m: seq<seq<real>>, row: seq<real>, from: nat, u: seq<real>)
    requires Rectangular(m, |u|) && |row| == |u|
  {
    Vanishes(row, u) || exists i: nat | from <= i < |m| :: Dot(row, u) == Dot(m[i], u)
  }

  /** Where the rows reduced so far vanish, every original row vanishes or has the value of a row not yet reduced. */
  ghost predicate Linked(m: seq<seq<real>>, a: seq<seq<real>>, columns: nat, width: nat)
    requires Rectangular(m, width) && Rectangular(a, width) && columns <= |m|
  {
    forall u: seq<real>, j: nat | |u| == width && j < |a| && Zeroed(m, columns, u) :: Shown(m, a[j], columns, u)
  }

  lemma LinkedAtFirst(m: seq<seq<real>>, width: nat)
    requires Rectangular(m, width)
    ensures Linked(m, m, 0, width)
  {
    hide Dot;
    forall u: seq<real>, j: nat | |u| == width && j < |m| && Zeroed(m, 0, u) ensures Shown(m, m[j], 0, u) {
      assert Dot(m[j], u) == Dot(m[j], u);
    }
  }

  lemma SwapKeepsLinked(m: seq<seq<real>>, a: seq<seq<real>>, c: nat, p: nat, width: nat)
    requires Rectangular(m, width) && Rectangular(a, width) && c <= p < |m| && Linked(m, a, c, width)
    ensures Linked(m[c := m[p]][p := m[c]], a, c, width)
  {
    hide Dot, Vanishes;
    var n := m[c := m[p]][p := m[c]];
    forall u: seq<real>, j: nat | |u| == width && j < |a| && Zeroed(n, c, u) ensures Shown(n, a[j], c, u) {
      forall k: nat | k < c ensures Vanishes(m[k], u) { assert n[k] == m[k]; }
      assert Zeroed(m, c, u) && Shown(m, a[j], c, u);
      if !Vanishes(a[j], u) {
        var i: nat :| c <= i < |m| && Dot(a[j], u) == Dot(m[i], u);
        assert n[if i == c then p else if i == p then c else i] == m[i];
      }
    }
  }

  /** Off the pivot row, values agree wherever the pivot row vanishes. */
  ghost predicate AgreeOff(m: seq<seq<real>>, n: seq<seq<real>>, pivot: nat, width: nat)
    requires Rectangular(m, width) && Rectangular(n, width) && |m| == |n| && pivot < |m|
  {
    forall u: seq<real>, k: nat | |u| == width && k < |m| && k != pivot && Vanishes(m[pivot], u) ::
      Dot(n[k], u) == Dot(m[k], u)
  }

  lemma ClearAgrees(m: seq<seq<real>>, n: seq<seq<real>>, pivot: nat, a: nat, factor: real, width: nat)
    requires Rectangular(m, width) && Rectangular(n, width) && |m| == |n| && pivot < |m| && a < |m| && a != pivot
    requires AgreeOff(m, n, pivot, width) && n[pivot] == m[pivot]
    ensures AgreeOff(m, n[a := Cleared(n[a], factor, n[pivot])], pivot, width)
  {
    hide Dot, Times;
    var l := n[a := Cleared(n[a], factor, n[pivot])];
    forall u: seq<real>, k: nat | |u| == width && k < |m| && k != pivot && Vanishes(m[pivot], u)
      ensures Dot(l[k], u) == Dot(m[k], u)
    {
      assert Dot(n[k], u) == Dot(m[k], u);
      DotAddScaled(n[a], -factor, n[pivot], u);
      TimesAdds(-factor, 0.0, 0.0);
    }
  }

  /** One more reduced column: the pivot row no longer counts among the rows to come. */
  lemma StepKeepsLinked(m: seq<seq<real>>, n: seq<seq<real>>, a: seq<seq<real>>, c: nat, scale: real, width: nat)
    requires Rectangular(m, width) && Rectangular(n, width) && Rectangular(a, width) && |m| == |n| && c < |m|
    requires Linked(m, a, c, width) && scale != 0.0
    requires n[c] == Divided(m[c], scale) && AgreeOff(m[c := n[c]], n, c, width)
    ensures Linked(n, a, c + 1, width)
  {
    hide Dot, Vanishes, AgreeOff;
    forall u: seq<real>, j: nat | |u| == width && j < |a| && Zeroed(n, c + 1, u) ensures Shown(n, a[j], c + 1, u) {
      assert Vanishes(n[c], u);
      DividedVanishes(m[c], scale, u);
      forall k: nat | k < |m| && k != c ensures Dot(n[k], u) == Dot(m[k], u) { Agrees(m[c := n[c]], n, c, width, u, k); }
      forall k: nat | k < c ensures Vanishes(m[k], u) { SameVanishes(n[k], m[k], u); }
      assert Zeroed(m, c, u) && Shown(m, a[j], c, u);
      if !Vanishes(a[j], u) {
        var i: nat :| c <= i < |m| && Dot(a[j], u) == Dot(m[i], u);
        if i == c { SameVanishes(m[c], a[j], u); }
        assert c + 1 <= i && Dot(a[j], u) == Dot(n[i], u);
      }
    }
  }

  lemma Agrees(m: seq<seq<real>>, n: seq<seq<real>>, pivot: nat, width: nat, u: seq<real>, k: nat)
    requires Rectangular(m, width) && Rectangular(n, width) && |m| == |n| && pivot < |m| && AgreeOff(m, n, pivot, width)
    requires |u| == width && k < |m| && k != pivot && Vanishes(m[pivot], u)
    ensures Dot(n[k], u) == Dot(m[k], u)
  {}

  lemma SameVanishes(a: seq<real>, b: seq<real>, u: seq<real>)
    requires |a| == |b| == |u| && Dot(a, u) == Dot(b, u)
    ensures Vanishes(a, u) <==> Vanishes(b, u)
  {}

  /** Along the free direction reduced rows vanish, and the others show their entry in the pivot column. */
  lemma FreeDirectionShows(m: seq<seq<real>>, column: nat, i: nat)
    requires column < |m| && Rectangular(m, |m| + 1) && Reduced(m, |m| + 1, column) && i < |m|
    ensures Dot(m[i], FreeDirection(m, column) + [0.0]) == if i < column then 0.0 else m[i][column]
  {
    hide Dot;
    var v := FreeDirection(m, column) + [0.0];
    var head, row := v[..column], m[i][..column];
    DotSupport(m[i], v, column + 1);
    assert v[..column + 1] == head + [1.0] && m[i][..column + 1] == row + [m[i][column]];
    DotAppend(row, m[i][column], head, 1.0);
    var w := |m| + 1;
    forall c: nat | c < column ensures m[i][c] == (if i == c then 1.0 else 0.0) { assert UnitColumn(m, w, c); }
    if i < column {
      assert row == Unit(column, i);
      DotUnit(i, head);
    } else {
      assert row == Zero(column);
      DotZero(head);
    }
  }

  lemma TwiceProduct(g: real, v: real, bound: real)
    requires -bound <= g <= bound
    ensures 2.0 * Times(g, v) <= Times(bound, 1.0 + Times(v, v))
  {
    TimesSquare(v - 1.0);
    TimesSquare(v + 1.0);
    assert Times(v - 1.0, v - 1.0) == Times(v, v) - 2.0 * v + 1.0;
    assert Times(v + 1.0, v + 1.0) == Times(v, v) + 2.0 * v + 1.0;
    BoundedProduct(bound - g, bound + g, Times(v, v) + 1.0, 2.0 * v);
    assert Times(bound, Times(v, v) + 1.0) * 2.0
      == (bound - g) * (Times(v, v) + 1.0) + (bound + g) * (Times(v, v) + 1.0);
    assert 4.0 * Times(g, v) == (bound + g) * (2.0 * v) - (bound - g) * (2.0 * v);
  }

  lemma BoundedProduct(p: real, q: real, s: real, t: real)
    requires p >= 0.0 && q >= 0.0 && -s <= t <= s
    ensures q * t - p * t <= p * s + q * s
  {
    assert q * (s - t) >= 0.0;
    assert p * (s + t) >= 0.0;
  }

  /** A bounded vector along one with `n` entries. */
  lemma {:induction false} BoundedDot(g: seq<real>, v: seq<real>, bound: real, n: nat)
    requires |g| == |v| && bound >= 0.0 && (forall k | 0 <= k < |g| :: -bound <= g[k] <= bound)
    requires forall k | n <= k < |v| :: v[k] == 0.0
    ensures 2.0 * Dot(g, v) <= Times(bound, (if n < |v| then n else |v|) as real + Dot(v, v))
  {
    hide Times;
    if |v| == 0 {
      TimesAdds(bound, 0.0, 0.0);
    } else {
      var l := |v| - 1;
      BoundedDot(g[..l], v[..l], bound, n);
      var count := (if n < l then n else l) as real;
      TwiceProduct(g[l], v[l], bound);
      if n <= l {
        TimesAdds(g[l], 0.0, 0.0);
        TimesAdds(0.0, 0.0, 0.0);
      } else {
        TimesAdds(bound, count + Dot(v[..l], v[..l]), 1.0 + Times(v[l], v[l]));
      }
    }
  }

  lemma Quotient(bound: real, n: real, q: real)
    requires bound >= 0.0 && n >= 0.0 && q >= 1.0 && Times(2.0, Times(REGULARISER, q)) <= Times(bound, n + q)
    ensures bound * (n + 1.0) >= 0.02
  {
    Expanded(bound, n, q);
    CancelFactor(0.02, bound * (n + 1.0), q);
  }

  lemma Expanded(bound: real, n: real, q: real)
    requires bound >= 0.0 && n >= 0.0 && q >= 1.0
    ensures Times(2.0, Times(REGULARISER, q)) == 0.02 * q
    ensures Times(bound, n + q) <= (bound * (n + 1.0)) * q
  {
    assert n * (q - 1.0) >= 0.0;
    assert bound * (n * (q - 1.0)) >= 0.0;
    assert (bound * (n + 1.0)) * q == bound * (n + q) + bound * (n * (q - 1.0));
  }

  lemma CancelFactor(a: real, b: real, q: real)
    requires q >= 1.0 && a * q <= b * q
    ensures a <= b
  {
    DivideMonotone(a * q, b * q, q);
    DivideScale(a, q);
    DivideScale(b, q);
  }

  /** The largest candidate in the pivot column is at least 0.02 over the number of columns reached, and one. */
  lemma PivotIsLarge(xs: seq<seq<real>>, ys: seq<real>, m: seq<seq<real>>, column: nat, bound: real)
    requires column < |m| && Rectangular(m, |m| + 1) && Reduced(m, |m| + 1, column)
    requires Rectangular(xs, |m|) && |xs| == |ys| && Linked(m, NormalSystem(xs, ys, |m|), column, |m| + 1)
    requires bound >= 0.0 && forall k | column <= k < |m| :: Abs(m[k][column]) <= bound
    ensures bound * ((column + 1) as real + 1.0) >= 0.02
  {
    var v := FreeDirection(m, column);
    GradientIsBounded(xs, ys, m, column, bound);
    FreeDirectionEnds(m, column);
    hide *;
    AlongIsLarge(xs, v);
    SquareIsLarge(v, column);
    BoundedDot(GradientVector(xs, Zero(|xs|), v), v, bound, column + 1);
    Doubles(Times(REGULARISER, Dot(v, v)));
    Quotient(bound, (column + 1) as real, Dot(v, v));
  }

  /** Along any direction the gradient of the loss without targets is at least the regulariser's part. */
  lemma AlongIsLarge(xs: seq<seq<real>>, v: seq<real>)
    requires Rectangular(xs, |v|)
    ensures Dot(GradientVector(xs, Zero(|xs|), v), v) >= Times(REGULARISER, Dot(v, v))
  {
    hide Dot, Times, Gradient, Residuals, Fitted;
    GradientAlong(xs, Zero(|xs|), v, v);
    ResidualsAreFitted(xs, v);
    SquareNonNegative(Fitted(xs, v));
  }

  lemma SquareIsLarge(v: seq<real>, k: nat)
    requires k < |v| && v[k] == 1.0
    ensures Dot(v, v) >= 1.0
  {
    hide Dot, Times;
    SquareNonNegative(v);
    TimesOne();
  }

  lemma Doubles(a: real)
    ensures Times(2.0, a) == 2.0 * a
  {}

  lemma TimesOne()
    ensures Times(1.0, 1.0) == 1.0
  {}

  lemma FreeDirectionEnds(m: seq<seq<real>>, column: nat)
    requires column < |m| && Rectangular(m, |m| + 1)
    ensures FreeDirection(m, column)[column] == 1.0
    ensures forall k | column + 1 <= k < |m| :: FreeDirection(m, column)[k] == 0.0
  {}

  lemma GradientIsBounded(xs: seq<seq<real>>, ys: seq<real>, m: seq<seq<real>>, column: nat, bound: real)
    requires column < |m| && Rectangular(m, |m| + 1) && Reduced(m, |m| + 1, column)
    requires Rectangular(xs, |m|) && |xs| == |ys| && Linked(m, NormalSystem(xs, ys, |m|), column, |m| + 1)
    requires bound >= 0.0 && forall k | column <= k < |m| :: Abs(m[k][column]) <= bound
    ensures var g := GradientVector(xs, Zero(|xs|), FreeDirection(m, column));
      forall j | 0 <= j < |m| :: -bound <= g[j] <= bound
  {
    hide Dot, Gradient, NormalRow;
    var v, a := FreeDirection(m, column), NormalSystem(xs, ys, |m|);
    var u := v + [0.0];
    forall k: nat | k < column ensures Vanishes(m[k], u) { FreeDirectionShows(m, column, k); }
    assert Zeroed(m, column, u);
    forall j: nat | j < |m| ensures -bound <= GradientVector(xs, Zero(|xs|), v)[j] <= bound {
      NormalRowIgnoresTargets(xs, ys, v, j);
      assert Shown(m, a[j], column, u);
      if !Vanishes(a[j], u) {
        var i: nat :| column <= i < |m| && Dot(a[j], u) == Dot(m[i], u);
        FreeDirectionShows(m, column, i);
      }
    }
  }

  // ---------------------------------------------------------------- the algorithm

  /** Only the first `width` entries of a sample take part. */
  ghost function Samples(features: seq<seq<real>>, width: nat): (r: seq<seq<real>>)
    requires forall k | 0 <= k < |features| :: |features[k]| >= width
    ensures |r| == |features| && Rectangular(r, width)
  {
    seq(|features|, k requires 0 <= k < |features| => features[k][..width])
  }

  method NormalEntry(features: seq<seq<real>>, width: nat, ghost ys: seq<real>, i: nat, j: nat) returns (e: real)
    requires forall k | 0 <= k < |features| :: |features[k]| >= width
    requires |ys| == |features| && i < width && j < width
    ensures e == NormalRow(Samples(features, width), ys, width, i)[j]
  {
    ghost var xs := Samples(features, width);
    var total := 0.0;
    var extra := if i == j then REGULARISER else 0.0;
    StartEntry(width, i, j);
    for n := 0 to |features|
      invariant total + extra == NormalRow(xs[..n], ys[..n], width, i)[j]
    {
      hide Times;
      assert xs[..n + 1][..n] == xs[..n] && ys[..n + 1][..n] == ys[..n];
      total := total + Times(features[n][i], features[n][j]);
    }
    assert xs[..|xs|] == xs && ys[..|ys|] == ys;
    e := total + extra;
  }

  lemma StartEntry(width: nat, i: nat, j: nat)
    requires i < width && j <= width
    ensures NormalRow([], [], width, i)[j] == if i == j then REGULARISER else 0.0
  {
    TimesAdds(REGULARISER, 0.0, 0.0);
  }

  method NormalTarget(features: seq<seq<real>>, width: nat, targets: seq<real>, i: nat) returns (e: real)
    requires forall k | 0 <= k < |features| :: |features[k]| >= width
    requires |targets| == |features| && i < width
    ensures e == NormalRow(Samples(features, width), targets, width, i)[width]
  {
    ghost var xs := Samples(features, width);
    e := 0.0;
    StartEntry(width, i, width);
    for n := 0 to |features|
      invariant e == NormalRow(xs[..n], targets[..n], width, i)[width]
    {
      hide Times;
      assert xs[..n + 1][..n] == xs[..n] && targets[..n + 1][..n] == targets[..n];
      e := e + Times(features[n][i], targets[n]);
    }
    assert xs[..|xs|] == xs && targets[..|targets|] == targets;
  }

  method BuildSystem(features: seq<seq<real>>, width: nat, targets: seq<real>) returns (m: seq<seq<real>>)
    requires forall k | 0 <= k < |features| :: |features[k]| >= width
    requires |targets| == |features|
    ensures m == NormalSystem(Samples(features, width), targets, width)
  {
    hide NormalRow, Samples;
    ghost var all := NormalSystem(Samples(features, width), targets, width);
    m := [];
    for i := 0 to width
      invariant m == all[..i]
    {
      var row := [];
      for j := 0 to width
        invariant row == all[i][..j]
      {
        var e := NormalEntry(features, width, targets, i, j);
        row := row + [e];
      }
      var y := NormalTarget(features, width, targets, i);
      row := row + [y];
      assert row == all[i];
      m := m + [row];
    }
  }

  /** The first row at or below `column` with the largest entry in it. */
  method FindPivot(m: seq<seq<real>>, column: nat) returns (pivot: nat)
    requires column < |m| && Rectangular(m, |m| + 1)
    ensures column <= pivot < |m|
    ensures forall k | column <= k < |m| :: Abs(m[k][column]) <= Abs(m[pivot][column])
  {
    pivot := column;
    for k := column + 1 to |m|
      invariant column <= pivot < k
      invariant forall l | column <= l < k :: Abs(m[l][column]) <= Abs(m[pivot][column])
    {
      if Abs(m[k][column]) > Abs(m[pivot][column]) { pivot := k; }
    }
  }

  lemma SwapKeepsReduced(m: seq<seq<real>>, a: nat, b: nat)
    requires Rectangular(m, |m| + 1) && a <= b < |m| && Reduced(m, |m| + 1, a)
    ensures Reduced(m[a := m[b]][b := m[a]], |m| + 1, a)
  {
    var n, w := m[a := m[b]][b := m[a]], |m| + 1;
    forall c: nat | c < a ensures UnitColumn(n, w, c) { assert UnitColumn(m, w, c); }
  }

  lemma DivideKeepsReduced(m: seq<seq<real>>, a: nat)
    requires Rectangular(m, |m| + 1) && a < |m| && Reduced(m, |m| + 1, a) && m[a][a] != 0.0
    ensures var n := m[a := Divided(m[a], m[a][a])]; Reduced(n, |m| + 1, a) && n[a][a] == 1.0
  {
    var n, w := m[a := Divided(m[a], m[a][a])], |m| + 1;
    forall c: nat | c < a ensures UnitColumn(n, w, c) { assert UnitColumn(m, w, c); }
  }

  lemma ClearKeepsReduced(m: seq<seq<real>>, pivot: nat, a: nat)
    requires Rectangular(m, |m| + 1) && a < |m| && pivot < |m| && a != pivot
    requires Reduced(m, |m| + 1, pivot) && m[pivot][pivot] == 1.0
    ensures var n := m[a := Cleared(m[a], m[a][pivot], m[pivot])];
      Reduced(n, |m| + 1, pivot) && n[a][pivot] == 0.0
  {
    var n, w := m[a := Cleared(m[a], m[a][pivot], m[pivot])], |m| + 1;
    forall c: nat | c < pivot ensures UnitColumn(n, w, c) {
      assert UnitColumn(m, w, c);
      assert m[pivot][c] == 0.0;
    }
  }

  /** Make column `column` a unit vector, its pivot row being already normalised. */
  method ClearColumn(start: seq<seq<real>>, column: nat) returns (m: seq<seq<real>>)
    requires Rectangular(start, |start| + 1) && column < |start|
    requires Reduced(start, |start| + 1, column) && start[column][column] == 1.0
    ensures |m| == |start| && Rectangular(m, |m| + 1) && Reduced(m, |m| + 1, column + 1)
    ensures SameKernel(m, start, |m| + 1) && m[column] == start[column] && AgreeOff(start, m, column, |m| + 1)
  {
    hide InKernel;
    m := start;
    for index := 0 to |m|
      invariant |m| == |start| && Rectangular(m, |m| + 1) && Reduced(m, |m| + 1, column)
      invariant m[column] == start[column] && m[column][column] == 1.0 && AgreeOff(start, m, column, |m| + 1)
      invariant forall i | 0 <= i < index && i != column :: m[i][column] == 0.0
      invariant SameKernel(m, start, |m| + 1)
    {
      hide Reduced, Cleared, AgreeOff, SameKernel;
      if index != column {
        var factor := m[index][column];
        ClearAgrees(start, m, column, index, factor, |m| + 1);
        ClearKeepsKernel(m, column, index, factor, |m| + 1);
        ClearKeepsReduced(m, column, index);
        m := m[index := Cleared(m[index], factor, m[column])];
      }
    }
    assert UnitColumn(m, |m| + 1, column);
  }

  lemma KernelChain(system: seq<seq<real>>, a: seq<seq<real>>, b: seq<seq<real>>, c: seq<seq<real>>, d: seq<seq<real>>,
                    width: nat)
    requires Rectangular(system, width) && Rectangular(a, width) && Rectangular(b, width) && Rectangular(c, width)
    requires Rectangular(d, width) && SameKernel(a, system, width) && SameKernel(a, b, width)
    requires SameKernel(b, c, width) && SameKernel(d, c, width)
    ensures SameKernel(d, system, width)
  {
    hide InKernel;
  }

  /** So few features that every pivot clears the threshold: fewer than twenty thousand million. */
  ghost predicate Manageable(width: nat) { PIVOT_THRESHOLD * (width as real + 1.0) < 0.02 }

  lemma TooWide(scale: real, column: nat, width: nat)
    requires 0.0 <= scale < PIVOT_THRESHOLD && column < width && scale * ((column + 1) as real + 1.0) >= 0.02
    ensures !Manageable(width)
  {
    Products(scale, PIVOT_THRESHOLD, (column + 1) as real + 1.0, width as real + 1.0);
  }

  lemma Products(scale: real, threshold: real, reached: real, width: real)
    requires 0.0 <= scale <= threshold && 0.0 <= reached <= width
    ensures scale * reached <= threshold * width
  {
    ScaleMonotone(scale, threshold, reached);
    ScaleMonotone(reached, width, threshold);
  }

  lemma PivotIsFound(xs: seq<seq<real>>, ys: seq<real>, m: seq<seq<real>>, column: nat, pivot: nat)
    requires column <= pivot < |m| && Rectangular(m, |m| + 1) && Reduced(m, |m| + 1, column)
    requires Rectangular(xs, |m|) && |xs| == |ys| && SameKernel(m, NormalSystem(xs, ys, |m|), |m| + 1)
    requires Linked(m, NormalSystem(xs, ys, |m|), column, |m| + 1)
    requires forall k | column <= k < |m| :: Abs(m[k][column]) <= Abs(m[pivot][column])
    ensures m[pivot][column] != 0.0
    ensures Abs(m[pivot][column]) * ((column + 1) as real + 1.0) >= 0.02
  {
    hide InKernel, Reduced, NormalSystem, Linked, SameKernel;
    PivotExists(xs, ys, m, column);
    PivotIsLarge(xs, ys, m, column, Abs(m[pivot][column]));
  }

  /** One column: bring up the largest pivot, normalise its row, clear the rest of the column. */
  method ReduceColumn(ghost xs: seq<seq<real>>, ghost ys: seq<real>, start: seq<seq<real>>, column: nat)
    returns (r: Option<seq<seq<real>>>, scale: real)
    requires column < |start| && Rectangular(start, |start| + 1) && Reduced(start, |start| + 1, column)
    requires Rectangular(xs, |start|) && |xs| == |ys|
    requires SameKernel(start, NormalSystem(xs, ys, |start|), |start| + 1)
    requires Linked(start, NormalSystem(xs, ys, |start|), column, |start| + 1)
    ensures r.None? <==> Abs(scale) < PIVOT_THRESHOLD
    ensures scale != 0.0 && Abs(scale) * ((column + 1) as real + 1.0) >= 0.02
    ensures r.None? ==> !Manageable(|start|)
    ensures r.Some? ==>
      && |r.value| == |start| && Rectangular(r.value, |start| + 1) && Reduced(r.value, |start| + 1, column + 1)
      && SameKernel(r.value, NormalSystem(xs, ys, |start|), |start| + 1)
      && Linked(r.value, NormalSystem(xs, ys, |start|), column + 1, |start| + 1)
  {
    hide InKernel, Reduced, NormalSystem, Linked, AgreeOff, SameKernel, Manageable, Divided;
    var m, width := start, |start|;
    var pivot := FindPivot(m, column);
    PivotIsFound(xs, ys, m, column, pivot);
    ghost var system := NormalSystem(xs, ys, width);
    SwapKeepsKernel(m, column, pivot, width + 1);
    SwapKeepsReduced(m, column, pivot);
    SwapKeepsLinked(m, system, column, pivot, width + 1);
    m := m[column := m[pivot]][pivot := m[column]];
    ghost var swapped := m;
    scale := m[column][column];
    if Abs(scale) < PIVOT_THRESHOLD {
      TooWide(Abs(scale), column, width);
      return None, scale;
    }
    DivideKeepsKernel(m, column, scale, width + 1);
    DivideKeepsReduced(m, column);
    m := m[column := Divided(m[column], scale)];
    var cleared := ClearColumn(m, column);
    StepKeepsLinked(swapped, cleared, system, column, scale, width + 1);
    KernelChain(system, start, swapped, m, cleared, width + 1);
    r := Some(cleared);
  }

  /** The normal equations are solved by `c` and by nothing else. */
  ghost predicate OnlySolution(xs: seq<seq<real>>, ys: seq<real>, c: seq<real>)
    requires Rectangular(xs, |c|) && |xs| == |ys|
  {
    && SolvesNormal(xs, ys, c)
    && forall d: seq<real> | |d| == |c| && SolvesNormal(xs, ys, d) :: d == c
  }

  /** All columns in turn; a fully reduced system carries its solution in the last column. */
  method Eliminate(ghost xs: seq<seq<real>>, ghost ys: seq<real>, system: seq<seq<real>>)
    returns (result: Option<seq<real>>)
    requires Rectangular(xs, |system|) && |xs| == |ys| && system == NormalSystem(xs, ys, |system|)
    ensures result.Some? ==> |result.value| == |system| && OnlySolution(xs, ys, result.value)
    ensures Manageable(|system|) ==> result.Some?
  {
    var m, width := system, |system|;
    StartsWell(m, width + 1);
    hide *;
    for column := 0 to width
      invariant |m| == |system| && Rectangular(m, |m| + 1) && Reduced(m, |m| + 1, column)
      invariant SameKernel(m, system, |m| + 1) && Linked(m, system, column, |m| + 1)
    {
      var reduced, scale := ReduceColumn(xs, ys, m, column);
      if reduced.None? { return None; }
      m := reduced.value;
    }
    Unique(xs, ys, m);
    result := Some(LastColumn(m));
  }

  /**
   The regression: coefficients are returned only when they are the unique solution of the regularised normal
   equations. Every pivot is at least 0.02 over the number of columns and one, so in exact arithmetic well-formed data
   is never declined, unless there are more than twenty thousand million features.
   */
  method Solve(features: seq<seq<real>>, targets: seq<real>) returns (result: Option<seq<real>>)
    requires |features| > 0 ==> forall k | 0 <= k < |features| :: |features[k]| >= |features[0]|
    ensures (|features| == 0 || |features| != |targets|) ==> result.None?
    ensures result.Some? ==>
      && |result.value| == |features[0]|
      && OnlySolution(Samples(features, |features[0]|), targets, result.value)
    ensures |features| > 0 && |features| == |targets| && Manageable(|features[0]|) ==> result.Some?
  {
    hide *;
    if |features| == 0 || |features| != |targets| { return None; }
    var width := |features[0]|;
    ghost var xs := Samples(features, width);
    var m := BuildSystem(features, width, targets);
    result := Eliminate(xs, targets, m);
  }

  lemma StartsWell(m: seq<seq<real>>, width: nat)
    requires Rectangular(m, width)
    ensures Reduced(m, width, 0) && SameKernel(m, m, width) && Linked(m, m, 0, width)
  {
    LinkedAtFirst(m, width);
  }

  lemma Unique(xs: seq<seq<real>>, ys: seq<real>, m: seq<seq<real>>)
    requires Rectangular(m, |m| + 1) && Reduced(m, |m| + 1, |m|)
    requires Rectangular(xs, |m|) && |xs| == |ys| && SameKernel(m, NormalSystem(xs, ys, |m|), |m| + 1)
    ensures OnlySolution(xs, ys, LastColumn(m))
  {
    hide InKernel, SolvesNormal, Reduced, NormalSystem;
    forall c: seq<real> | |c| == |m| ensures SolvesNormal(xs, ys, c) <==> c == LastColumn(m) {
      ReducedSolution(m, c);
      KernelIsSolution(xs, ys, c);
    }
  }
}
