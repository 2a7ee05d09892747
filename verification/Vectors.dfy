/** Real vectors as sequences, with the few linear facts the regression needs. */
module Vectors {
  function Times(a: real, b: real): real { a * b }

  function Dot(a: seq<real>, b: seq<real>): real
    requires |a| == |b|
  {
    if |a| == 0 then 0.0 else Dot(a[..|a| - 1], b[..|b| - 1]) + Times(a[|a| - 1], b[|b| - 1])
  }

  /** a + c*b, entry by entry. */
  function AddScaled(a: seq<real>, c: real, b: seq<real>): (r: seq<real>)
    requires |a| == |b|
    ensures |r| == |a|
  {
    seq(|a|, i requires 0 <= i < |a| => a[i] + Times(c, b[i]))
  }

  function Zero(n: nat): (r: seq<real>) ensures |r| == n { seq(n, _ => 0.0) }

  function Unit(n: nat, i: nat): (r: seq<real>)
    requires i < n
    ensures |r| == n
  {
    Zero(n)[i := 1.0]
  }

  lemma TimesLinear(a: real, c: real, b: real, x: real)
    ensures Times(a + Times(c, b), x) == Times(a, x) + Times(c, Times(b, x))
  {}

  lemma TimesAdds(c: real, a: real, b: real)
    ensures Times(c, a + b) == Times(c, a) + Times(c, b)
    ensures Times(a + b, c) == Times(a, c) + Times(b, c)
    ensures Times(a, b) == Times(b, a)
  {}

  lemma {:induction false} DotAddScaled(a: seq<real>, c: real, b: seq<real>, x: seq<real>)
    requires |a| == |b| == |x|
    ensures Dot(AddScaled(a, c, b), x) == Dot(a, x) + Times(c, Dot(b, x))
  {
    hide Times;
    if |a| == 0 {
      TimesAdds(c, 0.0, 0.0);
    } else {
      var n := |a| - 1;
      assert AddScaled(a, c, b)[..n] == AddScaled(a[..n], c, b[..n]);
      DotAddScaled(a[..n], c, b[..n], x[..n]);
      TimesLinear(a[n], c, b[n], x[n]);
      TimesAdds(c, Dot(b[..n], x[..n]), Times(b[n], x[n]));
    }
  }

  lemma {:induction false} DotCommutes(a: seq<real>, b: seq<real>)
    requires |a| == |b|
    ensures Dot(a, b) == Dot(b, a)
  {
    if |a| > 0 {
      DotCommutes(a[..|a| - 1], b[..|b| - 1]);
      TimesAdds(a[|a| - 1], b[|b| - 1], 0.0);
      TimesAdds(b[|b| - 1], a[|a| - 1], 0.0);
    }
  }

  lemma {:induction false} DotZero(x: seq<real>)
    ensures Dot(Zero(|x|), x) == 0.0
  {
    if |x| > 0 {
      assert Zero(|x|)[..|x| - 1] == Zero(|x| - 1);
      DotZero(x[..|x| - 1]);
    }
  }

  lemma {:induction false} DotUnit(i: nat, x: seq<real>)
    requires i < |x|
    ensures Dot(Unit(|x|, i), x) == x[i]
  {
    var n := |x| - 1;
    if i == n {
      assert Unit(|x|, i)[..n] == Zero(n);
      DotZero(x[..n]);
    } else {
      assert Unit(|x|, i)[..n] == Unit(n, i);
      DotUnit(i, x[..n]);
    }
  }

  lemma {:induction false} SquareNonNegative(v: seq<real>)
    ensures Dot(v, v) >= 0.0
    ensures forall i | 0 <= i < |v| :: Dot(v, v) >= Times(v[i], v[i])
  {
    if |v| > 0 {
      var n := |v| - 1;
      SquareNonNegative(v[..n]);
      TimesSquare(v[n]);
      forall i | 0 <= i < |v| ensures Dot(v, v) >= Times(v[i], v[i]) {
        TimesSquare(v[i]);
        if i < n { assert v[..n][i] == v[i]; }
      }
    }
  }

  lemma TimesSquare(a: real)
    ensures Times(a, a) >= 0.0
    ensures a != 0.0 ==> Times(a, a) > 0.0
  {
    if a > 0.0 {
      PositiveSquare(a);
    } else if a < 0.0 {
      PositiveSquare(-a);
      assert Times(a, a) == Times(-a, -a);
    }
  }

  lemma PositiveSquare(a: real)
    requires a > 0.0
    ensures Times(a, a) > 0.0
  {
    var square := a * a;
    assert square / a == a;
    assert square > 0.0;
  }

  lemma DotAppend(a: seq<real>, p: real, b: seq<real>, q: real)
    requires |a| == |b|
    ensures Dot(a + [p], b + [q]) == Dot(a, b) + Times(p, q)
  {
    assert (a + [p])[..|a|] == a && (b + [q])[..|b|] == b;
  }
}
