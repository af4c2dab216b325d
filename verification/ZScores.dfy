/** Squared z-scores of a column with its population variance, and how many of them can exceed
    the cut at three standard deviations (z > 3 is z * z > 9, so no square root is needed). */
module ZScores {

  function Sum(s: seq<real>): real {
    if s == [] then 0.0 else s[0] + Sum(s[1..])
  }

  function Mean(s: seq<real>): real
    requires s != []
  {
    Sum(s) / (|s| as real)
  }

  function Squared(x: real): (y: real)
    ensures y >= 0.0
  {
    x * x
  }

  /** The sum of the squared distances from m. */
  function Scatter(s: seq<real>, m: real): (r: real)
    ensures r >= 0.0
  {
    if s == [] then 0.0 else Squared(s[0] - m) + Scatter(s[1..], m)
  }

  lemma {:induction false} Quotient(a: real, n: real, q: real)
    requires n > 0.0 && a >= 0.0 && q == a / n
    ensures q >= 0.0 && q * n == a
  {
  }

  function Ratio(a: real, n: real): (q: real)
    requires n > 0.0 && a >= 0.0
    ensures q >= 0.0
  {
    a / n
  }

  /** The population variance (ddof = 0). */
  function Variance(s: seq<real>): (v: real)
    requires s != []
    ensures v >= 0.0
  {
    Ratio(Scatter(s, Mean(s)), |s| as real)
  }

  /** The squared z-score of a value; a constant column scores 0. */
  function SquaredZ(x: real, m: real, v: real): (z: real)
    requires v >= 0.0
    ensures z >= 0.0
    ensures z > 9.0 <==> v > 0.0 && Squared(x - m) > 9.0 * v
  {
    if v == 0.0 then 0.0
    else
      var z := Ratio(Squared(x - m), v);
      Quotient(Squared(x - m), v, z);
      CutAt(z, v, Squared(x - m));
      z
  }

  lemma {:induction false} CutAt(z: real, v: real, d: real)
    requires v > 0.0 && z * v == d
    ensures z > 9.0 <==> d > 9.0 * v
  {
  }

  function SquaredZsAt(s: seq<real>, m: real, v: real): (zs: seq<real>)
    requires v >= 0.0
    ensures |zs| == |s| && forall j :: 0 <= j < |s| ==> zs[j] >= 0.0
    ensures forall j :: 0 <= j < |s| && zs[j] > 9.0 ==> v > 0.0 && Squared(s[j] - m) > 9.0 * v
  {
    if s == [] then [] else [SquaredZ(s[0], m, v)] + SquaredZsAt(s[1..], m, v)
  }

  /** The scores of a whole column. */
  function SquaredZs(s: seq<real>): (zs: seq<real>)
    ensures |zs| == |s| && forall j :: 0 <= j < |s| ==> zs[j] >= 0.0
  {
    if s == [] then [] else SquaredZsAt(s, Mean(s), Variance(s))
  }

  // ---- What the scores are ------------------------------------------------------------------------------------

  /** Sums are taken value by value. */
  lemma {:induction false} SumAdds(a: seq<real>, b: seq<real>, x: real)
    ensures Sum([]) == 0.0 && Sum([x]) == x && Sum(a + b) == Sum(a) + Sum(b)
  {
    if a == [] {
      assert a + b == b;
    } else {
      assert (a + b)[1..] == a[1..] + b;
      SumAdds(a[1..], b, x);
    }
  }

  lemma {:induction false} ScatterAdds(a: seq<real>, b: seq<real>, x: real, m: real)
    ensures Scatter([], m) == 0.0 && Scatter([x], m) == (x - m) * (x - m)
    ensures Scatter(a + b, m) == Scatter(a, m) + Scatter(b, m)
  {
    if a == [] {
      assert a + b == b;
    } else {
      assert (a + b)[1..] == a[1..] + b;
      ScatterAdds(a[1..], b, x, m);
    }
  }

  lemma {:induction false} Divides(a: real, n: real)
    requires n != 0.0
    ensures a / n * n == a
  {
  }

  /** z is the square of the standard score of x. */
  predicate Score(x: real, m: real, v: real, z: real) {
    if v == 0.0 then z == 0.0 else z * v == (x - m) * (x - m)
  }

  /** The scores zs of s are those for the mean m and the variance v, the mean of the squared
      distances from m; where there is no variance every score is 0. */
  ghost predicate Standard(s: seq<real>, m: real, v: real, zs: seq<real>) {
    && |zs| == |s| && m * (|s| as real) == Sum(s) && v >= 0.0 && v * (|s| as real) == Scatter(s, m)
    && forall j :: 0 <= j < |s| ==> Score(s[j], m, v, zs[j])
  }

  lemma {:induction false} ScoreOf(x: real, m: real, v: real)
    requires v >= 0.0
    ensures Score(x, m, v, SquaredZ(x, m, v))
  {
    if v > 0.0 { Divides(Squared(x - m), v); }
  }

  lemma {:induction false} ScoreAt(s: seq<real>, m: real, v: real, j: nat)
    requires v >= 0.0 && j < |s|
    ensures Score(s[j], m, v, SquaredZsAt(s, m, v)[j])
  {
    if j > 0 { ScoreAt(s[1..], m, v, j - 1); } else { ScoreOf(s[0], m, v); }
  }

  lemma {:induction false} MeanTimes(s: seq<real>)
    requires s != []
    ensures Mean(s) * (|s| as real) == Sum(s)
  {
    Divides(Sum(s), |s| as real);
  }

  /** The mean and variance behind the scores of a column. */
  lemma {:induction false} Moments(s: seq<real>) returns (m: real, v: real)
    requires s != []
    ensures m * (|s| as real) == Sum(s)
    ensures v >= 0.0 && v * (|s| as real) == Scatter(s, m) && SquaredZs(s) == SquaredZsAt(s, m, v)
  {
    m, v := Mean(s), Variance(s);
    MeanTimes(s);
    Quotient(Scatter(s, m), |s| as real, v);
  }

  /** The scores of every column are standard scores. */
  lemma {:induction false} ScoresAreStandard(s: seq<real>) returns (m: real, v: real)
    requires s != []
    ensures Standard(s, m, v, SquaredZs(s))
  {
    m, v := Moments(s);
    forall j | 0 <= j < |s| ensures Score(s[j], m, v, SquaredZsAt(s, m, v)[j]) { ScoreAt(s, m, v, j); }
  }

  lemma {:induction false} NoSquare(x: real)
    ensures x * x >= 0.0 && (x * x == 0.0 <==> x == 0.0)
  {
    if x > 0.0 { NoProduct(x, x); }
    if x < 0.0 { NoProduct(-x, -x); }
  }

  lemma {:induction false} NoScatter(s: seq<real>, m: real)
    ensures Scatter(s, m) == 0.0 <==> forall i :: 0 <= i < |s| ==> s[i] == m
  {
    if s != [] {
      NoScatter(s[1..], m);
      assert forall i :: 1 <= i < |s| ==> s[i] == s[1..][i - 1];
      assert forall i :: 0 <= i < |s[1..]| ==> s[1..][i] == s[i + 1];
      NoSquare(s[0] - m);
    }
  }

  lemma {:induction false} NoProduct(v: real, n: real)
    requires n > 0.0
    ensures v * n == 0.0 <==> v == 0.0
  {
  }

  lemma {:induction false} CancelRight(a: real, b: real, n: real)
    requires n > 0.0 && a * n == b * n
    ensures a == b
  {
    NoProduct(a - b, n);
    assert (a - b) * n == a * n - b * n;
  }

  lemma {:induction false} SumOfConstant(s: seq<real>, x: real)
    requires forall i :: 0 <= i < |s| ==> s[i] == x
    ensures Sum(s) == x * (|s| as real)
  {
    if s != [] {
      SumOfConstant(s[1..], x);
      assert x * (|s| as real) == x + x * (|s[1..]| as real);
    }
  }

  /** There is no variance exactly in a constant column. */
  lemma {:induction false} NoVarianceIsConstant(s: seq<real>, m: real, v: real, zs: seq<real>)
    requires s != [] && Standard(s, m, v, zs)
    ensures v == 0.0 <==> forall i :: 0 <= i < |s| ==> s[i] == s[0]
  {
    NoProduct(v, |s| as real);
    NoScatter(s, m);
    if forall i :: 0 <= i < |s| ==> s[i] == s[0] {
      SumOfConstant(s, s[0]);
      CancelRight(m, s[0], |s| as real);
    }
  }

  lemma {:induction false} DeviationSum(s: seq<real>, d: seq<real>, m: real)
    requires |d| == |s| && forall i :: 0 <= i < |s| ==> d[i] == s[i] - m
    ensures Sum(d) == Sum(s) - m * (|s| as real)
  {
    if s != [] {
      DeviationSum(s[1..], d[1..], m);
      assert m * (|s| as real) == m + m * (|s[1..]| as real);
    }
  }

  /** The deviations from the mean add up to 0. */
  lemma {:induction false} DeviationsCancel(s: seq<real>, m: real, v: real, zs: seq<real>, d: seq<real>)
    requires Standard(s, m, v, zs) && |d| == |s| && forall i :: 0 <= i < |s| ==> d[i] == s[i] - m
    ensures Sum(d) == 0.0
  {
    DeviationSum(s, d, m);
  }

  lemma {:induction false} Distributes(a: real, b: real, c: real)
    ensures (a + b) * c == a * c + b * c
  {
  }

  lemma {:induction false} DistributesLeft(a: real, b: real, c: real)
    ensures a * (b + c) == a * b + a * c
  {
  }

  lemma {:induction false} Associates(a: real, b: real, c: real)
    ensures a * b * c == a * (b * c)
  {
  }

  lemma {:induction false} Commutes(a: real, b: real)
    ensures a * b == b * a
  {
  }

  lemma {:induction false} ScoreSum(s: seq<real>, m: real, v: real, zs: seq<real>)
    requires v > 0.0 && |zs| == |s| && forall j :: 0 <= j < |s| ==> Score(s[j], m, v, zs[j])
    ensures Sum(zs) * v == Scatter(s, m)
  {
    if s != [] {
      ScoreSum(s[1..], m, v, zs[1..]);
      assert Score(s[0], m, v, zs[0]);
      Distributes(zs[0], Sum(zs[1..]), v);
    }
  }

  /** The squared scores of a column that is not constant add up to the number of its values. */
  lemma {:induction false} ScoresAddUp(s: seq<real>, m: real, v: real, zs: seq<real>)
    requires |zs| == |s| && v > 0.0 && v * (|s| as real) == Scatter(s, m)
    requires forall j :: 0 <= j < |s| ==> Score(s[j], m, v, zs[j])
    ensures Sum(zs) == |s| as real
  {
    ScoreSum(s, m, v, zs);
    SameFactor(Sum(zs), |s| as real, v, Scatter(s, m));
  }

  lemma {:induction false} SameFactor(a: real, b: real, v: real, p: real)
    requires v > 0.0 && a * v == p && v * b == p
    ensures a == b
  {
    Commutes(v, b);
    CancelRight(a, b, v);
  }

  lemma {:induction false} AffineSum(s: seq<real>, t: seq<real>, k: real, b: real)
    requires |t| == |s| && forall i :: 0 <= i < |s| ==> t[i] == k * s[i] + b
    ensures Sum(t) == k * Sum(s) + b * (|s| as real)
  {
    if s != [] {
      AffineSum(s[1..], t[1..], k, b);
      assert k * Sum(s) == k * s[0] + k * Sum(s[1..]);
      assert b * (|s| as real) == b + b * (|s[1..]| as real);
    }
  }

  lemma {:induction false} ScaledSquare(k: real, x: real, m: real, b: real)
    ensures (k * x + b - (k * m + b)) * (k * x + b - (k * m + b)) == k * k * ((x - m) * (x - m))
  {
    var d := x - m;
    assert k * x + b - (k * m + b) == k * d;
    assert (k * d) * (k * d) == (k * k) * (d * d);
  }

  lemma {:induction false} ScaledDistance(k: real, x: real, m: real, b: real, y: real)
    requires y == k * x + b
    ensures Squared(y - (k * m + b)) == k * k * Squared(x - m)
  {
    ScaledSquare(k, x, m, b);
  }

  lemma {:induction false} AffineScatter(s: seq<real>, t: seq<real>, k: real, b: real, m: real)
    requires |t| == |s| && forall i :: 0 <= i < |s| ==> t[i] == k * s[i] + b
    ensures Scatter(t, k * m + b) == k * k * Scatter(s, m)
  {
    if s != [] {
      AffineScatter(s[1..], t[1..], k, b, m);
      var x, y := s[0], t[0];
      ScaledDistance(k, x, m, b, y);
      DistributesLeft(k * k, Squared(x - m), Scatter(s[1..], m));
      assert Scatter(t, k * m + b) == Squared(y - (k * m + b)) + Scatter(t[1..], k * m + b);
    }
  }

  lemma {:induction false} AffineMoments(s: seq<real>, m: real, v: real, zs: seq<real>,
                                         t: seq<real>, m': real, v': real, zs': seq<real>, k: real, b: real)
    requires s != [] && Standard(s, m, v, zs) && Standard(t, m', v', zs')
    requires |t| == |s| && forall i :: 0 <= i < |s| ==> t[i] == k * s[i] + b
    ensures m' == k * m + b && v' == k * k * v
  {
    var n := |s| as real;
    AffineSum(s, t, k, b);
    Associates(k, m, n);
    Distributes(k * m, b, n);
    CancelRight(m', k * m + b, n);
    AffineScatter(s, t, k, b, m);
    Associates(k * k, v, n);
    CancelRight(v', k * k * v, n);
  }

  lemma {:induction false} SameQuotient(z: real, y: real, q: real, v: real, d: real)
    requires q > 0.0 && v > 0.0 && z * v == d && y * (q * v) == q * d
    ensures y == z
  {
    assert y * (q * v) == y * v * q && q * d == z * v * q;
    CancelRight(y * v, z * v, q);
    CancelRight(y, z, v);
  }

  lemma {:induction false} SameScore(x: real, m: real, v: real, z: real, x': real, m': real, v': real, z': real, k: real, b: real)
    requires k != 0.0 && v >= 0.0 && Score(x, m, v, z) && Score(x', m', v', z')
    requires x' == k * x + b && m' == k * m + b && v' == k * k * v
    ensures z' == z
  {
    NoSquare(k);
    if v > 0.0 {
      NoProduct(k * k, v);
      ScaledSquare(k, x, m, b);
      SameQuotient(z, z', k * k, v, (x - m) * (x - m));
    }
  }

  lemma {:induction false} InvariantScores(s: seq<real>, m: real, v: real, zs: seq<real>,
                                           t: seq<real>, m': real, v': real, zs': seq<real>, k: real, b: real)
    requires s != [] && Standard(s, m, v, zs) && Standard(t, m', v', zs') && k != 0.0
    requires |t| == |s| && forall i :: 0 <= i < |s| ==> t[i] == k * s[i] + b
    ensures zs' == zs
  {
    AffineMoments(s, m, v, zs, t, m', v', zs', k, b);
    forall j | 0 <= j < |s| ensures zs'[j] == zs[j] {
      assert Score(s[j], m, v, zs[j]) && Score(t[j], m', v', zs'[j]);
      SameScore(s[j], m, v, zs[j], t[j], m', v', zs'[j], k, b);
    }
  }

  /** Scores depend neither on the unit nor on the origin of a column. */
  lemma {:induction false} ScoresAreInvariant(s: seq<real>, t: seq<real>, k: real, b: real)
    requires |t| == |s| && (forall i :: 0 <= i < |s| ==> t[i] == k * s[i] + b) && k != 0.0
    ensures SquaredZs(t) == SquaredZs(s)
  {
    if s != [] {
      var m, v := ScoresAreStandard(s);
      var m', v' := ScoresAreStandard(t);
      InvariantScores(s, m, v, SquaredZs(s), t, m', v', SquaredZs(t), k, b);
    }
  }

  /** How many scores exceed the cut. */
  function Exceeding(zs: seq<real>): nat {
    if zs == [] then 0 else (if zs[0] > 9.0 then 1 else 0) + Exceeding(zs[1..])
  }

  // ---- Fewer than a ninth -----------------------------------------------------------------------------------

  lemma {:induction false} OneMore(v: real, k: nat)
    ensures 9.0 * v * ((k + 1) as real) == 9.0 * v * (k as real) + 9.0 * v
  {
  }

  /** Every score over the cut takes more than 9 v of the scatter. */
  lemma {:induction false} ScatterBoundsExceeding(s: seq<real>, zs: seq<real>, m: real, v: real)
    requires |zs| == |s| && v >= 0.0 && forall j :: 0 <= j < |s| && zs[j] > 9.0 ==> Squared(s[j] - m) > 9.0 * v
    ensures 9.0 * v * (Exceeding(zs) as real) <= Scatter(s, m)
    ensures Exceeding(zs) > 0 ==> 9.0 * v * (Exceeding(zs) as real) < Scatter(s, m)
  {
    if s != [] {
      ScatterBoundsExceeding(s[1..], zs[1..], m, v);
      if zs[0] > 9.0 { OneMore(v, Exceeding(zs[1..])); }
    }
  }

  lemma {:induction false} CancelFactor(a: nat, b: nat, v: real, total: real)
    requires v > 0.0 && 9.0 * v * (a as real) < total && v * (b as real) == total
    ensures 9 * a < b
  {
    assert v * (9.0 * (a as real)) < v * (b as real);
    assert 9.0 * (a as real) < b as real;
  }

  lemma {:induction false} SomeExceeds(zs: seq<real>) returns (j: nat)
    requires Exceeding(zs) > 0
    ensures j < |zs| && zs[j] > 9.0
  {
    if zs[0] > 9.0 {
      j := 0;
    } else {
      j := SomeExceeds(zs[1..]);
      j := j + 1;
    }
  }

  lemma {:induction false} FewExceedAt(s: seq<real>, zs: seq<real>, m: real, v: real)
    requires |zs| == |s| && v > 0.0 && v * (|s| as real) == Scatter(s, m) && Exceeding(zs) > 0
    requires forall j :: 0 <= j < |s| && zs[j] > 9.0 ==> Squared(s[j] - m) > 9.0 * v
    ensures 9 * Exceeding(zs) < |s|
  {
    ScatterBoundsExceeding(s, zs, m, v);
    CancelFactor(Exceeding(zs), |s|, v, Scatter(s, m));
  }

  /** Fewer than a ninth of a column's values exceed the cut, if any do. */
  lemma {:induction false} FewExceed(s: seq<real>)
    ensures 9 * Exceeding(SquaredZs(s)) <= |s|
    ensures |s| <= 9 ==> Exceeding(SquaredZs(s)) == 0
  {
    var zs := SquaredZs(s);
    if Exceeding(zs) > 0 {
      var j := SomeExceeds(zs);
      var m, v := Moments(s);
      FewExceedAt(s, zs, m, v);
    }
  }
}
