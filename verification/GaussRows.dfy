/** Matrices as rows of reals, and how row operations act on linear combinations
    of rows. */
module GaussRows {

  type Row = seq<real>
  type Matrix = seq<Row>

  predicate Square(m: Matrix, n: nat) {
    |m| == n && forall i | 0 <= i < n :: |m[i]| == n
  }

  function Unit(n: nat, i: nat): (u: Row)
    ensures |u| == n && forall j | 0 <= j < n :: u[j] == if i == j then 1.0 else 0.0
  {
    seq(n, j => if i == j then 1.0 else 0.0)
  }

  function Identity(n: nat): (m: Matrix)
    ensures Square(m, n) && forall i | 0 <= i < n :: m[i] == Unit(n, i)
  {
    seq(n, i requires 0 <= i => Unit(n, i))
  }

  // ------------------------------------------------------------ combinations

  /** u[0] * m[0][j] + ... + u[k-1] * m[k-1][j] */
  function ColSum(u: Row, m: Matrix, j: nat, k: nat): real
    requires Square(m, |u|) && j < |u| && k <= |u|
  {
    if k == 0 then 0.0 else ColSum(u, m, j, k - 1) + u[k - 1] * m[k - 1][j]
  }

  /** The combination of the rows of `m` with the coefficients `u`. */
  function Comb(u: Row, m: Matrix): (r: Row)
    requires Square(m, |u|)
    ensures |r| == |u| && forall j | 0 <= j < |u| :: r[j] == ColSum(u, m, j, |u|)
  {
    seq(|u|, j requires 0 <= j < |u| => ColSum(u, m, j, |u|))
  }

  /** The matrix product a b. */
  function Product(a: Matrix, b: Matrix): (p: Matrix)
    requires Square(a, |a|) && Square(b, |a|)
    ensures Square(p, |a|) && forall i | 0 <= i < |a| :: p[i] == Comb(a[i], b)
  {
    seq(|a|, i requires 0 <= i < |a| => Comb(a[i], b))
  }

  // Arithmetic on plain numbers, kept apart from the sums it is used in.

  lemma Pick(e: real, x: real, b: bool)
    requires e == if b then 1.0 else 0.0
    ensures e * x == x * e == if b then x else 0.0
  {
    if b {
      assert 1.0 * x == x;
    } else {
      assert 0.0 * x == 0.0;
    }
  }

  lemma Divided(a: real, b: real, d: real, s: real)
    requires d != 0.0
    ensures s / d + a / d * b == (s + a * b) / d
  {
    assert a / d * b == a * b / d;
  }

  lemma Undivided(a: real, b: real, d: real)
    requires d != 0.0
    ensures a * d * (b / d) == a * b
  {
    assert d * (b / d) == b;
  }

  lemma Distributed(a: real, b: real, f: real, c: real)
    ensures (a - b * f) * c == a * c - b * c * f
  {
  }

  lemma Summed(p: real, u: real, c: real, b: real, d: real)
    ensures (p + u * c) * b == p * b + u * (c * b)
    ensures u * (d + c * b) == u * d + u * (c * b)
  {
  }

  lemma Moved(u: real, v: real, x: real)
    ensures u * (v - x) == u * v - u * x
  {
  }

  lemma {:induction false} UnitColSum(n: nat, i: nat, m: Matrix, j: nat, k: nat)
    requires Square(m, n) && i < n && j < n && k <= n
    ensures ColSum(Unit(n, i), m, j, k) == if i < k then m[i][j] else 0.0
  {
    if k > 0 {
      UnitColSum(n, i, m, j, k - 1);
      Pick(Unit(n, i)[k - 1], m[k - 1][j], i == k - 1);
    }
  }

  lemma UnitComb(n: nat, i: nat, m: Matrix)
    requires Square(m, n) && i < n
    ensures Comb(Unit(n, i), m) == m[i]
  {
    forall j | 0 <= j < n ensures Comb(Unit(n, i), m)[j] == m[i][j] {
      UnitColSum(n, i, m, j, n);
    }
  }

  lemma {:induction false} IdentityColSum(u: Row, j: nat, k: nat)
    requires j < |u| && k <= |u|
    ensures ColSum(u, Identity(|u|), j, k) == if j < k then u[j] else 0.0
  {
    if k > 0 {
      IdentityColSum(u, j, k - 1);
      Pick(Identity(|u|)[k - 1][j], u[k - 1], k - 1 == j);
    }
  }

  lemma IdentityComb(u: Row)
    ensures Comb(u, Identity(|u|)) == u
  {
    forall j | 0 <= j < |u| ensures Comb(u, Identity(|u|))[j] == u[j] {
      IdentityColSum(u, j, |u|);
    }
  }

  // --------------------------------------------------------- row operations

  function Scaled(u: Row, d: real): (r: Row)
    requires d != 0.0
    ensures |r| == |u| && forall j | 0 <= j < |u| :: r[j] == u[j] / d
  {
    seq(|u|, j requires 0 <= j < |u| => u[j] / d)
  }

  function Minus(u: Row, v: Row, f: real): (r: Row)
    requires |u| == |v|
    ensures |r| == |u| && forall j | 0 <= j < |u| :: r[j] == u[j] - v[j] * f
  {
    seq(|u|, j requires 0 <= j < |u| => u[j] - v[j] * f)
  }

  lemma MinusAt(u: Row, v: Row, f: real, j: nat, p: real, q: real)
    requires |u| == |v| && j < |u| && p == u[j] && q == v[j]
    ensures p - q * f == Minus(u, v, f)[j]
  {
  }

  lemma ColSumNext(u: Row, m: Matrix, j: nat, k: nat, sum: real, p: real, q: real)
    requires Square(m, |u|) && j < |u| && k < |u| && sum == ColSum(u, m, j, k) && p == u[k] && q == m[k][j]
    ensures sum + p * q == ColSum(u, m, j, k + 1)
  {
  }

  lemma {:induction false} ColSumScaled(u: Row, d: real, m: Matrix, j: nat, k: nat)
    requires d != 0.0 && Square(m, |u|) && j < |u| && k <= |u|
    ensures ColSum(Scaled(u, d), m, j, k) == ColSum(u, m, j, k) / d
  {
    if k > 0 {
      ColSumScaled(u, d, m, j, k - 1);
      Divided(u[k - 1], m[k - 1][j], d, ColSum(u, m, j, k - 1));
    }
  }

  lemma CombScaled(u: Row, d: real, m: Matrix)
    requires d != 0.0 && Square(m, |u|)
    ensures Comb(Scaled(u, d), m) == Scaled(Comb(u, m), d)
  {
    forall j | 0 <= j < |u| ensures Comb(Scaled(u, d), m)[j] == Scaled(Comb(u, m), d)[j] {
      ColSumScaled(u, d, m, j, |u|);
    }
  }

  lemma {:induction false} ColSumMinus(u: Row, v: Row, f: real, m: Matrix, j: nat, k: nat)
    requires |u| == |v| && Square(m, |u|) && j < |u| && k <= |u|
    ensures ColSum(Minus(u, v, f), m, j, k) == ColSum(u, m, j, k) - ColSum(v, m, j, k) * f
  {
    if k > 0 {
      ColSumMinus(u, v, f, m, j, k - 1);
      Distributed(u[k - 1], v[k - 1], f, m[k - 1][j]);
      Summed(ColSum(v, m, j, k - 1), v[k - 1], m[k - 1][j], f, 0.0);
    }
  }

  lemma CombMinusAt(u: Row, v: Row, f: real, m: Matrix, j: nat)
    requires |u| == |v| && Square(m, |u|) && j < |u|
    ensures Comb(Minus(u, v, f), m)[j] == Minus(Comb(u, m), Comb(v, m), f)[j]
  {
    ColSumMinus(u, v, f, m, j, |u|);
    MinusAt(Comb(u, m), Comb(v, m), f, j, ColSum(u, m, j, |u|), ColSum(v, m, j, |u|));
  }

  lemma CombMinus(u: Row, v: Row, f: real, m: Matrix)
    requires |u| == |v| && Square(m, |u|)
    ensures Comb(Minus(u, v, f), m) == Minus(Comb(u, m), Comb(v, m), f)
  {
    forall j: nat | j < |u| ensures Comb(Minus(u, v, f), m)[j] == Minus(Comb(u, m), Comb(v, m), f)[j] {
      CombMinusAt(u, v, f, m, j);
    }
  }

  // ------------------------------------------------- and what they undo

  /** One term of a combination replaced. */
  lemma {:induction false} ColSumSet(u: Row, m: Matrix, i: nat, x: real, y: Row, j: nat, k: nat)
    requires Square(m, |u|) && i < |u| && |y| == |u| && j < |u| && k <= |u|
    ensures Square(m[i := y], |u|)
    ensures ColSum(u[i := x], m[i := y], j, k)
            == ColSum(u, m, j, k) + (if i < k then x * y[j] - u[i] * m[i][j] else 0.0)
  {
    if k > 0 {
      ColSumSet(u, m, i, x, y, j, k - 1);
    }
  }

  /** Two terms replaced. */
  lemma CombSetTwo(u: Row, m: Matrix, i: nat, x: real, y: Row, r: nat, x': real, y': Row)
    requires Square(m, |u|) && i < |u| && r < |u| && i != r && |y| == |y'| == |u|
    requires forall j | 0 <= j < |u| :: x * y[j] + x' * y'[j] == u[i] * m[i][j] + u[r] * m[r][j]
    ensures Square(m[i := y][r := y'], |u|) && Comb(u[i := x][r := x'], m[i := y][r := y']) == Comb(u, m)
  {
    assert Square(m[i := y], |u|);
    forall j | 0 <= j < |u|
      ensures Comb(u[i := x][r := x'], m[i := y][r := y'])[j] == Comb(u, m)[j]
    {
      ColSumSet(u, m, i, x, y, j, |u|);
      ColSumSet(u[i := x], m[i := y], r, x', y', j, |u|);
    }
  }

  function SwappedRow(u: Row, i: nat, k: nat): Row
    requires i < |u| && k < |u|
  {
    u[i := u[k]][k := u[i]]
  }

  function Swapped(m: Matrix, i: nat, k: nat): Matrix
    requires i < |m| && k < |m|
  {
    m[i := m[k]][k := m[i]]
  }

  /** Swapping two rows is undone by swapping the coefficients. */
  lemma CombSwap(u: Row, m: Matrix, i: nat, k: nat)
    requires Square(m, |u|) && i < |u| && k < |u| && i != k
    ensures Square(Swapped(m, i, k), |u|) && Comb(SwappedRow(u, i, k), Swapped(m, i, k)) == Comb(u, m)
  {
    CombSetTwo(u, m, i, u[k], m[k], k, u[i], m[i]);
  }

  function UnscaledRow(u: Row, i: nat, d: real): Row
    requires i < |u|
  {
    u[i := u[i] * d]
  }

  function UnsubRow(u: Row, i: nat, k: nat, f: real): Row
    requires i < |u| && k < |u|
  {
    u[i := u[i] + f * u[k]]
  }

  /** Dividing a row is undone by multiplying its coefficient. */
  lemma CombScale(u: Row, m: Matrix, i: nat, d: real)
    requires Square(m, |u|) && i < |u| && d != 0.0
    ensures Square(m[i := Scaled(m[i], d)], |u|)
    ensures Comb(UnscaledRow(u, i, d), m[i := Scaled(m[i], d)]) == Comb(u, m)
  {
    var y := Scaled(m[i], d);
    forall j | 0 <= j < |u| ensures Comb(UnscaledRow(u, i, d), m[i := y])[j] == Comb(u, m)[j] {
      ColSumSet(u, m, i, u[i] * d, y, j, |u|);
      Undivided(u[i], m[i][j], d);
    }
  }

  /** Subtracting f times row i from row r is undone by adding f times the
      coefficient of r to that of i. */
  lemma CombSub(u: Row, m: Matrix, i: nat, r: nat, f: real)
    requires Square(m, |u|) && i < |u| && r < |u| && i != r
    ensures Square(m[r := Minus(m[r], m[i], f)], |u|)
    ensures Comb(UnsubRow(u, i, r, f), m[r := Minus(m[r], m[i], f)]) == Comb(u, m)
  {
    var x, y' := u[i] + f * u[r], Minus(m[r], m[i], f);
    forall j | 0 <= j < |u| ensures x * m[i][j] + u[r] * y'[j] == u[i] * m[i][j] + u[r] * m[r][j] {
      SubTerm(u[i], u[r], m[i][j], m[r][j], f);
    }
    CombSetTwo(u, m, i, x, m[i], r, u[r], y');
    assert m[i := m[i]] == m && u[i := x][r := u[r]] == u[i := x];
  }

  lemma SubTerm(a: real, b: real, p: real, q: real, f: real)
    ensures (a + f * b) * p + b * (q - p * f) == a * p + b * q
  {
    assert f * b * p == b * (p * f);
  }

  // ------------------------------------------------------------ columns

  /** u[0] * x[0] + ... + u[k-1] * x[k-1] */
  function Dot(u: Row, x: Row, k: nat): real
    requires |u| == |x| && k <= |u|
  {
    if k == 0 then 0.0 else Dot(u, x, k - 1) + u[k - 1] * x[k - 1]
  }

  lemma {:induction false} DotSet(u: Row, x: Row, i: nat, v: real, k: nat)
    requires |u| == |x| && i < |u| && k <= |u|
    ensures Dot(u, x[i := v], k) == Dot(u, x, k) + (if i < k then u[i] * (v - x[i]) else 0.0)
  {
    if k > 0 {
      DotSet(u, x, i, v, k - 1);
      Moved(u[i], v, x[i]);
    }
  }

  lemma {:induction false} DotUnit(n: nat, i: nat, x: Row, k: nat)
    requires |x| == n && i < n && k <= n
    ensures Dot(Unit(n, i), x, k) == if i < k then x[i] else 0.0
  {
    if k > 0 {
      DotUnit(n, i, x, k - 1);
      Pick(Unit(n, i)[k - 1], x[k - 1], i == k - 1);
    }
  }

  /** Σ over the first `t` rows of u[r] * m[r][j], for j below k, times x. */
  lemma {:induction false} DotPart(u: Row, m: Matrix, x: Row, p: Row, q: Row, t: nat, k: nat)
    requires Square(m, |u|) && |x| == |p| == |q| == |u| && t < |u| && k <= |u|
    requires forall j | 0 <= j < |u| :: q[j] == p[j] + u[t] * m[t][j]
    ensures Dot(q, x, k) == Dot(p, x, k) + u[t] * Dot(m[t], x, k)
  {
    if k > 0 {
      DotPart(u, m, x, p, q, t, k - 1);
      Summed(p[k - 1], u[t], m[t][k - 1], x[k - 1], Dot(m[t], x, k - 1));
    }
  }

  /** The sum of the first `t` rows, with the coefficients `u`. */
  function Partial(u: Row, m: Matrix, t: nat): (r: Row)
    requires Square(m, |u|) && t <= |u|
    ensures |r| == |u| && forall j | 0 <= j < |u| :: r[j] == ColSum(u, m, j, t)
  {
    seq(|u|, j requires 0 <= j < |u| => ColSum(u, m, j, t))
  }

  lemma {:induction false} DotZero(p: Row, x: Row, k: nat)
    requires |p| == |x| && k <= |p| && forall j | 0 <= j < |p| :: p[j] == 0.0
    ensures Dot(p, x, k) == 0.0
  {
    if k > 0 {
      DotZero(p, x, k - 1);
    }
  }

  /** A vector that every row of `m` annihilates is annihilated by every
      combination of them. */
  lemma {:induction false} CombKills(u: Row, m: Matrix, x: Row, t: nat)
    requires Square(m, |u|) && |x| == |u| && t <= |u|
    requires forall r | 0 <= r < |u| :: Dot(m[r], x, |u|) == 0.0
    ensures Dot(Partial(u, m, t), x, |u|) == 0.0
  {
    if t == 0 {
      DotZero(Partial(u, m, 0), x, |u|);
    } else {
      CombKills(u, m, x, t - 1);
      DotPart(u, m, x, Partial(u, m, t - 1), Partial(u, m, t), t - 1, |u|);
    }
  }

  /** `m` has an inverse. */
  ghost predicate Invertible(m: Matrix)
    requires Square(m, |m|)
  {
    exists l: Matrix :: Square(l, |m|) && Product(l, m) == Identity(|m|)
  }

  /** A matrix that annihilates a nonzero vector has none. */
  lemma KillsIsSingular(m: Matrix, x: Row, i: nat)
    requires Square(m, |m|) && |x| == |m| && i < |m| && x[i] != 0.0
    requires forall r | 0 <= r < |m| :: Dot(m[r], x, |m|) == 0.0
    ensures !Invertible(m)
  {
    if l: Matrix :| Square(l, |m|) && Product(l, m) == Identity(|m|) {
      CombKills(l[i], m, x, |m|);
      assert Partial(l[i], m, |m|) == Comb(l[i], m) == Product(l, m)[i];
      DotUnit(|m|, i, x, |m|);
      assert false;
    }
  }
}
