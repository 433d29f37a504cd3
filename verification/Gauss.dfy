/** Gauss-Jordan inversion with partial pivoting, on flat arrays of reals. */
module Gauss {
  import opened GaussRows

  // -------------------------------------------------------------- invariant

  /** `out` takes `inp` to `m`, and `b` takes `m` back to `inp` and `out` to the
      identity. */
  ghost predicate Linked(inp: Matrix, m: Matrix, out: Matrix, b: Matrix) {
    var n := |inp|;
    && Square(inp, n) && Square(m, n) && Square(out, n) && Square(b, n)
    && (forall i | 0 <= i < n :: Comb(out[i], inp) == m[i])
    && (forall i | 0 <= i < n :: Comb(b[i], m) == inp[i])
    && (forall i | 0 <= i < n :: Comb(b[i], out) == Unit(n, i))
  }

  lemma LinkedInit(inp: Matrix)
    requires Square(inp, |inp|)
    ensures Linked(inp, inp, Identity(|inp|), Identity(|inp|))
  {
    var n := |inp|;
    forall i | 0 <= i < n
      ensures Comb(Identity(n)[i], inp) == inp[i] && Comb(Identity(n)[i], Identity(n)) == Unit(n, i)
    {
      UnitComb(n, i, inp);
      UnitComb(n, i, Identity(n));
    }
  }

  lemma LinkedSwap(inp: Matrix, m: Matrix, out: Matrix, b: Matrix, i: nat, k: nat) returns (b': Matrix)
    requires Linked(inp, m, out, b) && i < |inp| && k < |inp| && i != k
    ensures Linked(inp, Swapped(m, i, k), Swapped(out, i, k), b')
  {
    var n := |inp|;
    b' := seq(n, r requires 0 <= r < n => SwappedRow(b[r], i, k));
    forall r | 0 <= r < n
      ensures Comb(b'[r], Swapped(m, i, k)) == inp[r] && Comb(b'[r], Swapped(out, i, k)) == Unit(n, r)
    {
      CombSwap(b[r], m, i, k);
      CombSwap(b[r], out, i, k);
    }
  }

  lemma LinkedScale(inp: Matrix, m: Matrix, out: Matrix, b: Matrix, i: nat, d: real) returns (b': Matrix)
    requires Linked(inp, m, out, b) && i < |inp| && d != 0.0
    ensures Linked(inp, m[i := Scaled(m[i], d)], out[i := Scaled(out[i], d)], b')
  {
    var n := |inp|;
    b' := seq(n, r requires 0 <= r < n => UnscaledRow(b[r], i, d));
    CombScaled(out[i], d, inp);
    forall r | 0 <= r < n
      ensures Comb(b'[r], m[i := Scaled(m[i], d)]) == inp[r]
      ensures Comb(b'[r], out[i := Scaled(out[i], d)]) == Unit(n, r)
    {
      CombScale(b[r], m, i, d);
      CombScale(b[r], out, i, d);
    }
  }

  lemma LinkedSub(inp: Matrix, m: Matrix, out: Matrix, b: Matrix, i: nat, k: nat, f: real) returns (b': Matrix)
    requires Linked(inp, m, out, b) && i < |inp| && k < |inp| && i != k
    ensures Linked(inp, m[k := Minus(m[k], m[i], f)], out[k := Minus(out[k], out[i], f)], b')
  {
    var n := |inp|;
    b' := seq(n, r requires 0 <= r < n => UnsubRow(b[r], i, k, f));
    CombMinus(out[k], out[i], f, inp);
    forall r | 0 <= r < n
      ensures Comb(b'[r], m[k := Minus(m[k], m[i], f)]) == inp[r]
      ensures Comb(b'[r], out[k := Minus(out[k], out[i], f)]) == Unit(n, r)
    {
      CombSub(b[r], m, i, k, f);
      CombSub(b[r], out, i, k, f);
    }
  }

  /** When `m` has become the identity, `out` is the inverse on both sides. */
  lemma LinkedInverse(inp: Matrix, out: Matrix, b: Matrix)
    requires Linked(inp, Identity(|inp|), out, b)
    ensures Product(out, inp) == Identity(|inp|) && Product(inp, out) == Identity(|inp|)
  {
    forall i | 0 <= i < |inp| ensures Product(inp, out)[i] == Unit(|inp|, i) {
      IdentityComb(b[i]);
    }
  }

  // ------------------------------------------------------------- elimination

  /** Column `c` is that of a unit upper triangular matrix. */
  predicate Stepped(m: Matrix, c: nat)
    requires Square(m, |m|) && c < |m|
  {
    m[c][c] == 1.0 && forall r | c < r < |m| :: m[r][c] == 0.0
  }

  /** So are the first `i` columns. */
  predicate Forward(m: Matrix, i: nat)
    requires Square(m, |m|) && i <= |m|
  {
    forall c | 0 <= c < i :: Stepped(m, c)
  }

  /** From column `i` on, nothing stands above the diagonal. */
  predicate Backward(m: Matrix, i: nat)
    requires Square(m, |m|) && i <= |m|
  {
    forall r, c | 0 <= r < c < |m| && i <= c :: m[r][c] == 0.0
  }

  lemma ForwardBackward(m: Matrix)
    requires Square(m, |m|) && Forward(m, |m|) && Backward(m, 0)
    ensures m == Identity(|m|)
  {
    forall r | 0 <= r < |m| ensures m[r] == Unit(|m|, r) {
      forall c | 0 <= c < |m| ensures m[r][c] == Unit(|m|, r)[c] {
        assert Stepped(m, c);
      }
    }
  }

  // ---------------------------------------------------------- no pivot left

  /** All entries of column `i` from row i down are zero. */
  predicate NoPivot(m: Matrix, i: nat)
    requires Square(m, |m|) && i < |m|
  {
    forall r | i <= r < |m| :: m[r][i] == 0.0
  }

  /** `x` ends with a one in place `i`. */
  predicate EndsAt(x: Row, i: nat)
  {
    i < |x| && x[i] == 1.0 && forall j | i < j < |x| :: x[j] == 0.0
  }

  /** A row that is zero in the places where `x` is not annihilates it. */
  lemma {:induction false} DotApart(u: Row, x: Row, k: nat)
    requires |u| == |x| && k <= |u| && forall j | 0 <= j < k :: u[j] == 0.0 || x[j] == 0.0
    ensures Dot(u, x, k) == 0.0
  {
    if k > 0 {
      DotApart(u, x, k - 1);
    }
  }

  /** Back substitution: a vector that rows `k` and below annihilate. */
  lemma {:induction false} BackSubst(m: Matrix, i: nat, k: nat) returns (x: Row)
    requires Square(m, |m|) && i < |m| && k <= i && Forward(m, i) && NoPivot(m, i)
    ensures |x| == |m| && EndsAt(x, i) && forall j | 0 <= j < k :: x[j] == 0.0
    ensures forall r | k <= r < |m| :: Dot(m[r], x, |m|) == 0.0
    decreases i - k
  {
    if k == i {
      x := Unit(|m|, i);
      forall r | i <= r < |m| ensures Dot(m[r], x, |m|) == 0.0 {
        DotApart(m[r], x, |m|);
      }
    } else {
      var y := BackSubst(m, i, k + 1);
      assert Stepped(m, k);
      var v := -Dot(m[k], y, |m|);
      x := y[k := v];
      forall r | k <= r < |m| ensures Dot(m[r], x, |m|) == 0.0 {
        DotSet(m[r], y, k, v, |m|);
      }
    }
  }

  lemma {:induction false} LinkedSingular(inp: Matrix, m: Matrix, out: Matrix, b: Matrix, i: nat)
    requires Linked(inp, m, out, b) && i < |m| && Forward(m, i) && NoPivot(m, i)
    ensures !Invertible(inp)
  {
    var x := BackSubst(m, i, 0);
    forall r | 0 <= r < |inp| ensures Dot(inp[r], x, |inp|) == 0.0 {
      CombKills(b[r], m, x, |inp|);
      assert Partial(b[r], m, |inp|) == Comb(b[r], m);
    }
    KillsIsSingular(inp, x, i);
  }

  // ------------------------------------------------------------ flat arrays

  lemma Index(n: nat, i: int, j: int)
    requires 0 <= i < n && 0 <= j < n
    ensures 0 <= i * n + j < n * n
  {
    NotNegative(i, n);
    NotNegative(n - 1 - i, n);
    assert (n - 1 - i) * n == n * n - n - i * n;
  }

  lemma NotNegative(a: nat, b: nat)
    ensures a * b >= 0
  {
  }

  lemma RowBefore(n: nat, i: int, j: int, k: int, l: int)
    requires 0 <= i < k < n && 0 <= j < n && 0 <= l < n
    ensures i * n + j < k * n + l
  {
    NotNegative(k - i - 1, n);
    assert (k - i - 1) * n == k * n - i * n - n;
  }

  lemma IndexApart(n: nat, i: int, j: int, k: int, l: int)
    requires 0 <= i < n && 0 <= j < n && 0 <= k < n && 0 <= l < n && i * n + j == k * n + l
    ensures i == k && j == l
  {
    if i < k {
      RowBefore(n, i, j, k, l);
    } else if k < i {
      RowBefore(n, k, l, i, j);
    }
  }

  /** The entry of row i and column j: gauss_at. */
  function At(s: seq<real>, n: nat, i: nat, j: nat): real
    requires |s| == n * n && i < n && j < n
  {
    Index(n, i, j);
    s[i * n + j]
  }

  function Rows(s: seq<real>, n: nat): (m: Matrix)
    requires |s| == n * n
    ensures Square(m, n) && forall i, j | 0 <= i < n && 0 <= j < n :: m[i][j] == At(s, n, i, j)
  {
    seq(n, i requires 0 <= i < n => seq(n, j requires 0 <= j < n => At(s, n, i, j)))
  }

  method Set(a: array<real>, n: nat, i: nat, j: nat, v: real)
    requires a.Length == n * n && i < n && j < n
    modifies a
    ensures Rows(a[..], n) == old(Rows(a[..], n))[i := old(Rows(a[..], n))[i][j := v]]
  {
    ghost var was := Rows(a[..], n);
    Index(n, i, j);
    a[i * n + j] := v;
    forall k, l | 0 <= k < n && 0 <= l < n
      ensures At(a[..], n, k, l) == if k == i && l == j then v else was[k][l]
    {
      Index(n, k, l);
      if k * n + l == i * n + j { IndexApart(n, k, l, i, j); }
    }
    forall k | 0 <= k < n ensures Rows(a[..], n)[k] == was[i := was[i][j := v]][k] {
    }
  }

  method Get(a: array<real>, n: nat, i: nat, j: nat) returns (v: real)
    requires a.Length == n * n && i < n && j < n
    ensures v == Rows(a[..], n)[i][j]
  {
    Index(n, i, j);
    v := a[i * n + j];
  }

  /** The first `j` entries of `u`, then those of `v`. */
  function Mix(u: Row, v: Row, j: nat): (r: Row)
    requires |u| == |v| && j <= |u|
    ensures |r| == |u|
    ensures j == 0 ==> r == v
    ensures j == |u| ==> r == u
  {
    u[..j] + v[j..]
  }

  lemma MixNext(u: Row, v: Row, j: nat)
    requires |u| == |v| && j < |u|
    ensures Mix(u, v, j)[j] == v[j] && Mix(u, v, j)[j := u[j]] == Mix(u, v, j + 1)
  {
  }

  // --------------------------------------------------------- row operations

  method SwapRows(m: array<real>, out: array<real>, n: nat, i: nat, k: nat)
    requires m != out && m.Length == n * n && out.Length == n * n && i < n && k < n && i != k
    modifies m, out
    ensures Rows(m[..], n) == Swapped(old(Rows(m[..], n)), i, k)
    ensures Rows(out[..], n) == Swapped(old(Rows(out[..], n)), i, k)
  {
    for j := 0 to n
      invariant Rows(m[..], n) == HalfSwapped(old(Rows(m[..], n)), i, k, j)
      invariant Rows(out[..], n) == HalfSwapped(old(Rows(out[..], n)), i, k, j)
    {
      SwapEntries(m, n, i, k, j, old(Rows(m[..], n)));
      SwapEntries(out, n, i, k, j, old(Rows(out[..], n)));
    }
  }

  /** Rows i and k of `m` exchanged as far as column j. */
  function HalfSwapped(m: Matrix, i: nat, k: nat, j: nat): Matrix
    requires Square(m, |m|) && i < |m| && k < |m| && j <= |m|
  {
    m[i := Mix(m[k], m[i], j)][k := Mix(m[i], m[k], j)]
  }

  method SwapEntries(a: array<real>, n: nat, i: nat, k: nat, j: nat, ghost was: Matrix)
    requires a.Length == n * n && i < n && k < n && i != k && j < n && Square(was, n)
    requires Rows(a[..], n) == HalfSwapped(was, i, k, j)
    modifies a
    ensures Rows(a[..], n) == HalfSwapped(was, i, k, j + 1)
  {
    var t := Get(a, n, i, j);
    var u := Get(a, n, k, j);
    Set(a, n, i, j, u);
    Set(a, n, k, j, t);
    MixNext(was[k], was[i], j);
    MixNext(was[i], was[k], j);
  }

  method ScaleRow(m: array<real>, out: array<real>, n: nat, i: nat, d: real)
    requires m != out && m.Length == n * n && out.Length == n * n && i < n && d != 0.0
    modifies m, out
    ensures Rows(m[..], n) == old(Rows(m[..], n))[i := Scaled(old(Rows(m[..], n))[i], d)]
    ensures Rows(out[..], n) == old(Rows(out[..], n))[i := Scaled(old(Rows(out[..], n))[i], d)]
  {
    for j := 0 to n
      invariant Rows(m[..], n) == HalfScaled(old(Rows(m[..], n)), i, d, j)
      invariant Rows(out[..], n) == HalfScaled(old(Rows(out[..], n)), i, d, j)
    {
      ScaleEntry(m, n, i, d, j, old(Rows(m[..], n)));
      ScaleEntry(out, n, i, d, j, old(Rows(out[..], n)));
    }
  }

  function HalfScaled(m: Matrix, i: nat, d: real, j: nat): Matrix
    requires Square(m, |m|) && i < |m| && d != 0.0 && j <= |m|
  {
    m[i := Mix(Scaled(m[i], d), m[i], j)]
  }

  method ScaleEntry(a: array<real>, n: nat, i: nat, d: real, j: nat, ghost was: Matrix)
    requires a.Length == n * n && i < n && d != 0.0 && j < n && Square(was, n)
    requires Rows(a[..], n) == HalfScaled(was, i, d, j)
    modifies a
    ensures Rows(a[..], n) == HalfScaled(was, i, d, j + 1)
  {
    MixNext(Scaled(was[i], d), was[i], j);
    var t := Get(a, n, i, j);
    Set(a, n, i, j, t / d);
  }

  /** Row k less f times row i. */
  method SubRow(m: array<real>, out: array<real>, n: nat, i: nat, k: nat, f: real)
    requires m != out && m.Length == n * n && out.Length == n * n && i < n && k < n && i != k
    modifies m, out
    ensures Rows(m[..], n) == Subbed(old(Rows(m[..], n)), i, k, f, n)
    ensures Rows(out[..], n) == Subbed(old(Rows(out[..], n)), i, k, f, n)
  {
    for j := 0 to n
      invariant Rows(m[..], n) == Subbed(old(Rows(m[..], n)), i, k, f, j)
      invariant Rows(out[..], n) == Subbed(old(Rows(out[..], n)), i, k, f, j)
    {
      SubEntry(m, n, i, k, f, j, old(Rows(m[..], n)));
      SubEntry(out, n, i, k, f, j, old(Rows(out[..], n)));
    }
  }

  /** The same as far as column j. */
  function Subbed(m: Matrix, i: nat, k: nat, f: real, j: nat): Matrix
    requires Square(m, |m|) && i < |m| && k < |m| && j <= |m|
  {
    m[k := Mix(Minus(m[k], m[i], f), m[k], j)]
  }

  method SubEntry(a: array<real>, n: nat, i: nat, k: nat, f: real, j: nat, ghost was: Matrix)
    requires a.Length == n * n && i < n && k < n && i != k && j < n && Square(was, n)
    requires Rows(a[..], n) == Subbed(was, i, k, f, j)
    modifies a
    ensures Rows(a[..], n) == Subbed(was, i, k, f, j + 1)
  {
    MixNext(Minus(was[k], was[i], f), was[k], j);
    var t := Get(a, n, k, j);
    var u := Get(a, n, i, j);
    MinusAt(was[k], was[i], f, j, t, u);
    var v := t - u * f;
    Set(a, n, k, j, v);
  }

  // --------------------------------------------------------------- inversion

  function Abs(x: real): (r: real)
    ensures r >= 0.0 && (r == x || r == -x)
  {
    if x >= 0.0 then x else -x
  }

  /** The row, from i down, with the largest entry in column i. */
  method FindPivot(m: array<real>, n: nat, i: nat) returns (imax: nat)
    requires m.Length == n * n && i < n
    ensures i <= imax < n
    ensures forall r | i <= r < n :: Abs(Rows(m[..], n)[r][i]) <= Abs(Rows(m[..], n)[imax][i])
  {
    imax := i;
    for i2 := i + 1 to n
      invariant i <= imax < n
      invariant forall r | i <= r < i2 :: Abs(Rows(m[..], n)[r][i]) <= Abs(Rows(m[..], n)[imax][i])
    {
      var a := Get(m, n, i2, i);
      var b := Get(m, n, imax, i);
      if Abs(a) > Abs(b) {
        imax := i2;
      }
    }
  }

  method SetIdentity(out: array<real>, n: nat)
    requires out.Length == n * n
    modifies out
    ensures Rows(out[..], n) == Identity(n)
  {
    for i := 0 to n
      invariant forall r | 0 <= r < i :: Rows(out[..], n)[r] == Unit(n, r)
    {
      for j := 0 to n
        invariant forall r | 0 <= r < i :: Rows(out[..], n)[r] == Unit(n, r)
        invariant forall c | 0 <= c < j :: Rows(out[..], n)[i][c] == Unit(n, i)[c]
      {
        Set(out, n, i, j, if i == j then 1.0 else 0.0);
      }
      assert Rows(out[..], n)[i] == Unit(n, i);
    }
  }

  method Copy(inp: array<real>, out: array<real>, n: nat)
    requires inp.Length == n * n && out.Length == n * n
    modifies out
    ensures Rows(out[..], n) == old(Rows(inp[..], n))
  {
    ghost var was := Rows(inp[..], n);
    for i := 0 to n
      invariant inp == out || Rows(inp[..], n) == was
      invariant forall r | (0 <= r < i || inp == out) && r < n && 0 <= r :: Rows(out[..], n)[r] == was[r]
    {
      for j := 0 to n
        invariant inp == out || Rows(inp[..], n) == was
        invariant forall r | (0 <= r < i || inp == out) && r < n && 0 <= r :: Rows(out[..], n)[r] == was[r]
        invariant forall c | 0 <= c < j :: Rows(out[..], n)[i][c] == was[i][c]
      {
        var v := Get(inp, n, i, j);
        Set(out, n, i, j, v);
        assert inp == out ==> was[i][j := v] == was[i];
      }
      assert Rows(out[..], n)[i] == was[i];
    }
  }

  /** Some matrix links the three. */
  ghost predicate Joined(inp: Matrix, m: Matrix, out: Matrix) {
    exists b: Matrix :: Linked(inp, m, out, b)
  }

  lemma JoinedSub(inp: Matrix, m: Matrix, out: Matrix, i: nat, k: nat, f: real)
    requires Joined(inp, m, out) && i < |inp| && k < |inp| && i != k
    ensures |m| == |inp| == |out| && Square(m, |m|) && Square(out, |out|)
    ensures Joined(inp, Subbed(m, i, k, f, |inp|), Subbed(out, i, k, f, |inp|))
  {
    var b: Matrix :| Linked(inp, m, out, b);
    var b' := LinkedSub(inp, m, out, b, i, k, f);
  }

  /** Clears column i below a pivot of one. */
  method ClearBelow(m: array<real>, out: array<real>, n: nat, i: nat, ghost inp: Matrix)
    requires m != out && m.Length == n * n && out.Length == n * n && i < n == |inp|
    requires Joined(inp, Rows(m[..], n), Rows(out[..], n))
    requires Forward(Rows(m[..], n), i) && Rows(m[..], n)[i][i] == 1.0
    modifies m, out
    ensures Joined(inp, Rows(m[..], n), Rows(out[..], n)) && Forward(Rows(m[..], n), i + 1)
  {
    for i2 := i + 1 to n
      invariant Joined(inp, Rows(m[..], n), Rows(out[..], n))
      invariant Forward(Rows(m[..], n), i) && Rows(m[..], n)[i][i] == 1.0
      invariant forall r | i < r < i2 :: Rows(m[..], n)[r][i] == 0.0
    {
      var f := Get(m, n, i2, i);
      JoinedSub(inp, Rows(m[..], n), Rows(out[..], n), i, i2, f);
      SubForward(Rows(m[..], n), i, i2);
      SubRow(m, out, n, i, i2, f);
    }
  }

  /** Subtracting its own share of row i clears an entry below the pivot, and
      nothing to the left of it changes. */
  lemma SubForward(m: Matrix, i: nat, k: nat)
    requires Square(m, |m|) && i < k < |m| && Forward(m, i) && m[i][i] == 1.0
    ensures var m' := Subbed(m, i, k, m[k][i], |m|);
      Square(m', |m|) && Forward(m', i) && m'[k][i] == 0.0 && forall r | 0 <= r < |m| && r != k :: m'[r] == m[r]
  {
    var m' := Subbed(m, i, k, m[k][i], |m|);
    forall c | 0 <= c < i ensures Stepped(m', c) {
      assert Stepped(m, c);
    }
  }

  /** Clears column i above a pivot of one whose row is otherwise clear. */
  method ClearAbove(m: array<real>, out: array<real>, n: nat, i: nat, ghost inp: Matrix)
    requires m != out && m.Length == n * n && out.Length == n * n && i < n == |inp|
    requires Joined(inp, Rows(m[..], n), Rows(out[..], n))
    requires Forward(Rows(m[..], n), n) && Backward(Rows(m[..], n), i + 1)
    modifies m, out
    ensures Joined(inp, Rows(m[..], n), Rows(out[..], n))
    ensures Forward(Rows(m[..], n), n) && Backward(Rows(m[..], n), i)
  {
    var i2: nat := i;
    while i2 > 0
      invariant i2 <= i
      invariant Joined(inp, Rows(m[..], n), Rows(out[..], n))
      invariant Forward(Rows(m[..], n), n) && Backward(Rows(m[..], n), i + 1)
      invariant forall r | i2 <= r < i :: Rows(m[..], n)[r][i] == 0.0
    {
      i2 := i2 - 1;
      var f := Get(m, n, i2, i);
      JoinedSub(inp, Rows(m[..], n), Rows(out[..], n), i, i2, f);
      SubBackward(Rows(m[..], n), i, i2);
      SubRow(m, out, n, i, i2, f);
    }
  }

  lemma SubBackward(m: Matrix, i: nat, k: nat)
    requires Square(m, |m|) && k < i < |m| && Forward(m, |m|) && Backward(m, i + 1)
    ensures var m' := Subbed(m, i, k, m[k][i], |m|);
      && Square(m', |m|) && Forward(m', |m|) && Backward(m', i + 1)
      && m'[k][i] == 0.0 && forall r | 0 <= r < |m| && r != k :: m'[r] == m[r]
  {
    var m' := Subbed(m, i, k, m[k][i], |m|);
    assert Stepped(m, i);
    forall c | 0 <= c < |m| ensures m'[k][c] == if c == i then 0.0 else m[k][c] {
      assert Stepped(m, c);
    }
    forall c | 0 <= c < |m| ensures Stepped(m', c) {
      assert Stepped(m, c);
    }
  }

  lemma JoinedSwap(inp: Matrix, m: Matrix, out: Matrix, i: nat, k: nat)
    requires Joined(inp, m, out) && i < k < |inp|
    ensures |m| == |inp| == |out| && Joined(inp, Swapped(m, i, k), Swapped(out, i, k))
  {
    var b: Matrix :| Linked(inp, m, out, b);
    var b' := LinkedSwap(inp, m, out, b, i, k);
  }

  lemma JoinedScale(inp: Matrix, m: Matrix, out: Matrix, i: nat, d: real)
    requires Joined(inp, m, out) && i < |inp| && d != 0.0
    ensures |m| == |inp| == |out|
    ensures Joined(inp, m[i := Scaled(m[i], d)], out[i := Scaled(out[i], d)])
  {
    var b: Matrix :| Linked(inp, m, out, b);
    var b' := LinkedScale(inp, m, out, b, i, d);
  }

  lemma JoinedSingular(inp: Matrix, m: Matrix, out: Matrix, i: nat)
    requires Joined(inp, m, out) && Square(m, |m|) && i < |m| && Forward(m, i) && NoPivot(m, i)
    ensures Square(inp, |inp|) && !Invertible(inp)
  {
    var b: Matrix :| Linked(inp, m, out, b);
    LinkedSingular(inp, m, out, b, i);
  }

  /** Brings the largest entry of column i, from row i down, to row i. */
  method Pivot(m: array<real>, out: array<real>, n: nat, i: nat, ghost inp: Matrix) returns (d: real)
    requires m != out && m.Length == n * n && out.Length == n * n && i < n == |inp|
    requires Joined(inp, Rows(m[..], n), Rows(out[..], n)) && Forward(Rows(m[..], n), i)
    modifies m, out
    ensures Joined(inp, Rows(m[..], n), Rows(out[..], n)) && Forward(Rows(m[..], n), i)
    ensures d == Rows(m[..], n)[i][i] && (d == 0.0 ==> NoPivot(Rows(m[..], n), i))
  {
    var imax := FindPivot(m, n, i);
    ghost var was := Rows(m[..], n);
    if i != imax {
      JoinedSwap(inp, Rows(m[..], n), Rows(out[..], n), i, imax);
      SwapForward(Rows(m[..], n), i, imax);
      SwapRows(m, out, n, i, imax);
    }
    d := Get(m, n, i, i);
    LargestIsZero(was, Rows(m[..], n), i, imax);
  }

  lemma LargestIsZero(m: Matrix, m': Matrix, i: nat, k: nat)
    requires Square(m, |m|) && i <= k < |m| && forall r | i <= r < |m| :: Abs(m[r][i]) <= Abs(m[k][i])
    requires m' == if i == k then m else Swapped(m, i, k)
    ensures Square(m', |m|) && (m'[i][i] == 0.0 ==> NoPivot(m', i))
  {
  }

  /** Makes the pivot one. */
  method Normalise(m: array<real>, out: array<real>, n: nat, i: nat, d: real, ghost inp: Matrix)
    requires m != out && m.Length == n * n && out.Length == n * n && i < n == |inp|
    requires Joined(inp, Rows(m[..], n), Rows(out[..], n)) && Forward(Rows(m[..], n), i)
    requires d == Rows(m[..], n)[i][i] && d != 0.0
    modifies m, out
    ensures Joined(inp, Rows(m[..], n), Rows(out[..], n))
    ensures Forward(Rows(m[..], n), i) && Rows(m[..], n)[i][i] == 1.0
  {
    ghost var m0, out0 := Rows(m[..], n), Rows(out[..], n);
    JoinedScale(inp, m0, out0, i, d);
    ScaleForward(m0, i, d);
    ScaleRow(m, out, n, i, d);
    assert Rows(m[..], n) == m0[i := Scaled(m0[i], d)];
  }

  lemma SwapForward(m: Matrix, i: nat, k: nat)
    requires Square(m, |m|) && i < k < |m| && Forward(m, i)
    ensures Square(Swapped(m, i, k), |m|) && Forward(Swapped(m, i, k), i)
  {
    forall c | 0 <= c < i ensures Stepped(Swapped(m, i, k), c) {
      assert Stepped(m, c);
    }
  }

  lemma ScaleForward(m: Matrix, i: nat, d: real)
    requires Square(m, |m|) && i < |m| && d != 0.0 && d == m[i][i] && Forward(m, i)
    ensures Square(m[i := Scaled(m[i], d)], |m|) && Forward(m[i := Scaled(m[i], d)], i)
    ensures Scaled(m[i], d)[i] == 1.0
  {
    var m' := m[i := Scaled(m[i], d)];
    forall c | 0 <= c < i ensures Stepped(m', c) {
      assert Stepped(m, c);
    }
  }

  /** Inverts `inp` into `out`; `ok` says that every chosen pivot was nonzero,
      which is so exactly when there is an inverse, and then `out` is the inverse
      on both sides. */
  method Invert(inp: array<real>, out: array<real>, n: nat) returns (ok: bool)
    requires inp.Length == n * n && out.Length == n * n
    modifies out
    ensures ok <==> Invertible(old(Rows(inp[..], n)))
    ensures ok ==> Product(Rows(out[..], n), old(Rows(inp[..], n))) == Identity(n)
    ensures ok ==> Product(old(Rows(inp[..], n)), Rows(out[..], n)) == Identity(n)
  {
    ghost var was := Rows(inp[..], n);
    var m := new real[n * n];
    Copy(inp, m, n);
    SetIdentity(out, n);
    LinkedInit(was);
    ok := GoForward(m, out, n, was);
    if ok {
      GoBackward(m, out, n, was);
      JoinedInverse(was, Rows(out[..], n));
    }
  }

  /** The first loop: down to a unit upper triangular matrix, or to a column
      without pivot. */
  method GoForward(m: array<real>, out: array<real>, n: nat, ghost inp: Matrix) returns (ok: bool)
    requires m != out && m.Length == n * n && out.Length == n * n && |inp| == n
    requires Joined(inp, Rows(m[..], n), Rows(out[..], n))
    modifies m, out
    ensures Square(inp, n) && (!ok ==> !Invertible(inp))
    ensures ok ==> Joined(inp, Rows(m[..], n), Rows(out[..], n)) && Forward(Rows(m[..], n), n)
  {
    for i := 0 to n
      invariant Joined(inp, Rows(m[..], n), Rows(out[..], n)) && Forward(Rows(m[..], n), i)
    {
      var d := Pivot(m, out, n, i, inp);
      if d == 0.0 {
        JoinedSingular(inp, Rows(m[..], n), Rows(out[..], n), i);
        return false;
      }
      Normalise(m, out, n, i, d, inp);
      ClearBelow(m, out, n, i, inp);
    }
    ok := true;
  }

  /** The second loop: back up to the identity. */
  method GoBackward(m: array<real>, out: array<real>, n: nat, ghost inp: Matrix)
    requires m != out && m.Length == n * n && out.Length == n * n && |inp| == n
    requires Joined(inp, Rows(m[..], n), Rows(out[..], n)) && Forward(Rows(m[..], n), n)
    modifies m, out
    ensures Joined(inp, Identity(n), Rows(out[..], n))
  {
    var i: nat := n;
    while i > 0
      invariant i <= n
      invariant Joined(inp, Rows(m[..], n), Rows(out[..], n))
      invariant Forward(Rows(m[..], n), n) && Backward(Rows(m[..], n), i)
    {
      i := i - 1;
      ClearAbove(m, out, n, i, inp);
    }
    ForwardBackward(Rows(m[..], n));
  }

  lemma JoinedInverse(inp: Matrix, out: Matrix)
    requires Joined(inp, Identity(|inp|), out)
    ensures Square(inp, |inp|) && Square(out, |inp|) && Invertible(inp)
    ensures Product(out, inp) == Identity(|inp|) && Product(inp, out) == Identity(|inp|)
  {
    var b: Matrix :| Linked(inp, Identity(|inp|), out, b);
    LinkedInverse(inp, out, b);
  }

  // ----------------------------------------------- product and identity test

  method Multiply(a: array<real>, b: array<real>, out: array<real>, n: nat)
    requires a.Length == n * n && b.Length == n * n && out.Length == n * n && out != a && out != b
    modifies out
    ensures Rows(out[..], n) == Product(Rows(a[..], n), Rows(b[..], n))
  {
    ghost var p := Product(Rows(a[..], n), Rows(b[..], n));
    for i := 0 to n
      invariant forall r | 0 <= r < i :: Rows(out[..], n)[r] == p[r]
    {
      for j := 0 to n
        invariant forall r | 0 <= r < i :: Rows(out[..], n)[r] == p[r]
        invariant forall c | 0 <= c < j :: Rows(out[..], n)[i][c] == p[i][c]
      {
        var acc := Entry(a, b, n, i, j);
        Set(out, n, i, j, acc);
      }
      assert Rows(out[..], n)[i] == p[i];
    }
  }

  method Entry(a: array<real>, b: array<real>, n: nat, i: nat, j: nat) returns (acc: real)
    requires a.Length == n * n && b.Length == n * n && i < n && j < n
    ensures acc == Product(Rows(a[..], n), Rows(b[..], n))[i][j]
  {
    acc := 0.0;
    for k := 0 to n
      invariant acc == ColSum(Rows(a[..], n)[i], Rows(b[..], n), j, k)
    {
      var x := Get(a, n, i, k);
      var y := Get(b, n, k, j);
      ColSumNext(Rows(a[..], n)[i], Rows(b[..], n), j, k, acc, x, y);
      acc := acc + x * y;
    }
  }

  const EPSILON := 0.00001

  method IsIdentity(a: array<real>, n: nat) returns (valid: bool)
    requires a.Length == n * n
    ensures valid <==> forall i, j | 0 <= i < n && 0 <= j < n ::
                         Abs(Rows(a[..], n)[i][j] - Identity(n)[i][j]) <= EPSILON
  {
    valid := true;
    for i := 0 to n
      invariant valid <==> forall r, c | 0 <= r < i && 0 <= c < n ::
                             Abs(Rows(a[..], n)[r][c] - Identity(n)[r][c]) <= EPSILON
    {
      for j := 0 to n
        invariant valid <==> forall r, c | 0 <= r <= i && 0 <= c < (if r < i then n else j) ::
                               Abs(Rows(a[..], n)[r][c] - Identity(n)[r][c]) <= EPSILON
      {
        var v := Get(a, n, i, j);
        valid := valid && Abs(v - (if i == j then 1.0 else 0.0)) <= EPSILON;
      }
    }
  }

  /** Whether a times b passes the identity test. */
  method Check(a: array<real>, b: array<real>, n: nat) returns (valid: bool)
    requires a.Length == n * n && b.Length == n * n
    ensures Product(Rows(a[..], n), Rows(b[..], n)) == Identity(n) ==> valid
  {
    var p := new real[n * n];
    Multiply(a, b, p, n);
    valid := IsIdentity(p, n);
  }

  /** What they are for: an inverted matrix, multiplied back from either side,
      passes the identity test. */
  method InvertAndCheck(inp: array<real>, n: nat) returns (ok: bool, valid: bool)
    requires inp.Length == n * n
    ensures ok <==> Invertible(Rows(inp[..], n))
    ensures ok ==> valid
  {
    var inv := new real[n * n];
    ok := Invert(inp, inv, n);
    var left := Check(inv, inp, n);
    var right := Check(inp, inv, n);
    valid := left && right;
  }
}
