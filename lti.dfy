// Linear time-invariant systems: a state-space model stepped by forward
// Euler, and the controllable canonical form a transfer function is turned
// into, built here from its coefficient lists (highest power first).
// Parsing an equation into those lists is not part of this model.
module Lti {
  import opened Wrappers

  // ---------------------------------------------------------------------------
  // Matrices and vectors
  // ---------------------------------------------------------------------------

  /** A dense matrix with its shape; column vectors are plain sequences. */
  datatype Matrix = Matrix(rows: nat, cols: nat, e: seq<seq<real>>)

  predicate Shaped(m: Matrix)
  {
    |m.e| == m.rows && forall i | 0 <= i < |m.e| :: |m.e[i]| == m.cols
  }

  function Zeros(rows: nat, cols: nat): (z: Matrix)
    ensures Shaped(z) && z.rows == rows && z.cols == cols
    ensures forall i, j | 0 <= i < rows && 0 <= j < cols :: z.e[i][j] == 0.0
  {
    Matrix(rows, cols, seq(rows, _ => seq(cols, _ => 0.0)))
  }

  function ZeroVector(n: nat): (z: seq<real>)
    ensures |z| == n && forall i | 0 <= i < n :: z[i] == 0.0
  {
    seq(n, _ => 0.0)
  }

  /** The inner product of two equally long sequences. */
  function Dot(r: seq<real>, x: seq<real>): real
    requires |r| == |x|
  {
    if r == [] then 0.0 else r[0] * x[0] + Dot(r[1..], x[1..])
  }

  function MatVec(m: Matrix, x: seq<real>): (y: seq<real>)
    requires Shaped(m) && m.cols == |x|
    ensures |y| == m.rows && forall i | 0 <= i < m.rows :: y[i] == Dot(m.e[i], x)
  {
    seq(m.rows, i requires 0 <= i < m.rows => Dot(m.e[i], x))
  }

  function Add(x: seq<real>, y: seq<real>): (z: seq<real>)
    requires |x| == |y|
    ensures |z| == |x| && forall i | 0 <= i < |x| :: z[i] == x[i] + y[i]
  {
    seq(|x|, i requires 0 <= i < |x| => x[i] + y[i])
  }

  function Scale(x: seq<real>, k: real): (z: seq<real>)
    ensures |z| == |x| && forall i | 0 <= i < |x| :: z[i] == x[i] * k
  {
    seq(|x|, i requires 0 <= i < |x| => x[i] * k)
  }

  /** A row with a single 1 at column k picks out x[k]. */
  lemma {:induction false} DotUnit(r: seq<real>, x: seq<real>, k: nat)
    requires |r| == |x| && k < |r|
    requires forall j | 0 <= j < |r| :: r[j] == if j == k then 1.0 else 0.0
    ensures Dot(r, x) == x[k]
  {
    if k == 0 {
      DotZeroRow(r[1..], x[1..]);
    } else {
      DotUnit(r[1..], x[1..], k - 1);
    }
  }

  lemma {:induction false} DotZeroRow(r: seq<real>, x: seq<real>)
    requires |r| == |x| && forall j | 0 <= j < |r| :: r[j] == 0.0
    ensures Dot(r, x) == 0.0
  {
    if r != [] {
      DotZeroRow(r[1..], x[1..]);
    }
  }

  lemma {:induction false} DotZeroVector(r: seq<real>, x: seq<real>)
    requires |r| == |x| && forall j | 0 <= j < |x| :: x[j] == 0.0
    ensures Dot(r, x) == 0.0
  {
    if r != [] {
      DotZeroVector(r[1..], x[1..]);
    }
  }

  lemma Dot1(r: seq<real>, x: seq<real>)
    requires |r| == |x| == 1
    ensures Dot(r, x) == r[0] * x[0]
  {
    assert Dot(r[1..], x[1..]) == 0.0;
  }

  lemma Dot2(r: seq<real>, x: seq<real>)
    requires |r| == |x| == 2
    ensures Dot(r, x) == r[0] * x[0] + r[1] * x[1]
  {
    Dot1(r[1..], x[1..]);
  }

  /** Against a vector that is zero after its first entry, only the first column counts. */
  lemma DotFirstOnly(r: seq<real>, x: seq<real>)
    requires |r| == |x| >= 1 && forall j | 1 <= j < |x| :: x[j] == 0.0
    ensures Dot(r, x) == r[0] * x[0]
  {
    DotZeroVector(r[1..], x[1..]);
  }

  // ---------------------------------------------------------------------------
  // StateSpace
  // ---------------------------------------------------------------------------

  /**
   * `not d` for the optional feed-through matrix: None and an empty array
   * are falsy, a one-entry array is falsy when that entry is 0, and a larger
   * array has no truth value (numpy raises ValueError).
   */
  function MatrixFalsy(d: Option<Matrix>): (r: Result<bool>)
    requires d.Some? ==> Shaped(d.value)
    ensures d.None? ==> r == Ok(true)
    ensures d.Some? && d.value.rows == 1 && d.value.cols == 1 ==> r == Ok(d.value.e[0][0] == 0.0)
    ensures r.Err? <==> d.Some? && d.value.rows >= 1 && d.value.cols >= 1 && !(d.value.rows == 1 && d.value.cols == 1)
  {
    if d.None? || d.value.rows == 0 || d.value.cols == 0 then Ok(true)
    else if d.value.rows == 1 && d.value.cols == 1 then Ok(d.value.e[0][0] == 0.0)
    else Err(ValueError)
  }

  /** `not xo` for the optional initial state column, by the same rules. */
  function VectorFalsy(xo: Option<seq<real>>): (r: Result<bool>)
    ensures xo.None? ==> r == Ok(true)
    ensures r.Err? <==> xo.Some? && |xo.value| > 1
  {
    if xo.None? || |xo.value| == 0 then Ok(true)
    else if |xo.value| == 1 then Ok(xo.value[0] == 0.0)
    else Err(ValueError)
  }

  /** One forward-Euler step of dx/dt = A x + B u. */
  function Advance(a: Matrix, b: Matrix, x: seq<real>, u: seq<real>, dt: real): (x': seq<real>)
    requires Shaped(a) && Shaped(b) && a.cols == |x| && a.rows == |x| && b.rows == |x| && b.cols == |u|
    ensures |x'| == |x|
  {
    Add(x, Scale(Add(MatVec(a, x), MatVec(b, u)), dt))
  }

  /** The output y = C x + D u. */
  function Output(c: Matrix, d: Matrix, x: seq<real>, u: seq<real>): (y: seq<real>)
    requires Shaped(c) && Shaped(d) && c.cols == |x| && d.cols == |u| && d.rows == c.rows
    ensures |y| == c.rows
  {
    Add(MatVec(c, x), MatVec(d, u))
  }

  /** u is an equilibrium input for state x: A x + B u vanishes. */
  predicate Equilibrium(a: Matrix, b: Matrix, x: seq<real>, u: seq<real>)
    requires Shaped(a) && Shaped(b) && a.cols == |x| && b.cols == |u| && a.rows == b.rows
  {
    Add(MatVec(a, x), MatVec(b, u)) == ZeroVector(a.rows)
  }

  /** A state at equilibrium is left where it is by a step of any length. */
  lemma EquilibriumIsFixed(a: Matrix, b: Matrix, x: seq<real>, u: seq<real>, dt: real)
    requires Shaped(a) && Shaped(b) && a.cols == |x| && a.rows == |x| && b.rows == |x| && b.cols == |u|
    requires Equilibrium(a, b, x, u)
    ensures Advance(a, b, x, u, dt) == x
  {
    var dx := Add(MatVec(a, x), MatVec(b, u));
    var s := Scale(dx, dt);
    assert forall i | 0 <= i < |x| :: s[i] == 0.0;
    assert Add(x, s) == x;
  }

  /** Conversely, a state a step of non-zero length leaves unchanged is an equilibrium. */
  lemma FixedIsEquilibrium(a: Matrix, b: Matrix, x: seq<real>, u: seq<real>, dt: real)
    requires Shaped(a) && Shaped(b) && a.cols == |x| && a.rows == |x| && b.rows == |x| && b.cols == |u|
    requires dt != 0.0 && Advance(a, b, x, u, dt) == x
    ensures Equilibrium(a, b, x, u)
  {
    var dx := Add(MatVec(a, x), MatVec(b, u));
    forall i | 0 <= i < |x|
      ensures dx[i] == 0.0
    {
      assert Advance(a, b, x, u, dt)[i] == x[i] + dx[i] * dt;
    }
  }

  class StateSpace {
    const a: Matrix
    const b: Matrix
    const c: Matrix
    const d: Matrix
    const xo: seq<real>
    /** The number of states, inputs and outputs, from the shapes of a, b and c. */
    const n: nat
    const m: nat
    const l: nat
    var x: seq<real>
    var xh: seq<real>
    var u: seq<real>
    var y: Option<seq<real>>

    /**
     * A falsy d becomes an m-by-l zero matrix and a falsy xo an n-long zero
     * column; the state and its history start at xo, the input at n zeros,
     * and there is no output yet.
     */
    constructor (a: Matrix, b: Matrix, c: Matrix, d: Option<Matrix>, xo: Option<seq<real>>)
      requires Shaped(a) && Shaped(b) && Shaped(c) && (d.Some? ==> Shaped(d.value))
      requires MatrixFalsy(d).Ok? && VectorFalsy(xo).Ok?
      ensures this.a == a && this.b == b && this.c == c
      ensures n == a.rows && m == b.cols && l == c.rows
      ensures this.d == if MatrixFalsy(d).value then Zeros(b.cols, c.rows) else d.value
      ensures this.xo == if VectorFalsy(xo).value then ZeroVector(a.rows) else xo.value
      ensures x == this.xo && xh == this.xo && u == ZeroVector(a.rows) && y.None?
    {
      this.a := a;
      this.b := b;
      this.c := c;
      n := a.rows;
      m := b.cols;
      l := c.rows;
      this.d := if MatrixFalsy(d).value then Zeros(b.cols, c.rows) else d.value;
      this.xo := if VectorFalsy(xo).value then ZeroVector(a.rows) else xo.value;
      new;
      x := this.xo;
      xh := this.xo;
      u := ZeroVector(n);
      y := None;
    }

    /** reset returns the state and its history to xo and the input to zeros. */
    method Reset(dt: real)
      modifies this`x, this`xh, this`u
      ensures x == xo && xh == xo && u == ZeroVector(n) && y == old(y)
    {
      x := xo;
      xh := xo;
      u := ZeroVector(n);
    }

    /** The shapes under which a step with an input of k entries is defined. */
    predicate Conformable(k: nat)
      reads this
    {
      && Shaped(a) && Shaped(b) && Shaped(c) && Shaped(d)
      && a.rows == |x| && a.cols == |x| && b.rows == |x| && b.cols == k
      && c.cols == |x| && d.rows == c.rows && d.cols == k
    }

    /**
     * step: the state moves one forward-Euler step, the output is read from
     * the new state, and the history follows the state.
     */
    method Step(uIn: seq<real>, dt: real, t: real) returns (yOut: seq<real>)
      requires Conformable(|uIn|)
      modifies this`x, this`xh, this`u, this`y
      ensures u == uIn && x == Advance(a, b, old(x), uIn, dt) && xh == x
      ensures y == Some(Output(c, d, x, uIn)) && yOut == y.value
    {
      u := uIn;
      var dx := Add(MatVec(a, x), MatVec(b, uIn));
      x := Add(x, Scale(dx, dt));
      yOut := Add(MatVec(c, x), MatVec(d, uIn));
      y := Some(yOut);
      xh := x;
    }
  }

  // ---------------------------------------------------------------------------
  // Controllable canonical form
  // ---------------------------------------------------------------------------

  /** The numerator left-padded with zeros to n coefficients. */
  function PadLeft(num: seq<real>, n: nat): (p: seq<real>)
    requires |num| <= n
    ensures |p| == n && p[n - |num|..] == num
    ensures forall i | 0 <= i < n - |num| :: p[i] == 0.0
  {
    ZeroVector(n - |num|) + num
  }

  /** The trailing coefficients of a list, each divided by its leading one a0. */
  function Normalized(coeffs: seq<real>, a0: real): (r: seq<real>)
    requires |coeffs| >= 1 && a0 != 0.0
    ensures |r| == |coeffs| - 1 && forall i | 0 <= i < |r| :: r[i] == coeffs[i + 1] / a0
  {
    seq(|coeffs| - 1, i requires 0 <= i < |coeffs| - 1 => coeffs[i + 1] / a0)
  }

  /** A as the code fills it: ones on the superdiagonal, the last row -a' in the list's order. */
  function AsWrittenA(ap: seq<real>): (m: Matrix)
    ensures Shaped(m) && m.rows == |ap| && m.cols == |ap|
  {
    var n := |ap|;
    Matrix(n, n, seq(n, i => seq(n, j requires 0 <= j < n =>
      if j == i + 1 then 1.0 else if i == n - 1 then -ap[j] else 0.0)))
  }

  /** A of the controllable canonical form: the last row holds -a' reversed, -a'[n-1] first. */
  function CompanionA(ap: seq<real>): (m: Matrix)
    ensures Shaped(m) && m.rows == |ap| && m.cols == |ap|
  {
    var n := |ap|;
    Matrix(n, n, seq(n, i => seq(n, j requires 0 <= j < n =>
      if j == i + 1 then 1.0 else if i == n - 1 then -ap[n - 1 - j] else 0.0)))
  }

  /** B: a single 1 in the last row. */
  function InputColumn(n: nat): (m: Matrix)
    ensures Shaped(m) && m.rows == n && m.cols == 1
  {
    Matrix(n, 1, seq(n, i => [if i == n - 1 then 1.0 else 0.0]))
  }

  /** C: entry i is b'[n-1-i] - a'[n-1-i]*bo. */
  function OutputRow(ap: seq<real>, bp: seq<real>, bo: real): (m: Matrix)
    requires |ap| == |bp|
    ensures Shaped(m) && m.rows == 1 && m.cols == |ap|
  {
    var n := |ap|;
    Matrix(1, n, [seq(n, i requires 0 <= i < n => bp[n - 1 - i] - ap[n - 1 - i] * bo)])
  }

  /** D: the padded numerator's leading coefficient. */
  function Feedthrough(bo: real): (m: Matrix)
    ensures Shaped(m) && m.rows == 1 && m.cols == 1 && m.e[0][0] == bo
  {
    Matrix(1, 1, [[bo]])
  }

  /** The normalised coefficients: a', b' and bo for denominator den and numerator num. */
  function Coefficients(den: seq<real>, num: seq<real>): (r: (seq<real>, seq<real>, real))
    requires |den| >= 1 && den[0] != 0.0 && |num| <= |den|
    ensures |r.0| == |den| - 1 && |r.1| == |den| - 1
  {
    var p := PadLeft(num, |den|);
    (Normalized(den, den[0]), Normalized(p, den[0]), p[0])
  }

  class TransferFunction {
    const equation: string
    var isGain: bool
    var ss: StateSpace?

    /** The equation is kept; building the system from it needs the parser, which is not modelled. */
    constructor (equation: string)
      ensures this.equation == equation && !isGain && ss == null
    {
      this.equation := equation;
      isGain := false;
      ss := null;
    }

    /**
     * reset from the coefficient lists: a numerator longer than the
     * denominator cannot be padded (ValueError); a constant denominator
     * leaves no state to put B's 1 in (IndexError); otherwise a fresh
     * state-space system in the form the code builds. The pure-gain flag is
     * always cleared, so its branch is never taken.
     */
    method ResetFromCoefficients(den: seq<real>, num: seq<real>) returns (out: Outcome)
      requires |den| >= 1 && den[0] != 0.0
      modifies this`isGain, this`ss
      ensures !isGain
      ensures |num| > |den| ==> out == Raised(ValueError) && ss == old(ss)
      ensures |num| <= |den| && |den| == 1 ==> out == Raised(IndexError) && ss == old(ss)
      ensures |num| <= |den| && |den| >= 2 ==>
                && var (ap, bp, bo) := Coefficients(den, num);
                && out == Done && ss != null && fresh(ss)
                && ss.a == AsWrittenA(ap) && ss.b == InputColumn(|ap|)
                && ss.c == OutputRow(ap, bp, bo) && ss.d == Feedthrough(bo)
                && ss.x == ZeroVector(|ap|)
    {
      isGain := false;
      var n := |den|;
      if |num| > n {
        return Raised(ValueError);
      }
      var p := PadLeft(num, n);
      var bo := p[0];
      var ao := den[0];
      var an, bn := NormalizeInPlace(den, p, ao);
      n := n - 1;
      var A, C := FillCompanion(an, bn, bo);
      if n == 0 {
        return Raised(IndexError);
      }
      var am := Matrix(n, n, Rows(A));
      var cm := Matrix(1, n, Rows(C));
      SameRows(A, AsWrittenA(an[..]));
      SameRows(C, OutputRow(an[..], bn[..], bo));
      assert Zeros(1, 1) == Feedthrough(0.0) by {
        assert Zeros(1, 1).e[0] == [0.0];
      }
      ss := new StateSpace(am, InputColumn(n), cm, Some(Feedthrough(bo)), None);
      out := Done;
    }
  }

  /** The truncated lists a[1:] and b[1:], each entry divided by a0 in a loop. */
  method NormalizeInPlace(den: seq<real>, p: seq<real>, ao: real) returns (an: array<real>, bn: array<real>)
    requires |den| == |p| >= 1 && ao != 0.0
    ensures fresh(an) && fresh(bn)
    ensures an[..] == Normalized(den, ao) && bn[..] == Normalized(p, ao)
  {
    var n := |den| - 1;
    an := new real[n](i requires 0 <= i < n => den[i + 1]);
    bn := new real[n](i requires 0 <= i < n => p[i + 1]);
    for i := 0 to n
      invariant forall k | 0 <= k < i :: an[k] == den[k + 1] / ao && bn[k] == p[k + 1] / ao
      invariant forall k | i <= k < n :: an[k] == den[k + 1] && bn[k] == p[k + 1]
    {
      an[i] := an[i] / ao;
      bn[i] := bn[i] / ao;
    }
  }

  /** The rows of a two-dimensional array, as a value. */
  function Rows(m: array2<real>): (r: seq<seq<real>>)
    reads m
    ensures |r| == m.Length0 && forall i | 0 <= i < |r| :: |r[i]| == m.Length1
    ensures forall i, j | 0 <= i < m.Length0 && 0 <= j < m.Length1 :: r[i][j] == m[i, j]
  {
    seq(m.Length0, i requires 0 <= i < m.Length0 reads m => seq(m.Length1, j requires 0 <= j < m.Length1 reads m => m[i, j]))
  }

  /** An array holding a matrix's entries has that matrix's rows. */
  lemma SameRows(arr: array2<real>, m: Matrix)
    requires Shaped(m) && arr.Length0 == m.rows && arr.Length1 == m.cols
    requires forall i, j | 0 <= i < m.rows && 0 <= j < m.cols :: arr[i, j] == m.e[i][j]
    ensures Matrix(m.rows, m.cols, Rows(arr)) == m
  {
    forall i | 0 <= i < m.rows
      ensures Rows(arr)[i] == m.e[i]
    {
    }
  }

  /** The nested loop that writes A's superdiagonal and last row, and C, into zero arrays. */
  method FillCompanion(an: array<real>, bn: array<real>, bo: real) returns (A: array2<real>, C: array2<real>)
    requires an.Length == bn.Length
    ensures fresh(A) && fresh(C)
    ensures A.Length0 == an.Length && A.Length1 == an.Length && C.Length0 == 1 && C.Length1 == an.Length
    ensures forall i, j | 0 <= i < an.Length && 0 <= j < an.Length :: A[i, j] == AsWrittenA(an[..]).e[i][j]
    ensures forall i | 0 <= i < an.Length :: C[0, i] == OutputRow(an[..], bn[..], bo).e[0][i]
  {
    var n := an.Length;
    A := new real[n, n]((i, j) => 0.0);
    C := new real[1, n]((i, j) => 0.0);
    for i := 0 to n
      invariant forall r, j | 0 <= r < i && 0 <= j < n :: A[r, j] == AsWrittenA(an[..]).e[r][j]
      invariant forall r, j | i <= r < n && 0 <= j < n :: A[r, j] == 0.0
      invariant forall r | 0 <= r < i :: C[0, r] == OutputRow(an[..], bn[..], bo).e[0][r]
    {
      for j := 0 to n
        invariant forall r, k | 0 <= r < i && 0 <= k < n :: A[r, k] == AsWrittenA(an[..]).e[r][k]
        invariant forall k | 0 <= k < j :: A[i, k] == AsWrittenA(an[..]).e[i][k]
        invariant forall r, k | i <= r < n && 0 <= k < n && (r != i || k >= j) :: A[r, k] == 0.0
        invariant forall r | 0 <= r < i :: C[0, r] == OutputRow(an[..], bn[..], bo).e[0][r]
      {
        if j == i + 1 {
          A[i, j] := 1.0;
        } else if i == n - 1 {
          A[i, j] := -an[j];
        }
      }
      assert OutputRow(an[..], bn[..], bo).e[0][i] == bn[n - 1 - i] - an[n - 1 - i] * bo;
      C[0, i] := bn[n - 1 - i] - an[n - 1 - i] * bo;
    }
  }

  // ---------------------------------------------------------------------------
  // What the canonical form realises
  // ---------------------------------------------------------------------------

  /** The steady-state gain num(0)/den(0) the transfer function promises: the last coefficients' ratio. */
  function DcGain(den: seq<real>, num: seq<real>): real
    requires |den| >= 1 && |num| <= |den| && den[|den| - 1] != 0.0
  {
    PadLeft(num, |den|)[|den| - 1] / den[|den| - 1]
  }

  /**
   * An equilibrium of the canonical form under a constant input u has every
   * state but the first at zero, and the first at u / a'[n-1].
   */
  lemma CompanionEquilibrium(ap: seq<real>, x: seq<real>, u: real)
    requires |ap| >= 1 && |x| == |ap|
    requires Equilibrium(CompanionA(ap), InputColumn(|ap|), x, [u])
    ensures forall j | 1 <= j < |x| :: x[j] == 0.0
    ensures ap[|ap| - 1] * x[0] == u
  {
    var n := |ap|;
    var A := CompanionA(ap);
    var B := InputColumn(n);
    var dx := Add(MatVec(A, x), MatVec(B, [u]));
    forall j | 1 <= j < n
      ensures x[j] == 0.0
    {
      DotUnit(A.e[j - 1], x, j);
      assert dx[j - 1] == 0.0;
      Dot1(B.e[j - 1], [u]);
    }
    DotFirstOnly(A.e[n - 1], x);
    assert dx[n - 1] == 0.0;
    Dot1(B.e[n - 1], [u]);
  }

  /** At such an equilibrium the output is b'[n-1] * x[0]: the bo terms cancel. */
  lemma CompanionOutput(ap: seq<real>, bp: seq<real>, bo: real, x: seq<real>, u: real)
    requires |ap| >= 1 && |bp| == |ap| && |x| == |ap|
    requires forall j | 1 <= j < |x| :: x[j] == 0.0
    requires ap[|ap| - 1] * x[0] == u
    ensures Output(OutputRow(ap, bp, bo), Feedthrough(bo), x, [u])[0] == bp[|ap| - 1] * x[0]
  {
    var n := |ap|;
    var C := OutputRow(ap, bp, bo);
    DotFirstOnly(C.e[0], x);
    Dot1(Feedthrough(bo).e[0], [u]);
    var y := Output(C, Feedthrough(bo), x, [u]);
    assert C.e[0][0] == bp[n - 1] - ap[n - 1] * bo;
    calc {
      y[0];
      (bp[n - 1] - ap[n - 1] * bo) * x[0] + bo * u;
      bp[n - 1] * x[0] - bo * (ap[n - 1] * x[0]) + bo * u;
      bp[n - 1] * x[0];
    }
  }

  /**
   * With the last row reversed, the canonical form has the transfer
   * function's steady state: at any equilibrium under a constant input u the
   * output is num(0)/den(0) * u.
   */
  lemma CanonicalFormDcGain(den: seq<real>, num: seq<real>, x: seq<real>, u: real)
    requires |den| >= 2 && den[0] != 0.0 && den[|den| - 1] != 0.0 && |num| <= |den|
    requires |x| == |den| - 1
    requires Equilibrium(CompanionA(Coefficients(den, num).0), InputColumn(|den| - 1), x, [u])
    ensures Output(OutputRow(Coefficients(den, num).0, Coefficients(den, num).1, Coefficients(den, num).2),
                   Feedthrough(Coefficients(den, num).2), x, [u])[0]
            == DcGain(den, num) * u
  {
    var (ap, bp, bo) := Coefficients(den, num);
    var n := |ap|;
    CompanionEquilibrium(ap, x, u);
    CompanionOutput(ap, bp, bo, x, u);
    var p := PadLeft(num, |den|);
    assert ap[n - 1] == den[n] / den[0] && bp[n - 1] == p[n] / den[0];
    GainRatio(p[n], den[n], den[0], u, x[0]);
  }

  /** With (d/a0) * x == u, (b/a0) * x == (b/d) * u. */
  lemma GainRatio(b: real, d: real, a0: real, u: real, x: real)
    requires d != 0.0 && a0 != 0.0 && (d / a0) * x == u
    ensures (b / a0) * x == b / d * u
  {
    assert d * x == u * a0 by {
      assert (d / a0) * x * a0 == u * a0;
    }
    assert (b / a0) * x * d == (b / d * u) * d by {
      assert (b / a0) * x * d == b * (d * x) / a0;
      assert b * (u * a0) / a0 == b * u;
    }
    assert d * ((b / a0) * x - b / d * u) == 0.0;
  }

  /**
   * As the code fills A, the last row is not reversed. For 1/(s^2 + 3s + 2)
   * the state [1/3, 0] is an equilibrium under input 1 and the output there
   * is 1/3, where the transfer function's steady state is 1/2.
   */
  lemma AsWrittenDcGainWrong()
    ensures var (ap, bp, bo) := Coefficients([1.0, 3.0, 2.0], [1.0]);
            && Equilibrium(AsWrittenA(ap), InputColumn(2), [1.0 / 3.0, 0.0], [1.0])
            && Output(OutputRow(ap, bp, bo), Feedthrough(bo), [1.0 / 3.0, 0.0], [1.0]) == [1.0 / 3.0]
            && DcGain([1.0, 3.0, 2.0], [1.0]) == 1.0 / 2.0
  {
    var (ap, bp, bo) := Coefficients([1.0, 3.0, 2.0], [1.0]);
    assert PadLeft([1.0], 3) == [0.0, 0.0, 1.0];
    assert ap == [3.0, 2.0] && bp == [0.0, 1.0] && bo == 0.0;
    var A := AsWrittenA(ap);
    assert A.e[0][0] == 0.0 && A.e[0][1] == 1.0 && A.e[1][0] == -3.0 && A.e[1][1] == -2.0;
    var B := InputColumn(2);
    assert B.e[0][0] == 0.0 && B.e[1][0] == 1.0;
    var x := [1.0 / 3.0, 0.0];
    Dot2(A.e[0], x);
    Dot2(A.e[1], x);
    Dot1(B.e[0], [1.0]);
    Dot1(B.e[1], [1.0]);
    var dx := Add(MatVec(A, x), MatVec(B, [1.0]));
    assert dx[0] == 0.0 && dx[1] == 0.0;
    assert dx == ZeroVector(2);
    var C := OutputRow(ap, bp, bo);
    assert C.e[0][0] == 1.0 && C.e[0][1] == 0.0;
    Dot2(C.e[0], x);
    Dot1(Feedthrough(bo).e[0], [1.0]);
    var y := Output(C, Feedthrough(bo), x, [1.0]);
    assert y[0] == 1.0 / 3.0;
  }
}
