/**
 * The fixed-step contact integrator of the five-degree-of-freedom cart
 * (class SolverLcp) and the closed-form helpers it evaluates, over reals.
 *
 * The state is the 10-slot vector that interleaves the five generalised
 * positions (x, y, z, theta, phi) in the even slots with their rates in the
 * odd slots; the controls are the two wheel rates. sin and cos, the bias
 * vector fn_H, np.linalg.solve and the QP backend are supplied as functions
 * (`Numerics`); the model proves the structure of the step around them.
 */
module Solver {
  import opened Wrappers
  import opened LinAlg

  /** Generalised coordinates. */
  const Dof: nat := 5
  /** Slots of the state vector, 2 * dof. */
  const Width: nat := 10
  /** Wheel-rate inputs. */
  const Controls: nat := 2
  /** Constraint functions. */
  const Constraints: nat := 2
  /** Default diagonal regularisation of solve_lcp. */
  const Reg: real := 0.00000001

  /**
   * The numerical collaborators: math.sin and math.cos, the bias vector
   * fn_H(t, *fq, *fv), np.linalg.solve(A, b) for one right-hand side, and
   * solve_qp(P, q, G=-I, h=0, lb=0).
   */
  datatype Numerics = Numerics(
    sin: real -> real,
    cos: real -> real,
    bias: (Vector, Vector) -> Vector,
    linSolve: (Matrix, Vector) -> Vector,
    qp: (Matrix, Vector) -> Vector)

  /** The collaborators return vectors of the shapes numpy would. */
  ghost predicate Shaped(n: Numerics)
  {
    && (forall fq, fv :: |n.bias(fq, fv)| == Dof)
    && (forall A, b :: |n.linSolve(A, b)| == |b|)
    && (forall P, q :: |n.qp(P, q)| == |q|)
  }

  /** sin^2 + cos^2 = 1 at the two angles of a state. */
  ghost predicate Pythagorean(n: Numerics, fq: Vector)
    requires |fq| == Width
  {
    && n.sin(Theta(fq)) * n.sin(Theta(fq)) + n.cos(Theta(fq)) * n.cos(Theta(fq)) == 1.0
    && n.sin(Phi(fq)) * n.sin(Phi(fq)) + n.cos(Phi(fq)) * n.cos(Phi(fq)) == 1.0
  }

  // ---------------------------------------------------------------------------
  // State layout

  // The slots are written out: with Width fixed at 10, fq[0::2] and fq[1::2]
  // are five-element displays, and their index laws are the lemmas below.

  /** fq[0::2]: the generalised positions. */
  function Positions(fq: Vector): (q: Vector)
    requires |fq| == Width
    ensures |q| == Dof && q[0] == fq[0] && q[Dof - 1] == fq[Width - 2]
  {
    [fq[0], fq[2], fq[4], fq[6], fq[8]]
  }

  /** fq[1::2]: the generalised velocities. */
  function Velocities(fq: Vector): (v: Vector)
    requires |fq| == Width
    ensures |v| == Dof && v[0] == fq[1] && v[Dof - 1] == fq[Width - 1]
  {
    [fq[1], fq[3], fq[5], fq[7], fq[9]]
  }

  /** A state with q in the even slots and v in the odd slots. */
  function Interleave(q: Vector, v: Vector): (fq: Vector)
    requires |q| == Dof && |v| == Dof
    ensures |fq| == Width && fq[0] == q[0] && fq[Width - 1] == v[Dof - 1]
  {
    [q[0], v[0], q[1], v[1], q[2], v[2], q[3], v[3], q[4], v[4]]
  }

  /** Position i sits in slot 2i and velocity i in slot 2i + 1. */
  lemma SlotsOf(fq: Vector)
    requires |fq| == Width
    ensures forall i :: 0 <= i < Dof ==> Positions(fq)[i] == fq[2 * i] && Velocities(fq)[i] == fq[2 * i + 1]
  {
    forall i | 0 <= i < Dof ensures Positions(fq)[i] == fq[2 * i] && Velocities(fq)[i] == fq[2 * i + 1] {
      if i == 0 {} else if i == 1 {} else if i == 2 {} else if i == 3 {} else {}
    }
  }

  /** Slot k of an interleaved state holds q[k / 2] when k is even and v[k / 2] when odd. */
  lemma InterleaveSlots(q: Vector, v: Vector)
    requires |q| == Dof && |v| == Dof
    ensures forall k :: 0 <= k < Width ==> Interleave(q, v)[k] == if k % 2 == 0 then q[k / 2] else v[k / 2]
  {
    forall k | 0 <= k < Width ensures Interleave(q, v)[k] == if k % 2 == 0 then q[k / 2] else v[k / 2] {
      if k < 5 {
        if k == 0 {} else if k == 1 {} else if k == 2 {} else if k == 3 {} else {}
      } else {
        if k == 5 {} else if k == 6 {} else if k == 7 {} else if k == 8 {} else {}
      }
    }
  }

  /** Splitting an interleaved state returns its parts. */
  lemma SplitInterleave(q: Vector, v: Vector)
    requires |q| == Dof && |v| == Dof
    ensures Positions(Interleave(q, v)) == q && Velocities(Interleave(q, v)) == v
  {
  }

  /** Reassembling the parts of a state returns the state. */
  lemma InterleaveSplit(fq: Vector)
    requires |fq| == Width
    ensures Interleave(Positions(fq), Velocities(fq)) == fq
  {
  }

  function X(fq: Vector): real requires |fq| == Width { fq[0] }
  function Y(fq: Vector): real requires |fq| == Width { fq[2] }
  function Z(fq: Vector): real requires |fq| == Width { fq[4] }
  function Theta(fq: Vector): real requires |fq| == Width { fq[6] }
  function Phi(fq: Vector): real requires |fq| == Width { fq[8] }

  // ---------------------------------------------------------------------------
  // Point maps

  /** fn_Xo: the cart origin. */
  function Xo(fq: Vector, fv: Vector): (r: Vector)
    requires |fq| == Width && |fv| == Controls
    ensures |r| == 3 && r == Positions(fq)[..3]
  {
    [fq[0], fq[2], fq[4]]
  }

  /** fn_Xo_dot: the origin velocity, including the wheel drive along heading phi. */
  function XoDot(n: Numerics, fq: Vector, fv: Vector): (r: Vector)
    requires |fq| == Width && |fv| == Controls
    ensures |r| == 3 && r[2] == Velocities(fq)[2]
    ensures fv[0] + fv[1] == 0.0 ==> r[0] == Velocities(fq)[0] && r[1] == Velocities(fq)[1]
    ensures Pythagorean(n, fq) ==>
      var dx, dy := r[0] - Velocities(fq)[0], r[1] - Velocities(fq)[1];
      dx * dx + dy * dy == (0.03625 * (fv[0] + fv[1])) * (0.03625 * (fv[0] + fv[1]))
  {
    var omegaSum := fv[0] + fv[1];
    [fq[1] + 0.03625 * omegaSum * n.cos(fq[8]),
     fq[3] + 0.03625 * omegaSum * n.sin(fq[8]),
     fq[5]]
  }

  /** fn_Xco: the offset of the body's centre of mass from the origin. */
  function Xco(n: Numerics, fq: Vector, fv: Vector): (r: Vector)
    requires |fq| == Width && |fv| == Controls
    ensures |r| == 3
  {
    var st, ct, sp, cp := n.sin(fq[6]), n.cos(fq[6]), n.sin(fq[8]), n.cos(fq[8]);
    [0.08 * st * cp, 0.08 * sp * st, 0.08 * ct]
  }

  /** fn_Xco_dot: the rate of that offset. */
  function XcoDot(n: Numerics, fq: Vector, fv: Vector): (r: Vector)
    requires |fq| == Width && |fv| == Controls
    ensures |r| == 3
  {
    var st, ct, sp, cp := n.sin(fq[6]), n.cos(fq[6]), n.sin(fq[8]), n.cos(fq[8]);
    var thetaDot, phiDot := fq[7], fq[9];
    [-0.08 * phiDot * sp * st + 0.08 * thetaDot * cp * ct,
     0.08 * phiDot * st * cp + 0.08 * thetaDot * sp * ct,
     -0.08 * thetaDot * st]
  }

  /** fn_Xc: the centre of mass is the origin plus the offset. */
  function Xc(n: Numerics, fq: Vector, fv: Vector): (r: Vector)
    requires |fq| == Width && |fv| == Controls
    ensures |r| == 3 && forall i :: 0 <= i < 3 ==> r[i] == Xo(fq, fv)[i] + Xco(n, fq, fv)[i]
  {
    var st, ct, sp, cp := n.sin(fq[6]), n.cos(fq[6]), n.sin(fq[8]), n.cos(fq[8]);
    [fq[0] + 0.08 * st * cp, fq[2] + 0.08 * sp * st, fq[4] + 0.08 * ct]
  }

  /** fn_Xc_dot: the centre-of-mass velocity is the origin velocity plus the offset rate. */
  function XcDot(n: Numerics, fq: Vector, fv: Vector): (r: Vector)
    requires |fq| == Width && |fv| == Controls
    ensures |r| == 3 && forall i :: 0 <= i < 3 ==> r[i] == XoDot(n, fq, fv)[i] + XcoDot(n, fq, fv)[i]
  {
    var st, ct, sp, cp := n.sin(fq[6]), n.cos(fq[6]), n.sin(fq[8]), n.cos(fq[8]);
    var omegaSum := fv[0] + fv[1];
    var thetaDot, phiDot := fq[7], fq[9];
    var o, c := XoDot(n, fq, fv), XcoDot(n, fq, fv);
    assert o[0] == fq[1] + 0.03625 * omegaSum * cp && o[1] == fq[3] + 0.03625 * omegaSum * sp && o[2] == fq[5];
    assert c[0] == -0.08 * phiDot * sp * st + 0.08 * thetaDot * cp * ct;
    assert c[1] == 0.08 * phiDot * st * cp + 0.08 * thetaDot * sp * ct && c[2] == -0.08 * thetaDot * st;
    [-0.08 * phiDot * sp * st + 0.08 * thetaDot * cp * ct + fq[1] + 0.03625 * omegaSum * cp,
     0.08 * phiDot * st * cp + 0.08 * thetaDot * sp * ct + fq[3] + 0.03625 * omegaSum * sp,
     -0.08 * thetaDot * st + fq[5]]
  }

  /** The offset is a rigid arm of length 0.08. */
  lemma OffsetLength(n: Numerics, fq: Vector, fv: Vector)
    requires |fq| == Width && |fv| == Controls && Pythagorean(n, fq)
    ensures var r := Xco(n, fq, fv); r[0] * r[0] + r[1] * r[1] + r[2] * r[2] == 0.0064
  {
    var st, ct, sp, cp := n.sin(fq[6]), n.cos(fq[6]), n.sin(fq[8]), n.cos(fq[8]);
    calc {
      (0.08 * st * cp) * (0.08 * st * cp) + (0.08 * sp * st) * (0.08 * sp * st) + (0.08 * ct) * (0.08 * ct);
      0.0064 * (st * st * (cp * cp + sp * sp) + ct * ct);
      0.0064 * (st * st + ct * ct);
    }
  }

  /** Because the arm is rigid its rate is orthogonal to it. */
  lemma OffsetRateOrthogonal(n: Numerics, fq: Vector, fv: Vector)
    requires |fq| == Width && |fv| == Controls && Pythagorean(n, fq)
    ensures Dot(Xco(n, fq, fv), XcoDot(n, fq, fv)) == 0.0
  {
    var r, d := Xco(n, fq, fv), XcoDot(n, fq, fv);
    var st, ct, sp, cp := n.sin(fq[6]), n.cos(fq[6]), n.sin(fq[8]), n.cos(fq[8]);
    var thetaDot, phiDot := fq[7], fq[9];
    Dot3(r, d);
    calc {
      r[0] * d[0] + r[1] * d[1] + r[2] * d[2];
      0.0064 * (thetaDot * st * ct * (cp * cp + sp * sp - 1.0));
      0.0;
    }
  }

  // ---------------------------------------------------------------------------
  // Mass matrix

  /** fn_M: the 5x5 generalised mass matrix. */
  function Mass(n: Numerics, fq: Vector, fv: Vector): (M: Matrix)
    requires |fq| == Width && |fv| == Controls
    ensures IsMatrix(M, Dof, Dof)
    ensures forall i, j :: 0 <= i < Dof && 0 <= j < Dof ==> M[i][j] == M[j][i]
    ensures forall i :: 0 <= i < Dof ==> M[i][i] > 0.0
  {
    var st, ct, sp, cp := n.sin(fq[6]), n.cos(fq[6]), n.sin(fq[8]), n.cos(fq[8]);
    [[0.7, 0.0, 0.0, 0.056 * cp * ct, -0.056 * sp * st],
     [0.0, 0.7, 0.0, 0.056 * sp * ct, 0.056 * st * cp],
     [0.0, 0.0, 0.7, -0.056 * st, 0.0],
     [0.056 * cp * ct, 0.056 * sp * ct, -0.056 * st, 0.01148, 0.0],
     [-0.056 * sp * st, 0.056 * st * cp, 0.0, 0.0, 0.00896 * st * st + 0.002]]
  }

  /** M x with the five rows of fn_M multiplied out. */
  function MassTimes(st: real, ct: real, sp: real, cp: real, x: Vector): (r: Vector)
    requires |x| == Dof
    ensures |r| == Dof
  {
    [0.7 * x[0] + 0.056 * cp * ct * x[3] - 0.056 * sp * st * x[4],
     0.7 * x[1] + 0.056 * sp * ct * x[3] + 0.056 * st * cp * x[4],
     0.7 * x[2] - 0.056 * st * x[3],
     0.056 * cp * ct * x[0] + 0.056 * sp * ct * x[1] - 0.056 * st * x[2] + 0.01148 * x[3],
     -0.056 * sp * st * x[0] + 0.056 * st * cp * x[1] + (0.00896 * st * st + 0.002) * x[4]]
  }

  /** x^T M x with the five rows of fn_M multiplied out. */
  function MassForm(st: real, ct: real, sp: real, cp: real, x: Vector): real
    requires |x| == Dof
  {
    x[0] * (0.7 * x[0] + 0.056 * cp * ct * x[3] - 0.056 * sp * st * x[4])
    + x[1] * (0.7 * x[1] + 0.056 * sp * ct * x[3] + 0.056 * st * cp * x[4])
    + x[2] * (0.7 * x[2] - 0.056 * st * x[3])
    + x[3] * (0.056 * cp * ct * x[0] + 0.056 * sp * ct * x[1] - 0.056 * st * x[2] + 0.01148 * x[3])
    + x[4] * (-0.056 * sp * st * x[0] + 0.056 * st * cp * x[1] + (0.00896 * st * st + 0.002) * x[4])
  }

  /** M x is MassTimes at the state's angles. */
  lemma MassRows(n: Numerics, fq: Vector, fv: Vector, x: Vector)
    requires |fq| == Width && |fv| == Controls && |x| == Dof
    ensures MatVec(Mass(n, fq, fv), x) == MassTimes(n.sin(fq[6]), n.cos(fq[6]), n.sin(fq[8]), n.cos(fq[8]), x)
  {
    var r, m := MatVec(Mass(n, fq, fv), x), MassTimes(n.sin(fq[6]), n.cos(fq[6]), n.sin(fq[8]), n.cos(fq[8]), x);
    MassRow0(n, fq, fv, x);
    MassRow1(n, fq, fv, x);
    MassRow2(n, fq, fv, x);
    MassRow3(n, fq, fv, x);
    MassRow4(n, fq, fv, x);
    assert r[0] == m[0] && r[1] == m[1] && r[2] == m[2] && r[3] == m[3] && r[4] == m[4];
  }

  /** The rows of M x, one lemma per row. */
  lemma MassRow0(n: Numerics, fq: Vector, fv: Vector, x: Vector)
    requires |fq| == Width && |fv| == Controls && |x| == Dof
    ensures MatVec(Mass(n, fq, fv), x)[0] == MassTimes(n.sin(fq[6]), n.cos(fq[6]), n.sin(fq[8]), n.cos(fq[8]), x)[0]
  {
    Dot5(Mass(n, fq, fv)[0], x);
  }

  lemma MassRow1(n: Numerics, fq: Vector, fv: Vector, x: Vector)
    requires |fq| == Width && |fv| == Controls && |x| == Dof
    ensures MatVec(Mass(n, fq, fv), x)[1] == MassTimes(n.sin(fq[6]), n.cos(fq[6]), n.sin(fq[8]), n.cos(fq[8]), x)[1]
  {
    Dot5(Mass(n, fq, fv)[1], x);
  }

  lemma MassRow2(n: Numerics, fq: Vector, fv: Vector, x: Vector)
    requires |fq| == Width && |fv| == Controls && |x| == Dof
    ensures MatVec(Mass(n, fq, fv), x)[2] == MassTimes(n.sin(fq[6]), n.cos(fq[6]), n.sin(fq[8]), n.cos(fq[8]), x)[2]
  {
    Dot5(Mass(n, fq, fv)[2], x);
  }

  lemma MassRow3(n: Numerics, fq: Vector, fv: Vector, x: Vector)
    requires |fq| == Width && |fv| == Controls && |x| == Dof
    ensures MatVec(Mass(n, fq, fv), x)[3] == MassTimes(n.sin(fq[6]), n.cos(fq[6]), n.sin(fq[8]), n.cos(fq[8]), x)[3]
  {
    Dot5(Mass(n, fq, fv)[3], x);
  }

  lemma MassRow4(n: Numerics, fq: Vector, fv: Vector, x: Vector)
    requires |fq| == Width && |fv| == Controls && |x| == Dof
    ensures MatVec(Mass(n, fq, fv), x)[4] == MassTimes(n.sin(fq[6]), n.cos(fq[6]), n.sin(fq[8]), n.cos(fq[8]), x)[4]
  {
    Dot5(Mass(n, fq, fv)[4], x);
  }

  /** Dot(x, M x) is MassForm at the state's angles. */
  lemma MassQuadratic(n: Numerics, fq: Vector, fv: Vector, x: Vector)
    requires |fq| == Width && |fv| == Controls && |x| == Dof
    ensures Dot(x, MatVec(Mass(n, fq, fv), x)) == MassForm(n.sin(fq[6]), n.cos(fq[6]), n.sin(fq[8]), n.cos(fq[8]), x)
  {
    var st, ct, sp, cp := n.sin(fq[6]), n.cos(fq[6]), n.sin(fq[8]), n.cos(fq[8]);
    MassRows(n, fq, fv, x);
    FormOfRows(st, ct, sp, cp, x, MassTimes(st, ct, sp, cp, x));
  }

  /** Dot(x, MassTimes) is MassForm. */
  lemma FormOfRows(st: real, ct: real, sp: real, cp: real, x: Vector, r: Vector)
    requires |x| == Dof && r == MassTimes(st, ct, sp, cp, x)
    ensures Dot(x, r) == MassForm(st, ct, sp, cp, x)
  {
    Dot5(x, r);
    assert && r[0] == 0.7 * x[0] + 0.056 * cp * ct * x[3] - 0.056 * sp * st * x[4]
           && r[1] == 0.7 * x[1] + 0.056 * sp * ct * x[3] + 0.056 * st * cp * x[4]
           && r[2] == 0.7 * x[2] - 0.056 * st * x[3]
           && r[3] == 0.056 * cp * ct * x[0] + 0.056 * sp * ct * x[1] - 0.056 * st * x[2] + 0.01148 * x[3]
           && r[4] == -0.056 * sp * st * x[0] + 0.056 * st * cp * x[1] + (0.00896 * st * st + 0.002) * x[4];
  }

  /** With sin^2 + cos^2 = 1, 0.7 x^T M x is a weighted sum of squares. */
  lemma MassSquares(st: real, ct: real, sp: real, cp: real, x: Vector)
    requires |x| == Dof && st * st + ct * ct == 1.0 && sp * sp + cp * cp == 1.0
    ensures var a, b, c := 0.7 * x[0] + 0.056 * (cp * ct * x[3] - sp * st * x[4]),
                           0.7 * x[1] + 0.056 * (sp * ct * x[3] + st * cp * x[4]),
                           0.7 * x[2] - 0.056 * st * x[3];
      0.7 * MassForm(st, ct, sp, cp, x)
        == a * a + b * b + c * c + 0.0049 * (x[3] * x[3]) + 0.003136 * ((st * st) * (x[4] * x[4])) + 0.0014 * (x[4] * x[4])
  {
    var u := cp * ct * x[3] - sp * st * x[4];
    var w := sp * ct * x[3] + st * cp * x[4];
    assert u * u + w * w == (cp * cp + sp * sp) * (ct * ct * x[3] * x[3] + st * st * x[4] * x[4]);
  }

  /** The product of two positive reals, named. */
  lemma PositiveProduct(x: real, y: real) returns (q: real)
    requires x > 0.0 && y > 0.0
    ensures q == x * y && q > 0.0
  {
    q := x * y;
  }

  /** r * r, named, with its sign: never negative, and zero only at zero. */
  lemma Square(r: real) returns (q: real)
    ensures q == r * r && q >= 0.0 && (r != 0.0 ==> q > 0.0)
  {
    if r > 0.0 {
      q := PositiveProduct(r, r);
    } else if r < 0.0 {
      q := PositiveProduct(-r, -r);
    } else {
      q := r * r;
    }
  }

  /** The product of two non-negative reals, named. */
  lemma NonNegativeProduct(x: real, y: real) returns (q: real)
    requires x >= 0.0 && y >= 0.0
    ensures q == x * y && q >= 0.0
  {
    q := x * y;
  }

  /** A weighted sum of squares of this shape is positive unless every base is zero. */
  lemma WeightedSquaresPositive(f: real, a: real, b: real, c: real, d: real, e: real, s: real)
    requires 0.7 * f == a * a + b * b + c * c + 0.0049 * (d * d) + 0.003136 * ((s * s) * (e * e)) + 0.0014 * (e * e)
    requires a != 0.0 || b != 0.0 || c != 0.0 || d != 0.0 || e != 0.0
    ensures f > 0.0
  {
    var a2 := Square(a);
    var b2 := Square(b);
    var c2 := Square(c);
    var d2 := Square(d);
    var e2 := Square(e);
    var s2 := Square(s);
    var p := NonNegativeProduct(s2, e2);
    PositiveSum(f, a2, b2, c2, d2, p, e2);
  }

  /** The linear step: non-negative terms, one of them positive, with positive weights. */
  lemma PositiveSum(f: real, a2: real, b2: real, c2: real, d2: real, p: real, e2: real)
    requires 0.7 * f == a2 + b2 + c2 + 0.0049 * d2 + 0.003136 * p + 0.0014 * e2
    requires a2 >= 0.0 && b2 >= 0.0 && c2 >= 0.0 && d2 >= 0.0 && p >= 0.0 && e2 >= 0.0
    requires a2 > 0.0 || b2 > 0.0 || c2 > 0.0 || d2 > 0.0 || e2 > 0.0
    ensures f > 0.0
  {
  }

  /** Over plain reals with sin^2 + cos^2 = 1 the form is positive away from x = 0. */
  lemma MassFormPositive(st: real, ct: real, sp: real, cp: real, x: Vector)
    requires |x| == Dof && st * st + ct * ct == 1.0 && sp * sp + cp * cp == 1.0
    requires x[0] != 0.0 || x[1] != 0.0 || x[2] != 0.0 || x[3] != 0.0 || x[4] != 0.0
    ensures MassForm(st, ct, sp, cp, x) > 0.0
  {
    MassSquares(st, ct, sp, cp, x);
    var a, b, c := 0.7 * x[0] + 0.056 * (cp * ct * x[3] - sp * st * x[4]),
                   0.7 * x[1] + 0.056 * (sp * ct * x[3] + st * cp * x[4]),
                   0.7 * x[2] - 0.056 * st * x[3];
    if x[3] == 0.0 && x[4] == 0.0 {
      assert a == 0.7 * x[0] && b == 0.7 * x[1] && c == 0.7 * x[2];
    }
    WeightedSquaresPositive(MassForm(st, ct, sp, cp, x), a, b, c, x[3], x[4], st);
  }

  /** fn_M is positive definite: x^T M x > 0 for every non-zero x. */
  lemma MassPositiveDefinite(n: Numerics, fq: Vector, fv: Vector, x: Vector)
    requires |fq| == Width && |fv| == Controls && Pythagorean(n, fq)
    requires |x| == Dof && exists i :: 0 <= i < Dof && x[i] != 0.0
    ensures Dot(x, MatVec(Mass(n, fq, fv), x)) > 0.0
  {
    SomeEntryNonZero(x);
    MassFormPositive(n.sin(fq[6]), n.cos(fq[6]), n.sin(fq[8]), n.cos(fq[8]), x);
    MassQuadratic(n, fq, fv, x);
  }

  /** A non-zero vector of Dof entries has one of its five entries non-zero. */
  lemma SomeEntryNonZero(x: Vector)
    requires |x| == Dof && exists i :: 0 <= i < Dof && x[i] != 0.0
    ensures x[0] != 0.0 || x[1] != 0.0 || x[2] != 0.0 || x[3] != 0.0 || x[4] != 0.0
  {
    var i :| 0 <= i < Dof && x[i] != 0.0;
  }

  /** The mass matrix depends on theta and phi only. */
  lemma MassDependsOnAngles(n: Numerics, fq: Vector, fv: Vector, fq': Vector, fv': Vector)
    requires |fq| == Width && |fv| == Controls && |fq'| == Width && |fv'| == Controls
    requires Theta(fq) == Theta(fq') && Phi(fq) == Phi(fq')
    ensures Mass(n, fq, fv) == Mass(n, fq', fv')
  {
    var M, M' := Mass(n, fq, fv), Mass(n, fq', fv');
    assert fq[6] == fq'[6] && fq[8] == fq'[8];
    forall i | 0 <= i < Dof ensures M[i] == M'[i] {
      assert forall j :: 0 <= j < Dof ==> M[i][j] == M'[i][j];
    }
  }

  /** fn_M1d: the 10x10 descriptor matrix, block-diagonal with the identity and fn_M. */
  function Mass1d(n: Numerics, fq: Vector, fv: Vector): (D: Matrix)
    requires |fq| == Width && |fv| == Controls
    ensures IsMatrix(D, Width, Width)
  {
    var st, ct, sp, cp := n.sin(fq[6]), n.cos(fq[6]), n.sin(fq[8]), n.cos(fq[8]);
    [[1.0, 0.0, 0.0, 0.0, 0.0, 0.0, 0.0, 0.0, 0.0, 0.0],
     [0.0, 1.0, 0.0, 0.0, 0.0, 0.0, 0.0, 0.0, 0.0, 0.0],
     [0.0, 0.0, 1.0, 0.0, 0.0, 0.0, 0.0, 0.0, 0.0, 0.0],
     [0.0, 0.0, 0.0, 1.0, 0.0, 0.0, 0.0, 0.0, 0.0, 0.0],
     [0.0, 0.0, 0.0, 0.0, 1.0, 0.0, 0.0, 0.0, 0.0, 0.0],
     [0.0, 0.0, 0.0, 0.0, 0.0, 0.7, 0.0, 0.0, 0.056 * cp * ct, -0.056 * sp * st],
     [0.0, 0.0, 0.0, 0.0, 0.0, 0.0, 0.7, 0.0, 0.056 * sp * ct, 0.056 * st * cp],
     [0.0, 0.0, 0.0, 0.0, 0.0, 0.0, 0.0, 0.7, -0.056 * st, 0.0],
     [0.0, 0.0, 0.0, 0.0, 0.0, 0.056 * cp * ct, 0.056 * sp * ct, -0.056 * st, 0.01148, 0.0],
     [0.0, 0.0, 0.0, 0.0, 0.0, -0.056 * sp * st, 0.056 * st * cp, 0.0, 0.0, 0.00896 * st * st + 0.002]]
  }

  /** fn_M1d is block-diagonal: the identity on the positions and fn_M on the rates. */
  lemma Mass1dBlocks(n: Numerics, fq: Vector, fv: Vector)
    requires |fq| == Width && |fv| == Controls
    ensures var D := Mass1d(n, fq, fv);
      && (forall i, j :: 0 <= i < Dof && 0 <= j < Dof ==> D[i][j] == if i == j then 1.0 else 0.0)
      && (forall i, j :: 0 <= i < Dof && Dof <= j < Width ==> D[i][j] == 0.0 && D[j][i] == 0.0)
      && (forall i, j :: Dof <= i < Width && Dof <= j < Width ==> D[i][j] == Mass(n, fq, fv)[i - Dof][j - Dof])
  {
    var D, M := Mass1d(n, fq, fv), Mass(n, fq, fv);
    forall i | Dof <= i < Width ensures D[i][Dof..] == M[i - Dof] && D[i][..Dof] == Zeros(Dof) {
    }
  }

  // ---------------------------------------------------------------------------
  // Constraints

  /** fn_Cons: the wheel-ground gap z and the body-ground gap. */
  function Cons(n: Numerics, fq: Vector, fv: Vector): (C: Vector)
    requires |fq| == Width && |fv| == Controls
    ensures |C| == Constraints && C[0] == Z(fq)
  {
    [fq[4], fq[4] + 0.25 * n.cos(fq[6]) + 0.0725]
  }

  /** fn_Cons_gradq: the constraint Jacobian with respect to the positions. */
  function ConsJac(n: Numerics, fq: Vector, fv: Vector): (J: Matrix)
    requires |fq| == Width && |fv| == Controls
    ensures IsMatrix(J, Constraints, Dof)
  {
    [[0.0, 0.0, 1.0, 0.0, 0.0],
     [0.0, 0.0, 1.0, -0.25 * n.sin(fq[6]), 0.0]]
  }

  /**
   * The Jacobian's z column is exact: raising z by d raises both gaps by d.
   * Its x, y and phi columns are zero, and the gaps do not depend on x, y, phi
   * or any rate.
   */
  lemma ConsJacColumns(n: Numerics, fq: Vector, fv: Vector, d: real, fq': Vector)
    requires |fq| == Width && |fv| == Controls && |fq'| == Width
    requires Z(fq') == Z(fq) && Theta(fq') == Theta(fq)
    ensures Cons(n, fq[4 := fq[4] + d], fv) == Add(Cons(n, fq, fv), Scale(d, [ConsJac(n, fq, fv)[0][2], ConsJac(n, fq, fv)[1][2]]))
    ensures forall k :: 0 <= k < Constraints ==>
      ConsJac(n, fq, fv)[k][0] == ConsJac(n, fq, fv)[k][1] == ConsJac(n, fq, fv)[k][4] == 0.0
    ensures Cons(n, fq', fv) == Cons(n, fq, fv)
  {
    var lhs := Cons(n, fq[4 := fq[4] + d], fv);
    var rhs := Add(Cons(n, fq, fv), Scale(d, [ConsJac(n, fq, fv)[0][2], ConsJac(n, fq, fv)[1][2]]));
    assert lhs[0] == rhs[0] && lhs[1] == rhs[1];
    assert fq[4] == fq'[4] && fq[6] == fq'[6];
  }

  // ---------------------------------------------------------------------------
  // solve_lcp

  /** P = 0.5 * (A + A.T) + reg * I */
  function LcpMatrix(A: Matrix, m: nat): (P: Matrix)
    requires IsMatrix(A, m, m)
    ensures IsMatrix(P, m, m)
    ensures forall i, j :: 0 <= i < m && 0 <= j < m ==> P[i][j] == P[j][i]
    ensures forall i, j :: 0 <= i < m && 0 <= j < m ==>
      P[i][j] == (if i == j then A[i][j] + Reg else (A[i][j] + A[j][i]) / 2.0)
  {
    seq(m, i requires 0 <= i < m =>
      seq(m, j requires 0 <= j < m => 0.5 * (A[i][j] + A[j][i]) + (if i == j then Reg else 0.0)))
  }

  /** solve_lcp(A, b): the QP answer for (P, b), clamped below at zero. */
  function SolveLcp(n: Numerics, A: Matrix, b: Vector): (lam: Vector)
    requires Shaped(n) && IsMatrix(A, |b|, |b|)
    ensures |lam| == |b|
    ensures forall i :: 0 <= i < |b| ==> lam[i] >= 0.0
    ensures forall i :: 0 <= i < |b| ==>
      lam[i] == (if n.qp(LcpMatrix(A, |b|), b)[i] >= 0.0 then n.qp(LcpMatrix(A, |b|), b)[i] else 0.0)
  {
    var raw := n.qp(LcpMatrix(A, |b|), b);
    seq(|b|, i requires 0 <= i < |b| => if raw[i] > 0.0 then raw[i] else 0.0)
  }

  // ---------------------------------------------------------------------------
  // One step of dynamics_constrained, as values

  /** v_minus = vn + dt * solve(M, -H): the velocity after free motion. */
  function FreeVelocity(n: Numerics, dt: real, fq: Vector, fv: Vector): (v: Vector)
    requires Shaped(n) && |fq| == Width && |fv| == Controls
    ensures |v| == Dof
    ensures forall i :: 0 <= i < Dof ==>
      v[i] == fq[2 * i + 1] + dt * n.linSolve(Mass(n, fq, fv), Neg(n.bias(fq, fv)))[i]
  {
    var a := n.linSolve(Mass(n, fq, fv), Neg(n.bias(fq, fv)));
    Add(Velocities(fq), Scale(dt, a))
  }

  /**
   * C_pred = C + dt * (J @ v_minus): the gaps predicted after free motion, the
   * wheel gap z and the body gap z + 0.25 cos(theta) + 0.0725, each moved by dt
   * times its rate under v_minus.
   */
  function PredictedGaps(n: Numerics, dt: real, fq: Vector, fv: Vector): (g: Vector)
    requires Shaped(n) && |fq| == Width && |fv| == Controls
    ensures var v := FreeVelocity(n, dt, fq, fv);
      && |g| == Constraints
      && g[0] == Z(fq) + dt * v[2]
      && g[1] == Z(fq) + 0.25 * n.cos(Theta(fq)) + 0.0725 + dt * (v[2] - 0.25 * n.sin(Theta(fq)) * v[3])
  {
    var v := FreeVelocity(n, dt, fq, fv);
    ConsJacRate(n, fq, fv, v);
    var g := Add(Cons(n, fq, fv), Scale(dt, MatVec(ConsJac(n, fq, fv), v)));
    assert |g| == Constraints && g[0] == Z(fq) + dt * v[2];
    assert g[1] == Z(fq) + 0.25 * n.cos(Theta(fq)) + 0.0725 + dt * (v[2] - 0.25 * n.sin(Theta(fq)) * v[3]);
    g
  }

  /**
   * C_act = C_pred < 0: the wheel contact is active when z would go negative,
   * the body contact when the body gap would.
   */
  function ActiveSet(n: Numerics, dt: real, fq: Vector, fv: Vector): (act: seq<bool>)
    requires Shaped(n) && |fq| == Width && |fv| == Controls
    ensures |act| == Constraints
    ensures var v := FreeVelocity(n, dt, fq, fv);
      && (act[0] <==> Z(fq) + dt * v[2] < 0.0)
      && (act[1] <==> Z(fq) + 0.25 * n.cos(Theta(fq)) + 0.0725 + dt * (v[2] - 0.25 * n.sin(Theta(fq)) * v[3]) < 0.0)
  {
    var g := PredictedGaps(n, dt, fq, fv);
    GapSigns(g)
  }

  /** C_pred < 0: a flag per gap, set exactly when the gap is negative. */
  function GapSigns(g: Vector): (act: seq<bool>)
    requires |g| == Constraints
    ensures |act| == Constraints && (act[0] <==> g[0] < 0.0) && (act[1] <==> g[1] < 0.0)
  {
    seq(Constraints, i requires 0 <= i < Constraints => g[i] < 0.0)
  }

  /** M_inv_Jt = solve(M, J.T), one column per constraint. */
  function MinvJt(n: Numerics, M: Matrix, J: Matrix): (W: Matrix)
    requires Shaped(n) && IsMatrix(J, Constraints, Dof)
    ensures IsMatrix(W, Dof, Constraints)
    ensures forall k, i :: 0 <= k < Constraints && 0 <= i < Dof ==> W[i][k] == n.linSolve(M, J[k])[i]
  {
    Transpose(seq(Constraints, k requires 0 <= k < Constraints => n.linSolve(M, J[k])), Dof)
  }

  /** The impulse lam: zero unless some constraint is active, then the LCP answer scattered into the active slots. */
  function Impulse(n: Numerics, dt: real, fq: Vector, fv: Vector): (lam: Vector)
    requires Shaped(n) && |fq| == Width && |fv| == Controls
    ensures |lam| == Constraints
  {
    var act := ActiveSet(n, dt, fq, fv);
    if Any(act) then
      var J := ConsJac(n, fq, fv);
      var Jact := SelectRows(act, J, Dof);
      var W := MinvJt(n, Mass(n, fq, fv), J);
      Scatter(act, SolveLcp(n, MatMul(Jact, SelectCols(W, act), Count(act)), MatVec(Jact, FreeVelocity(n, dt, fq, fv))))
    else Zeros(Constraints)
  }

  /** v_plus: v_minus, corrected by M_inv_Jt @ lam when some constraint is active. */
  function PostVelocity(n: Numerics, dt: real, fq: Vector, fv: Vector): (v: Vector)
    requires Shaped(n) && |fq| == Width && |fv| == Controls
    ensures |v| == Dof
  {
    var vMinus := FreeVelocity(n, dt, fq, fv);
    if Any(ActiveSet(n, dt, fq, fv)) then
      Add(vMinus, MatVec(MinvJt(n, Mass(n, fq, fv), ConsJac(n, fq, fv)), Impulse(n, dt, fq, fv)))
    else vMinus
  }

  /** qn_next = qn + 0.5 * dt * (3 * v_plus - vn) */
  function NextPositions(n: Numerics, dt: real, fq: Vector, fv: Vector): (q: Vector)
    requires Shaped(n) && |fq| == Width && |fv| == Controls
    ensures |q| == Dof
  {
    var v := PostVelocity(n, dt, fq, fv);
    Add(Positions(fq), Scale(0.5 * dt, Sub(Add(Add(v, v), v), Velocities(fq))))
  }

  /** The state dynamics_constrained(dt, fq, fv) returns. */
  function NextState(n: Numerics, dt: real, fq: Vector, fv: Vector): (next: Vector)
    requires Shaped(n) && |fq| == Width && |fv| == Controls
    ensures |next| == Width
  {
    Interleave(NextPositions(n, dt, fq, fv), PostVelocity(n, dt, fq, fv))
  }

  // ---------------------------------------------------------------------------
  // Properties of one step

  /** The next state carries qn_next in its even slots and v_plus in its odd slots. */
  lemma NextStateLayout(n: Numerics, dt: real, fq: Vector, fv: Vector)
    requires Shaped(n) && |fq| == Width && |fv| == Controls
    ensures Positions(NextState(n, dt, fq, fv)) == NextPositions(n, dt, fq, fv)
    ensures Velocities(NextState(n, dt, fq, fv)) == PostVelocity(n, dt, fq, fv)
  {
    SplitInterleave(NextPositions(n, dt, fq, fv), PostVelocity(n, dt, fq, fv));
  }

  /** Each position advances by 0.5 * dt * (3 * v_plus - vn). */
  lemma NextPositionsRule(n: Numerics, dt: real, fq: Vector, fv: Vector)
    requires Shaped(n) && |fq| == Width && |fv| == Controls
    ensures var q, v := NextPositions(n, dt, fq, fv), PostVelocity(n, dt, fq, fv);
      forall i :: 0 <= i < Dof ==> q[i] == fq[2 * i] + 0.5 * dt * (3.0 * v[i] - fq[2 * i + 1])
  {
    PositionUpdate(fq, PostVelocity(n, dt, fq, fv), dt, NextPositions(n, dt, fq, fv));
  }

  /** qn + 0.5 * dt * (v + v + v - vn), slot by slot. */
  lemma PositionUpdate(fq: Vector, v: Vector, dt: real, q: Vector)
    requires |fq| == Width && |v| == Dof
    requires q == Add(Positions(fq), Scale(0.5 * dt, Sub(Add(Add(v, v), v), Velocities(fq))))
    ensures forall i :: 0 <= i < Dof ==> q[i] == fq[2 * i] + 0.5 * dt * (3.0 * v[i] - fq[2 * i + 1])
  {
    SlotsOf(fq);
    forall i | 0 <= i < Dof ensures q[i] == fq[2 * i] + 0.5 * dt * (3.0 * v[i] - fq[2 * i + 1]) {
      assert v[i] + v[i] + v[i] == 3.0 * v[i];
    }
  }

  /** J v: the z rate, and the z rate less 0.25 sin(theta) times the theta rate. */
  lemma ConsJacRate(n: Numerics, fq: Vector, fv: Vector, v: Vector)
    requires |fq| == Width && |fv| == Controls && |v| == Dof
    ensures MatVec(ConsJac(n, fq, fv), v) == [v[2], v[2] - 0.25 * n.sin(Theta(fq)) * v[3]]
  {
    var J := ConsJac(n, fq, fv);
    Dot5(J[0], v);
    Dot5(J[1], v);
    var r := MatVec(J, v);
    assert r[0] == v[2];
    assert r[1] == v[2] - 0.25 * n.sin(Theta(fq)) * v[3];
  }

  /** Without an active constraint the impulse is zero and v_plus is v_minus. */
  lemma NoContactNoImpulse(n: Numerics, dt: real, fq: Vector, fv: Vector)
    requires Shaped(n) && |fq| == Width && |fv| == Controls
    requires !Any(ActiveSet(n, dt, fq, fv))
    ensures Impulse(n, dt, fq, fv) == Zeros(Constraints)
    ensures PostVelocity(n, dt, fq, fv) == FreeVelocity(n, dt, fq, fv)
  {
  }

  /**
   * The test for an active constraint only saves work: in every case
   * v_plus = v_minus + M_inv_Jt @ lam.
   */
  lemma ImpulseCorrection(n: Numerics, dt: real, fq: Vector, fv: Vector)
    requires Shaped(n) && |fq| == Width && |fv| == Controls
    ensures PostVelocity(n, dt, fq, fv) ==
      Add(FreeVelocity(n, dt, fq, fv), MatVec(MinvJt(n, Mass(n, fq, fv), ConsJac(n, fq, fv)), Impulse(n, dt, fq, fv)))
  {
    if !Any(ActiveSet(n, dt, fq, fv)) {
      var W := MinvJt(n, Mass(n, fq, fv), ConsJac(n, fq, fv));
      MatVecZeros(W, Constraints);
      var v := FreeVelocity(n, dt, fq, fv);
      assert Add(v, Zeros(Dof)) == v;
    }
  }

  /**
   * The impulse is non-negative, zero on inactive constraints, and on the
   * active ones it is the reduced LCP's answer.
   */
  lemma ImpulseShape(n: Numerics, dt: real, fq: Vector, fv: Vector)
    requires Shaped(n) && |fq| == Width && |fv| == Controls
    ensures var act, lam := ActiveSet(n, dt, fq, fv), Impulse(n, dt, fq, fv);
      && (forall i :: 0 <= i < Constraints ==> lam[i] >= 0.0)
      && (forall i :: 0 <= i < Constraints && !act[i] ==> lam[i] == 0.0)
      && (Any(act) ==>
            var J := ConsJac(n, fq, fv);
            var Jact := SelectRows(act, J, Dof);
            var W := MinvJt(n, Mass(n, fq, fv), J);
            Select(act, lam) == SolveLcp(n, MatMul(Jact, SelectCols(W, act), Count(act)), MatVec(Jact, FreeVelocity(n, dt, fq, fv))))
  {
    var act, lam := ActiveSet(n, dt, fq, fv), Impulse(n, dt, fq, fv);
    if Any(act) {
      var J := ConsJac(n, fq, fv);
      var Jact := SelectRows(act, J, Dof);
      var W := MinvJt(n, Mass(n, fq, fv), J);
      var sol := SolveLcp(n, MatMul(Jact, SelectCols(W, act), Count(act)), MatVec(Jact, FreeVelocity(n, dt, fq, fv)));
      ScatterNonNegative(act, sol);
      SelectScatter(act, sol);
      forall i | 0 <= i < Constraints && !act[i] ensures lam[i] == 0.0 {
        ScatterAt(act, sol, i);
      }
    }
  }

  /** The regularised LCP matrix is symmetric with the regularisation on its diagonal. */
  lemma LcpMatrixSymmetric(A: Matrix, m: nat)
    requires IsMatrix(A, m, m)
    ensures var P := LcpMatrix(A, m);
      && Transpose(P, m) == P
      && forall i :: 0 <= i < m ==> P[i][i] == A[i][i] + Reg
  {
    var P := LcpMatrix(A, m);
    var T := Transpose(P, m);
    forall j | 0 <= j < m ensures T[j] == P[j] {
      assert forall i :: 0 <= i < m ==> T[j][i] == P[j][i];
    }
  }

  // ---------------------------------------------------------------------------
  // dynamics_constrained, step and solve

  /**
   * dynamics_constrained(t, fq, fv) with dt = t. `vPlus` aliases `vMinus` as
   * `v_plus = v_minus` does, the impulse is scattered into a zeroed `lam`,
   * `v_plus += M_inv_Jt @ lam` updates in place, and the result fills a
   * zeroed array through its even and odd slots.
   */
  method DynamicsConstrained(n: Numerics, t: real, fq: Vector, fv: Vector) returns (fqNext: array<real>)
    requires Shaped(n) && |fq| == Width && |fv| == Controls
    ensures fresh(fqNext) && fqNext[..] == NextState(n, t, fq, fv)
  {
    var qn, vn := Positions(fq), Velocities(fq);
    var dt := t;
    var M := Mass(n, fq, fv);
    var H := n.bias(fq, fv);
    var aMinus := n.linSolve(M, Neg(H));
    var vMinus := new real[Dof](i requires 0 <= i < Dof => vn[i] + dt * aMinus[i]);
    var vm := vMinus[..];
    assert vm == FreeVelocity(n, dt, fq, fv);
    var C := Cons(n, fq, fv);
    var J := ConsJac(n, fq, fv);
    var predicted := Add(C, Scale(dt, MatVec(J, vm)));
    assert predicted == PredictedGaps(n, dt, fq, fv);
    var act := seq(Constraints, i requires 0 <= i < Constraints => predicted[i] < 0.0);
    assert act == ActiveSet(n, dt, fq, fv);
    var vPlus := vMinus;
    ResolveContacts(n, dt, fq, fv, M, J, act, vm, vPlus);
    var vp := vPlus[..];
    var qnNext := Add(qn, Scale(0.5 * dt, Sub(Add(Add(vp, vp), vp), vn)));
    fqNext := AssembleState(qnNext, vp);
    NextStateFrom(n, dt, fq, fv, vp, fqNext[..]);
  }

  /**
   * The contact step of dynamics_constrained: with lam zeroed, when some
   * constraint is active the LCP answer goes into lam[act] and
   * v_plus += M_inv_Jt @ lam.
   */
  method ResolveContacts(n: Numerics, dt: real, fq: Vector, fv: Vector, M: Matrix, J: Matrix, act: seq<bool>,
                         vm: Vector, vPlus: array<real>)
    requires Shaped(n) && |fq| == Width && |fv| == Controls
    requires M == Mass(n, fq, fv) && J == ConsJac(n, fq, fv)
    requires act == ActiveSet(n, dt, fq, fv) && vm == FreeVelocity(n, dt, fq, fv)
    requires vPlus[..] == vm
    modifies vPlus
    ensures vPlus[..] == PostVelocity(n, dt, fq, fv)
  {
    var lam := new real[Constraints](_ => 0.0);
    if Any(act) {
      var Jact := SelectRows(act, J, Dof);
      var W := MinvJt(n, M, J);
      var Wact := SelectCols(W, act);
      var A := MatMul(Jact, Wact, Count(act));
      var b := MatVec(Jact, vm);
      var sol := SolveLcp(n, A, b);
      MaskedAssign(lam, act, sol);
      ScatterWritten(act, sol, lam[..]);
      assert lam[..] == Impulse(n, dt, fq, fv);
      AddInPlace(vPlus, MatVec(W, lam[..]));
      assert vPlus[..] == PostVelocity(n, dt, fq, fv);
    } else {
      assert vPlus[..] == PostVelocity(n, dt, fq, fv);
    }
  }

  /** fq_next = np.zeros_like(fq); fq_next[0::2] = q; fq_next[1::2] = v */
  method AssembleState(q: Vector, v: Vector) returns (fq: array<real>)
    requires |q| == Dof && |v| == Dof
    ensures fresh(fq) && fq[..] == Interleave(q, v)
  {
    fq := new real[Width](_ => 0.0);
    StridedAssign(fq, 0, q);
    ghost var evens := fq[..];
    StridedAssign(fq, 1, v);
    assert forall k :: 0 <= k < Width && k % 2 == 0 ==> fq[k] == evens[k];
    InterleaveWritten(fq[..], q, v);
  }

  /** The state assembled from v_plus by the position rule is the next state. */
  lemma NextStateFrom(n: Numerics, dt: real, fq: Vector, fv: Vector, vp: Vector, a: Vector)
    requires Shaped(n) && |fq| == Width && |fv| == Controls
    requires vp == PostVelocity(n, dt, fq, fv)
    requires a == Interleave(Add(Positions(fq), Scale(0.5 * dt, Sub(Add(Add(vp, vp), vp), Velocities(fq)))), vp)
    ensures a == NextState(n, dt, fq, fv)
  {
  }

  /** An array whose even slots hold q and odd slots hold v holds Interleave(q, v). */
  lemma InterleaveWritten(a: Vector, q: Vector, v: Vector)
    requires |q| == Dof && |v| == Dof && |a| == Width
    requires forall k :: 0 <= k < Width && k % 2 == 0 ==> a[k] == q[k / 2]
    requires forall k :: 0 <= k < Width && k % 2 != 0 ==> a[k] == v[k / 2]
    ensures a == Interleave(q, v)
  {
    InterleaveSlots(q, v);
    assert forall k :: 0 <= k < Width ==> a[k] == Interleave(q, v)[k];
  }

  /** A zeroed array whose masked slots received vals in order holds the scatter of vals. */
  lemma ScatterWritten(mask: seq<bool>, vals: Vector, lam: Vector)
    requires |vals| == Count(mask) && |lam| == |mask|
    requires forall i :: 0 <= i < |mask| && !mask[i] ==> lam[i] == 0.0
    requires forall i :: 0 <= i < |mask| && mask[i] ==> Count(mask[..i]) < |vals| && lam[i] == vals[Count(mask[..i])]
    ensures lam == Scatter(mask, vals)
  {
    forall i | 0 <= i < |mask| ensures lam[i] == Scatter(mask, vals)[i] {
      ScatterAt(mask, vals, i);
    }
  }

  /** step(dt, f0, fv): the time dt paired with one constrained step (`.T` of a 1-D array is the array). */
  method Step(n: Numerics, dt: real, f0: Vector, fv: Vector) returns (t: real, y: array<real>)
    requires Shaped(n) && |f0| == Width && |fv| == Controls
    ensures t == dt && fresh(y) && y[..] == Trajectory(n, dt, f0, fv, 1)[1]
  {
    t := dt;
    y := DynamicsConstrained(n, dt, f0, fv);
  }

  /** A map that takes states to states. */
  ghost predicate StateMap(step: Vector -> Vector)
  {
    forall f {:trigger step(f)} :: |f| == Width ==> |step(f)| == Width
  }

  /** The first k + 1 points f0, step(f0), step(step(f0)), ... of the orbit of f0 under step. */
  function Orbit(step: Vector -> Vector, f0: Vector, k: nat): (fs: seq<Vector>)
    requires StateMap(step) && |f0| == Width
    ensures |fs| == k + 1 && fs[0] == f0
    ensures forall i :: 0 <= i <= k ==> |fs[i]| == Width
  {
    if k == 0 then [f0]
    else
      var prev := Orbit(step, f0, k - 1);
      prev + [step(prev[k - 1])]
  }

  /** An orbit one step longer appends step applied to the last point. */
  lemma OrbitExtends(step: Vector -> Vector, f0: Vector, k: nat)
    requires StateMap(step) && |f0| == Width
    ensures Orbit(step, f0, k + 1) == Orbit(step, f0, k) + [step(Orbit(step, f0, k)[k])]
  {
  }

  /** A longer orbit starts with the shorter one. */
  lemma {:induction false} OrbitPrefix(step: Vector -> Vector, f0: Vector, k: nat, m: nat)
    requires StateMap(step) && |f0| == Width && m <= k
    ensures Orbit(step, f0, k)[..m + 1] == Orbit(step, f0, m)
    decreases k
  {
    if m < k {
      OrbitPrefix(step, f0, k - 1, m);
      var prev := Orbit(step, f0, k - 1);
      assert Orbit(step, f0, k)[..k] == prev;
      assert Orbit(step, f0, k)[..m + 1] == prev[..m + 1];
    }
  }

  /** Point i + 1 of an orbit is step applied to point i. */
  lemma OrbitStep(step: Vector -> Vector, f0: Vector, k: nat, i: nat)
    requires StateMap(step) && |f0| == Width && i < k
    ensures Orbit(step, f0, k)[i + 1] == step(Orbit(step, f0, k)[i])
  {
    OrbitPrefix(step, f0, k, i + 1);
    var t := Orbit(step, f0, i + 1);
    assert Orbit(step, f0, k)[i + 1] == t[i + 1];
    assert Orbit(step, f0, k)[i] == t[i];
  }

  /** step is a map on states that agrees with dynamics_constrained(dt, ., fv). */
  ghost predicate Agrees(n: Numerics, dt: real, fv: Vector, step: Vector -> Vector)
    requires Shaped(n) && |fv| == Controls
  {
    StateMap(step) &&
    forall f {:trigger step(f), NextState(n, dt, f, fv)} :: |f| == Width ==> step(f) == NextState(n, dt, f, fv)
  }

  /** dynamics_constrained(dt, ., fv) as a map on states. */
  function StepMap(n: Numerics, dt: real, fv: Vector): (step: Vector -> Vector)
    requires Shaped(n) && |fv| == Controls
    ensures StateMap(step) && Agrees(n, dt, fv, step)
    ensures forall f {:trigger step(f)} :: |f| == Width ==> step(f) == NextState(n, dt, f, fv)
  {
    f => if |f| == Width then NextState(n, dt, f, fv) else f
  }

  /** The states after 0, 1, ..., k applications of dynamics_constrained(dt, ., fv) to f0. */
  function Trajectory(n: Numerics, dt: real, f0: Vector, fv: Vector, k: nat): (fs: seq<Vector>)
    requires Shaped(n) && |f0| == Width && |fv| == Controls
    ensures |fs| == k + 1 && fs[0] == f0
  {
    Orbit(StepMap(n, dt, fv), f0, k)
  }

  /** State i + 1 of a trajectory is one constrained step from state i. */
  lemma TrajectoryStep(n: Numerics, dt: real, f0: Vector, fv: Vector, k: nat, i: nat)
    requires Shaped(n) && |f0| == Width && |fv| == Controls && i < k
    ensures |Trajectory(n, dt, f0, fv, k)[i]| == Width
    ensures Trajectory(n, dt, f0, fv, k)[i + 1] == NextState(n, dt, Trajectory(n, dt, f0, fv, k)[i], fv)
  {
    OrbitStep(StepMap(n, dt, fv), f0, k, i);
  }

  /** A longer run starts with the shorter one: state i does not depend on how many steps follow it. */
  lemma TrajectoryPrefix(n: Numerics, dt: real, f0: Vector, fv: Vector, k: nat, m: nat)
    requires Shaped(n) && |f0| == Width && |fv| == Controls && m <= k
    ensures Trajectory(n, dt, f0, fv, k)[..m + 1] == Trajectory(n, dt, f0, fv, m)
  {
    OrbitPrefix(StepMap(n, dt, fv), f0, k, m);
  }

  /** Python's int() on a float: truncation toward zero. */
  function Trunc(x: real): (i: int)
    ensures x >= 0.0 ==> 0 <= i && i as real <= x < i as real + 1.0
    ensures x < 0.0 ==> i <= 0 && i as real - 1.0 < x <= i as real
  {
    if x >= 0.0 then x.Floor else -((-x).Floor)
  }

  /** np.linspace(a, b, num) for num >= 0; the last sample is set to b exactly. */
  function Linspace(a: real, b: real, num: nat): (r: seq<real>)
    ensures |r| == num
    ensures num >= 1 ==> r[0] == a
    ensures num >= 2 ==> r[num - 1] == b
    ensures num >= 2 ==> forall k :: 0 <= k < num - 1 ==> r[k] == a + k as real * ((b - a) / (num - 1) as real)
  {
    if num == 1 then [a]
    else
      seq(num, k requires 0 <= k < num =>
        if k == num - 1 then b else a + k as real * ((b - a) / (num - 1) as real))
  }

  /** The exceptions solve can raise. */
  datatype SolveError =
    | ZeroDivisionError  // dt == 0 in (t1 - t0) / dt
    | ValueError         // np.linspace with a negative sample count
    | IndexError         // sol_y[0] on a trajectory with no rows

  /** Row i of a trajectory array holds the state f. */
  ghost predicate RowIs(solY: array2<real>, i: nat, f: Vector)
    reads solY
  {
    i < solY.Length0 && solY.Length1 == |f| && forall j :: 0 <= j < |f| ==> solY[i, j] == f[j]
  }

  /**
   * sol_y: row k of the (steps + 1) x 10 array is the state after k steps, for
   * any map `step` that agrees with dynamics_constrained(dt, ., fv) on states.
   */
  method Simulate(n: Numerics, dt: real, f0: Vector, fv: Vector, steps: nat, ghost step: Vector -> Vector)
    returns (solY: array2<real>)
    requires Shaped(n) && |f0| == Width && |fv| == Controls && Agrees(n, dt, fv, step)
    ensures fresh(solY) && solY.Length0 == steps + 1 && solY.Length1 == Width
    ensures forall i :: 0 <= i <= steps ==> RowIs(solY, i, Orbit(step, f0, steps)[i])
  {
    solY := new real[steps + 1, Width]((_, _) => 0.0);
    forall j | 0 <= j < Width {
      solY[0, j] := f0[j];
    }
    assert RowIs(solY, 0, f0);
    ghost var traj := [f0];
    assert traj == Orbit(step, f0, 0);
    for k := 1 to steps + 1
      invariant traj == Orbit(step, f0, k - 1)
      invariant forall i :: 0 <= i < k ==> RowIs(solY, i, traj[i])
    {
      ghost var next := traj + [step(traj[k - 1])];
      label before:
      Advance(n, dt, fv, solY, k - 1, traj[k - 1], step);
      forall i | 0 <= i < k
        ensures RowIs(solY, i, next[i])
      {
        assert next[i] == traj[i] && old@before(RowIs(solY, i, traj[i]));
        assert forall j :: 0 <= j < Width ==> solY[i, j] == old@before(solY[i, j]);
      }
      OrbitExtends(step, f0, k - 1);
      traj := next;
    }
  }

  /** One iteration of the stepping loop: row i + 1 := dynamics_constrained(row i). */
  method Advance(n: Numerics, dt: real, fv: Vector, solY: array2<real>, i: nat, ghost f: Vector,
                 ghost step: Vector -> Vector)
    requires Shaped(n) && |fv| == Controls && |f| == Width && Agrees(n, dt, fv, step)
    requires i + 1 < solY.Length0 && RowIs(solY, i, f)
    modifies solY
    ensures RowIs(solY, i + 1, step(f))
    ensures forall r, j :: 0 <= r < solY.Length0 && 0 <= j < solY.Length1 && r != i + 1 ==> solY[r, j] == old(solY[r, j])
  {
    var prev := ReadRow(solY, i);
    RowIsUnique(solY, i, prev, f);
    var next := DynamicsConstrained(n, dt, prev, fv);
    WriteRow(solY, i + 1, next);
  }

  /** sol_y[i] as a state. */
  method ReadRow(solY: array2<real>, i: nat) returns (f: Vector)
    requires i < solY.Length0
    ensures RowIs(solY, i, f) && |f| == solY.Length1
  {
    f := seq(solY.Length1, j requires 0 <= j < solY.Length1 reads solY => solY[i, j]);
  }

  /** sol_y[i] = f, leaving the other rows as they were. */
  method WriteRow(solY: array2<real>, i: nat, f: array<real>)
    requires i < solY.Length0 && f.Length == solY.Length1
    modifies solY
    ensures RowIs(solY, i, f[..])
    ensures forall r, j :: 0 <= r < solY.Length0 && 0 <= j < solY.Length1 && r != i ==> solY[r, j] == old(solY[r, j])
  {
    forall j | 0 <= j < solY.Length1 {
      solY[i, j] := f[j];
    }
  }

  /** A row holds one state only. */
  lemma RowIsUnique(solY: array2<real>, i: nat, f: Vector, g: Vector)
    requires RowIs(solY, i, f) && RowIs(solY, i, g)
    ensures f == g
  {
    assert forall j :: 0 <= j < |f| ==> f[j] == g[j];
  }

  /** sol_y.T: column k of the result is row k of the trajectory. */
  method TransposeTrajectory(solY: array2<real>) returns (ys: array2<real>)
    ensures fresh(ys) && ys.Length0 == solY.Length1 && ys.Length1 == solY.Length0
    ensures forall j, k :: 0 <= j < ys.Length0 && 0 <= k < ys.Length1 ==> ys[j, k] == solY[k, j]
  {
    ys := new real[solY.Length1, solY.Length0]((j, k) reads solY requires 0 <= j < solY.Length1 && 0 <= k < solY.Length0 => solY[k, j]);
  }

  /**
   * solve((t0, t1), f0, fv, dt): n_steps = int((t1 - t0) / dt) steps, the
   * sample times np.linspace(t0, t1, n_steps + 1), and the trajectory
   * sol_y.T, whose column k is the state after k steps.
   */
  method Solve(n: Numerics, t0: real, t1: real, f0: Vector, fv: Vector, dt: real)
    returns (r: Result<(seq<real>, array2<real>), SolveError>)
    requires Shaped(n) && |f0| == Width && |fv| == Controls
    ensures dt == 0.0 ==> r == Err(ZeroDivisionError)
    ensures dt != 0.0 && Trunc((t1 - t0) / dt) < -1 ==> r == Err(ValueError)
    ensures dt != 0.0 && Trunc((t1 - t0) / dt) == -1 ==> r == Err(IndexError)
    ensures dt != 0.0 && Trunc((t1 - t0) / dt) >= 0 ==>
      && r.Ok?
      && var steps, times, ys := Trunc((t1 - t0) / dt), r.value.0, r.value.1;
      && times == Linspace(t0, t1, steps + 1)
      && fresh(ys) && ys.Length0 == Width && ys.Length1 == steps + 1
      && forall j, k :: 0 <= j < Width && 0 <= k <= steps ==> ys[j, k] == Trajectory(n, dt, f0, fv, steps)[k][j]
  {
    if dt == 0.0 {
      return Err(ZeroDivisionError);
    }
    var steps := Trunc((t1 - t0) / dt);
    if steps + 1 < 0 {
      return Err(ValueError);
    }
    var times := Linspace(t0, t1, steps + 1);
    if steps + 1 == 0 {
      return Err(IndexError);
    }
    var solY := Simulate(n, dt, f0, fv, steps, StepMap(n, dt, fv));
    var ys := TransposeTrajectory(solY);
    return Ok((times, ys));
  }

  // ---------------------------------------------------------------------------
  // Properties of the trajectory

  /** Over t_span = (0, N * dt) with dt > 0 there are N steps and sample k is taken at k * dt. */
  lemma SampleTimesOnGrid(dt: real, steps: nat)
    requires dt > 0.0
    ensures Trunc((steps as real * dt - 0.0) / dt) == steps
    ensures var times := Linspace(0.0, steps as real * dt, steps + 1);
      forall k :: 0 <= k <= steps ==> times[k] == k as real * dt
  {
    assert (steps as real * dt - 0.0) / dt == steps as real;
    var times := Linspace(0.0, steps as real * dt, steps + 1);
    if steps >= 1 {
      assert (steps as real * dt - 0.0) / (steps + 1 - 1) as real == dt;
    }
  }

  /**
   * When t1 - t0 is not a multiple of dt the sample times do not match the
   * states: over (0, 1) with dt = 0.3 row 1 is the state at 0.3 but sample 1
   * is 1/3.
   */
  lemma SampleTimesOffGrid()
    ensures Trunc((1.0 - 0.0) / 0.3) == 3
    ensures Linspace(0.0, 1.0, 4)[1] == 1.0 / 3.0 != 1 as real * 0.3
  {
    assert (1.0 - 0.0) / 0.3 == 10.0 / 3.0;
  }
}
