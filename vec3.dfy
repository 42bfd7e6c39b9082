/**
 * The Vec3 value type of the digital twin: a 3-component float vector with
 * argument validation in its constructor, componentwise arithmetic with scalar
 * broadcasting, negation, the cross-product matrix and saturation. Python's
 * dynamically typed operands are a `Value` datatype; raised exceptions are
 * `Err` results. Floats are modelled as reals.
 */
module TwinVec3 {
  import opened Wrappers

  /** The contents of `self.array`: three floats. */
  datatype Triple = Triple(x: real, y: real, z: real)

  /**
   * A Python value as the operators see it. `Int` covers bool too (a subclass
   * of int); List, Tuple and NdArray hold elements numpy converts to float.
   */
  datatype Value =
    | Int(i: int)
    | Float(f: real)
    | Vector(v: Triple)
    | List(items: seq<real>)
    | Tuple(items: seq<real>)
    | NdArray(items: seq<real>)
    | Other

  /** The exceptions the operators raise. `MatmulOperand` is numpy refusing a non-array operand of @. */
  datatype PyError = ValueError | TypeError | AttributeError | IndexError | ZeroDivisionError | MatmulOperand

  /** isinstance(v, (int, float)) */
  predicate IsNumber(v: Value)
  {
    v.Int? || v.Float?
  }

  /** isinstance(v, (list, tuple, np.ndarray)) */
  predicate IsSequence(v: Value)
  {
    v.List? || v.Tuple? || v.NdArray?
  }

  /** float(v) for an int or float. */
  function AsReal(v: Value): real
    requires IsNumber(v)
  {
    if v.Int? then v.i as real else v.f
  }

  function Elements(t: Triple): seq<real>
  {
    [t.x, t.y, t.z]
  }

  /** Vec3(*args). */
  function Construct(args: seq<Value>): (r: Result<Triple, PyError>)
    ensures r.Ok? <==>
              (|args| == 1 && (args[0].Vector? || (IsSequence(args[0]) && |args[0].items| == 3)))
              || (|args| == 3 && forall a :: a in args ==> IsNumber(a))
    ensures r == Err(ValueError) <==> |args| == 1 && IsSequence(args[0]) && |args[0].items| != 3
    ensures r == Err(TypeError) <==> !r.Ok? && r != Err(ValueError)
    ensures r.Ok? && |args| == 1 && args[0].Vector? ==> r.value == args[0].v
    ensures r.Ok? && |args| == 1 && IsSequence(args[0]) ==> Elements(r.value) == args[0].items
    ensures r.Ok? && |args| == 3 ==> Elements(r.value) == [AsReal(args[0]), AsReal(args[1]), AsReal(args[2])]
  {
    if |args| == 1 then
      var arg := args[0];
      if arg.Vector? then Ok(arg.v)
      else if IsSequence(arg) then
        if |arg.items| != 3 then Err(ValueError)
        else Ok(Triple(arg.items[0], arg.items[1], arg.items[2]))
      else Err(TypeError)
    else if |args| == 3 then
      if IsNumber(args[0]) && IsNumber(args[1]) && IsNumber(args[2]) then
        Ok(Triple(AsReal(args[0]), AsReal(args[1]), AsReal(args[2])))
      else Err(TypeError)
    else Err(TypeError)
  }

  /** The triple whose three components are s. */
  function Broadcast(s: real): Triple
  {
    Triple(s, s, s)
  }

  /** self + other: broadcast for a number, componentwise for an ndarray or a Vec3. */
  function Add(self: Triple, other: Value): (r: Result<Triple, PyError>)
    ensures r.Ok? <==> IsNumber(other) || other.Vector? || (other.NdArray? && |other.items| >= 3)
    ensures r == Err(IndexError) <==> other.NdArray? && |other.items| < 3
    ensures r.Err? ==> r.error == IndexError || r.error == TypeError
    ensures r.Ok? ==> Sub(r.value, other) == Ok(self)
  {
    match other
    case Int(_) => Ok(Triple(self.x + AsReal(other), self.y + AsReal(other), self.z + AsReal(other)))
    case Float(_) => Ok(Triple(self.x + AsReal(other), self.y + AsReal(other), self.z + AsReal(other)))
    case NdArray(e) =>
      if |e| < 3 then Err(IndexError) else Ok(Triple(self.x + e[0], self.y + e[1], self.z + e[2]))
    case Vector(o) => Ok(Triple(self.x + o.x, self.y + o.y, self.z + o.z))
    case _ => Err(TypeError)
  }

  /** other + self, for an operand that has no __add__ of its own: delegates to __add__. */
  function RAdd(self: Triple, other: Value): (r: Result<Triple, PyError>)
    ensures IsNumber(other) ==> r == Ok(Triple(AsReal(other) + self.x, AsReal(other) + self.y, AsReal(other) + self.z))
    ensures r.Ok? <==> IsNumber(other) || other.Vector? || (other.NdArray? && |other.items| >= 3)
  {
    Add(self, other)
  }

  /** self - other: broadcast for a number, componentwise for an ndarray or a Vec3. */
  function Sub(self: Triple, other: Value): (r: Result<Triple, PyError>)
    ensures r.Ok? <==> IsNumber(other) || other.Vector? || (other.NdArray? && |other.items| >= 3)
    ensures r == Err(IndexError) <==> other.NdArray? && |other.items| < 3
    ensures r.Err? ==> r.error == IndexError || r.error == TypeError
    ensures r.Ok? && other.Vector? ==> Elements(r.value) == [self.x - other.v.x, self.y - other.v.y, self.z - other.v.z]
  {
    match other
    case Int(_) => Ok(Triple(self.x - AsReal(other), self.y - AsReal(other), self.z - AsReal(other)))
    case Float(_) => Ok(Triple(self.x - AsReal(other), self.y - AsReal(other), self.z - AsReal(other)))
    case NdArray(e) =>
      if |e| < 3 then Err(IndexError) else Ok(Triple(self.x - e[0], self.y - e[1], self.z - e[2]))
    case Vector(o) => Ok(Triple(self.x - o.x, self.y - o.y, self.z - o.z))
    case _ => Err(TypeError)
  }

  /** other - self as the source writes it: it delegates to __sub__, computing self - other. */
  function RSub(self: Triple, other: Value): (r: Result<Triple, PyError>)
    ensures IsNumber(other) ==> r == Ok(Triple(self.x - AsReal(other), self.y - AsReal(other), self.z - AsReal(other)))
    ensures r.Ok? <==> IsNumber(other) || other.Vector? || (other.NdArray? && |other.items| >= 3)
  {
    Sub(self, other)
  }

  /** other - self: what a reflected subtraction has to compute. */
  function RSubCorrected(self: Triple, other: Value): (r: Result<Triple, PyError>)
    ensures r.Ok? <==> IsNumber(other)
    ensures r.Ok? ==> Add(r.value, Vector(self)) == Ok(Broadcast(AsReal(other)))
  {
    if IsNumber(other) then
      Ok(Triple(AsReal(other) - self.x, AsReal(other) - self.y, AsReal(other) - self.z))
    else Err(TypeError)
  }

  /** self * other: scaling by a number, componentwise with a Vec3; anything else lacks `.x`. */
  function Mul(self: Triple, other: Value): (r: Result<Triple, PyError>)
    ensures r.Ok? <==> IsNumber(other) || other.Vector?
    ensures r.Err? ==> r.error == AttributeError
    ensures other.Vector? ==> r.Ok? && r.value.x + r.value.y + r.value.z == Dot(self, other.v)
  {
    if IsNumber(other) then
      Ok(Triple(self.x * AsReal(other), self.y * AsReal(other), self.z * AsReal(other)))
    else if other.Vector? then
      Ok(Triple(self.x * other.v.x, self.y * other.v.y, self.z * other.v.z))
    else Err(AttributeError)
  }

  /** self / other: division by a number or componentwise by a Vec3; a zero divisor raises. */
  function TrueDiv(self: Triple, other: Value): (r: Result<Triple, PyError>)
    ensures r == Err(ZeroDivisionError) <==>
              (IsNumber(other) && AsReal(other) == 0.0) || (other.Vector? && (other.v.x == 0.0 || other.v.y == 0.0 || other.v.z == 0.0))
    ensures r == Err(AttributeError) <==> !IsNumber(other) && !other.Vector?
    ensures r.Ok? ==> Mul(r.value, other) == Ok(self)
  {
    if IsNumber(other) then
      var s := AsReal(other);
      if s == 0.0 then Err(ZeroDivisionError)
      else
        var q := Triple(self.x / s, self.y / s, self.z / s);
        DivMulCancel(self.x, s);
        DivMulCancel(self.y, s);
        DivMulCancel(self.z, s);
        MulUndoes(q, other, self);
        Ok(q)
    else if other.Vector? then
      var o := other.v;
      if o.x == 0.0 || o.y == 0.0 || o.z == 0.0 then Err(ZeroDivisionError)
      else
        var q := Triple(self.x / o.x, self.y / o.y, self.z / o.z);
        DivMulCancel(self.x, o.x);
        DivMulCancel(self.y, o.y);
        DivMulCancel(self.z, o.z);
        MulUndoes(q, other, self);
        Ok(q)
    else Err(AttributeError)
  }

  /** -self */
  function Neg(self: Triple): (r: Triple)
    ensures Add(r, Vector(self)) == Ok(Triple(0.0, 0.0, 0.0))
  {
    Triple(-self.x, -self.y, -self.z)
  }

  function Dot(a: Triple, b: Triple): real
  {
    a.x * b.x + a.y * b.y + a.z * b.z
  }

  /**
   * self @ other as the source writes it: the Vec3 branch passes
   * `other.array.transpose`, a bound method, which numpy refuses as an operand;
   * only a shape-(3,) ndarray yields the dot product.
   */
  function MatMul(self: Triple, other: Value): (r: Result<real, PyError>)
    ensures r.Ok? <==> other.NdArray? && |other.items| == 3
    ensures other.Vector? ==> r == Err(MatmulOperand)
    ensures r.Ok? ==> r.value == Dot(self, Triple(other.items[0], other.items[1], other.items[2]))
  {
    if other.Vector? then Err(MatmulOperand)
    else if other.NdArray? && |other.items| == 3 then
      Ok(self.x * other.items[0] + self.y * other.items[1] + self.z * other.items[2])
    else Err(TypeError)
  }

  /** self @ other with the Vec3 branch computing the dot product of the two arrays. */
  function MatMulCorrected(self: Triple, other: Value): (r: Result<real, PyError>)
    ensures r.Ok? <==> other.Vector? || (other.NdArray? && |other.items| == 3)
    ensures other.Vector? ==> r == MatMul(self, NdArray(Elements(other.v)))
    ensures !other.Vector? ==> r == MatMul(self, other)
  {
    if other.Vector? then
      var e := Elements(other.v);
      assert |e| == 3 && e[0] == other.v.x && e[1] == other.v.y && e[2] == other.v.z;
      Ok(Dot(self, other.v))
    else MatMul(self, other)
  }

  /** cross_matrix(): the matrix [a]x with [a]x b = a x b. */
  function CrossMatrix(a: Triple): (k: seq<seq<real>>)
    ensures |k| == 3 && forall i :: 0 <= i < 3 ==> |k[i]| == 3
    ensures forall i, j :: 0 <= i < 3 && 0 <= j < 3 ==> k[i][j] == -k[j][i]
    ensures Apply(k, a) == Triple(0.0, 0.0, 0.0)
  {
    [[0.0, -a.z, a.y],
     [a.z, 0.0, -a.x],
     [-a.y, a.x, 0.0]]
  }

  /** The cross product, written out from its definition. */
  function Cross(a: Triple, b: Triple): (r: Triple)
    ensures Dot(r, a) == 0.0 && Dot(r, b) == 0.0
  {
    Triple(a.y * b.z - a.z * b.y, a.z * b.x - a.x * b.z, a.x * b.y - a.y * b.x)
  }

  /** Matrix times a triple. */
  function Apply(k: seq<seq<real>>, b: Triple): Triple
    requires |k| == 3 && forall i :: 0 <= i < 3 ==> |k[i]| == 3
  {
    Triple(k[0][0] * b.x + k[0][1] * b.y + k[0][2] * b.z,
           k[1][0] * b.x + k[1][1] * b.y + k[1][2] * b.z,
           k[2][0] * b.x + k[2][1] * b.y + k[2][2] * b.z)
  }

  /** np.clip of one component: max with lower first, then min with upper. */
  function Clip(c: real, lower: real, upper: real): (r: real)
    ensures lower <= upper ==> lower <= r <= upper
    ensures lower <= c <= upper ==> r == c
    ensures upper < lower ==> r == upper
  {
    var m := if c < lower then lower else c;
    if m > upper then upper else m
  }

  /** Vec3.saturate(vec, lower, upper) */
  function Saturate(v: Triple, lower: real, upper: real): (r: Triple)
    ensures lower <= upper ==> Within(r, lower, upper)
    ensures Within(v, lower, upper) ==> r == v
  {
    Triple(Clip(v.x, lower, upper), Clip(v.y, lower, upper), Clip(v.z, lower, upper))
  }

  predicate Within(v: Triple, lower: real, upper: real)
  {
    lower <= v.x <= upper && lower <= v.y <= upper && lower <= v.z <= upper
  }

  // ---------------------------------------------------------------------------
  // Properties

  /** The constructor accepts a Vec3 or a three-element list, tuple or ndarray, or three numbers, and copies them. */
  lemma ConstructAccepts(v: Triple, a: real, b: real, c: real, n: int)
    ensures Construct([Vector(v)]) == Ok(v)
    ensures Construct([List([a, b, c])]) == Ok(Triple(a, b, c))
    ensures Construct([Tuple([a, b, c])]) == Ok(Triple(a, b, c))
    ensures Construct([NdArray([a, b, c])]) == Ok(Triple(a, b, c))
    ensures Construct([Float(a), Int(n), Float(c)]) == Ok(Triple(a, n as real, c))
  {
  }

  /** Any other argument shape raises: ValueError for a wrong-length sequence, TypeError otherwise. */
  lemma ConstructRejects(args: seq<Value>)
    requires || (|args| != 1 && |args| != 3)
             || (|args| == 1 && !args[0].Vector? && !IsSequence(args[0]))
             || (|args| == 3 && exists a :: a in args && !IsNumber(a))
    ensures Construct(args) == Err(TypeError)
  {
  }

  /** Adding a number broadcasts it: the same as adding the vector with three equal components. */
  lemma AddBroadcasts(v: Triple, s: Value)
    requires IsNumber(s)
    ensures Add(v, s) == Add(v, Vector(Broadcast(AsReal(s))))
    ensures Sub(v, s) == Sub(v, Vector(Broadcast(AsReal(s))))
  {
  }

  /** An ndarray operand acts through its first three entries, like the Vec3 holding them. */
  lemma NdArrayActsLikeVec3(v: Triple, e: seq<real>)
    requires |e| >= 3
    ensures Add(v, NdArray(e)) == Add(v, Vector(Triple(e[0], e[1], e[2])))
    ensures Sub(v, NdArray(e)) == Sub(v, Vector(Triple(e[0], e[1], e[2])))
  {
  }

  /** Unsupported operand types raise TypeError for + and -. */
  lemma AddSubRejectUnsupported(v: Triple, other: Value)
    requires other.List? || other.Tuple? || other.Other?
    ensures Add(v, other) == Err(TypeError) && Sub(v, other) == Err(TypeError)
  {
  }

  /** Vec3 addition is commutative, and subtracting then adding back gives the original. */
  lemma AddSubInverse(a: Triple, b: Triple)
    ensures Add(a, Vector(b)) == Add(b, Vector(a))
    ensures Sub(a, Vector(b)).Ok? && Add(Sub(a, Vector(b)).value, Vector(b)) == Ok(a)
  {
  }

  /** The reflected addition s + v is correct: it equals v + s componentwise. */
  lemma RAddIsSum(v: Triple, s: Value)
    requires IsNumber(s)
    ensures RAdd(v, s) == Ok(Triple(AsReal(s) + v.x, AsReal(s) + v.y, AsReal(s) + v.z))
  {
  }

  /** As written, s - v evaluates to v - s for every number s. */
  lemma RSubComputesSelfMinusOther(v: Triple, s: Value)
    requires IsNumber(s)
    ensures RSub(v, s) == Sub(v, s)
    ensures RSub(v, s) == Ok(Triple(v.x - AsReal(s), v.y - AsReal(s), v.z - AsReal(s)))
  {
  }

  /** A concrete case: 0 - Vec3(1, 1, 1) comes out as (1, 1, 1) instead of (-1, -1, -1). */
  lemma RSubCounterexample()
    ensures RSub(Triple(1.0, 1.0, 1.0), Int(0)) == Ok(Triple(1.0, 1.0, 1.0))
    ensures RSubCorrected(Triple(1.0, 1.0, 1.0), Int(0)) == Ok(Triple(-1.0, -1.0, -1.0))
  {
    assert AsReal(Int(0)) == 0.0;
  }

  /** The corrected s - v is the negation of v - s, and equals s + (-v). */
  lemma RSubCorrectedIsReflected(v: Triple, s: Value)
    requires IsNumber(s)
    ensures Sub(v, s).Ok? && RSubCorrected(v, s) == Ok(Neg(Sub(v, s).value))
    ensures RSubCorrected(v, s) == Add(Neg(v), s)
  {
  }

  /** Multiplying q by other gives t whenever each component multiplies out to t's. */
  lemma MulUndoes(q: Triple, other: Value, t: Triple)
    requires IsNumber(other) ==> q.x * AsReal(other) == t.x && q.y * AsReal(other) == t.y && q.z * AsReal(other) == t.z
    requires other.Vector? ==> q.x * other.v.x == t.x && q.y * other.v.y == t.y && q.z * other.v.z == t.z
    requires IsNumber(other) || other.Vector?
    ensures Mul(q, other) == Ok(t)
  {
    var m := Mul(q, other);
    assert m.Ok? && m.value.x == t.x && m.value.y == t.y && m.value.z == t.z;
  }

  lemma DivMulCancel(a: real, r: real)
    requires r != 0.0
    ensures (a / r) * r == a
  {
  }

  lemma MulDivCancel(a: real, r: real)
    requires r != 0.0
    ensures (a * r) / r == a
  {
  }

  /** a * r, named, divides back to a. */
  lemma ProductDividesOut(a: real, r: real) returns (p: real)
    requires r != 0.0
    ensures p == a * r && p / r == a
  {
    p := a * r;
    MulDivCancel(a, r);
  }

  /** Dividing q by a non-zero other gives t whenever each component divides out to t's. */
  lemma DivideOut(q: Triple, other: Value, t: Triple)
    requires IsNumber(other) ==> AsReal(other) != 0.0 && q.x / AsReal(other) == t.x && q.y / AsReal(other) == t.y && q.z / AsReal(other) == t.z
    requires other.Vector? ==> other.v.x != 0.0 && other.v.y != 0.0 && other.v.z != 0.0
                               && q.x / other.v.x == t.x && q.y / other.v.y == t.y && q.z / other.v.z == t.z
    requires IsNumber(other) || other.Vector?
    ensures TrueDiv(q, other) == Ok(t)
  {
    var d := TrueDiv(q, other);
    assert d.Ok? && d.value.x == t.x && d.value.y == t.y && d.value.z == t.z;
  }

  /** Multiplying and then dividing by the same non-zero number gives the original. */
  lemma MulDivByScalar(v: Triple, s: Value)
    requires IsNumber(s) && AsReal(s) != 0.0
    ensures Mul(v, s).Ok? && TrueDiv(Mul(v, s).value, s) == Ok(v)
  {
    var r := AsReal(s);
    var m := Triple(v.x * r, v.y * r, v.z * r);
    MulUndoes(v, s, m);
    MulDivCancel(v.x, r);
    MulDivCancel(v.y, r);
    MulDivCancel(v.z, r);
    DivideOut(m, s, v);
  }

  /** Multiplying and then dividing componentwise by a Vec3 with non-zero components gives the original. */
  lemma MulDivByVec3(v: Triple, b: Triple)
    requires b.x != 0.0 && b.y != 0.0 && b.z != 0.0
    ensures Mul(v, Vector(b)).Ok? && TrueDiv(Mul(v, Vector(b)).value, Vector(b)) == Ok(v)
  {
    var px := ProductDividesOut(v.x, b.x);
    var py := ProductDividesOut(v.y, b.y);
    var pz := ProductDividesOut(v.z, b.z);
    var m := Triple(px, py, pz);
    MulUndoes(v, Vector(b), m);
    DivideOut(m, Vector(b), v);
  }

  /** Division by a zero number, or by a Vec3 with a zero component, raises ZeroDivisionError. */
  lemma DivByZeroRaises(v: Triple, b: Triple)
    requires b.x == 0.0 || b.y == 0.0 || b.z == 0.0
    ensures TrueDiv(v, Float(0.0)) == Err(ZeroDivisionError) && TrueDiv(v, Int(0)) == Err(ZeroDivisionError)
    ensures TrueDiv(v, Vector(b)) == Err(ZeroDivisionError)
  {
  }

  /** Negation is scaling by -1 and is its own inverse. */
  lemma NegInvolution(v: Triple)
    ensures Neg(Neg(v)) == v
    ensures Mul(v, Int(-1)) == Ok(Neg(v))
  {
  }

  /** As written, v @ w fails for every Vec3 operand w. */
  lemma MatMulVec3Fails(v: Triple, w: Triple)
    ensures MatMul(v, Vector(w)) == Err(MatmulOperand)
  {
  }

  /** The corrected v @ w is the dot product, symmetric, and agrees with the ndarray branch. */
  lemma MatMulCorrectedIsDot(v: Triple, w: Triple)
    ensures MatMulCorrected(v, Vector(w)) == MatMulCorrected(w, Vector(v))
    ensures MatMulCorrected(v, Vector(w)) == MatMul(v, NdArray(Elements(w)))
    ensures MatMulCorrected(v, Vector(v)).value >= 0.0
  {
    var e := Elements(w);
    assert |e| == 3 && e[0] == w.x && e[1] == w.y && e[2] == w.z;
    var a, b := MatMul(v, NdArray(e)), MatMulCorrected(v, Vector(w));
    assert a.Ok? && a.value == v.x * e[0] + v.y * e[1] + v.z * e[2];
    assert b.Ok? && b.value == Dot(v, w);
    assert v.x * e[0] + v.y * e[1] + v.z * e[2] == Dot(v, w);
    assert a == b;
  }

  /** cross_matrix is skew-symmetric. */
  lemma CrossMatrixSkew(a: Triple)
    ensures forall i, j :: 0 <= i < 3 && 0 <= j < 3 ==> CrossMatrix(a)[i][j] == -CrossMatrix(a)[j][i]
  {
  }

  /** cross_matrix(a) applied to b is a x b; in particular it annihilates a. */
  lemma CrossMatrixIsCross(a: Triple, b: Triple)
    ensures Apply(CrossMatrix(a), b) == Cross(a, b)
    ensures Apply(CrossMatrix(a), a) == Triple(0.0, 0.0, 0.0)
  {
  }

  /** For lower <= upper saturate lands inside the box, is the identity inside it, and is idempotent. */
  lemma SaturateProperties(v: Triple, lower: real, upper: real)
    requires lower <= upper
    ensures Within(Saturate(v, lower, upper), lower, upper)
    ensures Within(v, lower, upper) ==> Saturate(v, lower, upper) == v
    ensures Saturate(Saturate(v, lower, upper), lower, upper) == Saturate(v, lower, upper)
  {
  }

  /** A Vec3 object: the operators above build fresh values, these members overwrite `self.array`. */
  class Vec3 {
    /** `self.array` (`array` is a reserved word in Dafny). */
    var arr: Triple

    /** Vec3(*args) for argument shapes that do not raise. */
    constructor (args: seq<Value>)
      requires Construct(args).Ok?
      ensures arr == Construct(args).value
    {
      arr := Construct(args).value;
    }

    /** The x setter: self.array[0] = value. */
    method SetX(value: real)
      modifies this
      ensures arr == old(arr).(x := value)
    {
      arr := arr.(x := value);
    }

    /** The y setter: self.array[1] = value. */
    method SetY(value: real)
      modifies this
      ensures arr == old(arr).(y := value)
    {
      arr := arr.(y := value);
    }

    /** The z setter: self.array[2] = value. */
    method SetZ(value: real)
      modifies this
      ensures arr == old(arr).(z := value)
    {
      arr := arr.(z := value);
    }

    /** _instance_saturate: store the saturated array into this object and return it. */
    method InstanceSaturate(lower: real, upper: real) returns (self: Vec3)
      modifies this
      ensures self == this
      ensures arr == Saturate(old(arr), lower, upper)
      ensures lower <= upper ==> Within(arr, lower, upper)
    {
      arr := Saturate(arr, lower, upper);
      if lower <= upper {
        SaturateProperties(old(arr), lower, upper);
      }
      self := this;
    }
  }
}
