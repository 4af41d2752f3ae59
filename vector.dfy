/** Three-dimensional vectors over the reals (class Vector3 of Raytracer.cs,
    its static operations). Unit, Magnitude and Distance need a square root
    and are not defined here: where the renderer needs them they are given
    as parameters. */
module Vectors {

  datatype Vector3 = Vector3(x: real, y: real, z: real)

  const ZERO := Vector3(0.0, 0.0, 0.0)

  function Add(a: Vector3, b: Vector3): (r: Vector3)
    ensures Subtract(r, b) == a
  {
    Vector3(a.x + b.x, a.y + b.y, a.z + b.z)
  }

  function Subtract(a: Vector3, b: Vector3): (r: Vector3)
    ensures r == ZERO <==> a == b
  {
    Vector3(a.x - b.x, a.y - b.y, a.z - b.z)
  }

  function Multiply(a: Vector3, amount: real): (r: Vector3)
    ensures amount == 0.0 ==> r == ZERO
    ensures amount == 1.0 ==> r == a
  {
    Vector3(a.x * amount, a.y * amount, a.z * amount)
  }

  /** Division by a non-zero amount; the float division by zero, which gives
      infinities, is not modelled. */
  function Divide(a: Vector3, amount: real): (r: Vector3)
    requires amount != 0.0
    ensures Multiply(r, amount) == a
  {
    Vector3(a.x / amount, a.y / amount, a.z / amount)
  }

  function DotProduct(a: Vector3, b: Vector3): (r: real)
    ensures a == ZERO || b == ZERO ==> r == 0.0
  {
    a.x * b.x + a.y * b.y + a.z * b.z
  }

  function CrossProduct(a: Vector3, b: Vector3): (r: Vector3)
    ensures a == b ==> r == ZERO
  {
    Vector3(a.y * b.z - a.z * b.y, a.z * b.x - a.x * b.z, a.x * b.y - a.y * b.x)
  }

  /** The mirror image of v about the normal n, n * (2 (n . v)) - v, as the
      renderer forms reflected view and light vectors. */
  function Reflect(n: Vector3, v: Vector3): (r: Vector3)
    ensures DotProduct(n, v) == 0.0 ==> r == Multiply(v, -1.0)
    ensures n == ZERO ==> r == Multiply(v, -1.0)
  {
    Subtract(Multiply(n, 2.0 * DotProduct(n, v)), v)
  }

  // ---------------------------------------------------------------------------
  // Algebraic properties

  /** Subtract undoes Add. */
  lemma SubtractUndoesAdd(a: Vector3, b: Vector3)
    ensures Subtract(Add(a, b), b) == a
    ensures Add(Subtract(a, b), b) == a
  {
  }

  /** The dot product along a ray is affine in the ray parameter. */
  lemma {:induction false} DotAlongRay(n: Vector3, start: Vector3, ray: Vector3, t: real)
    ensures DotProduct(n, Add(start, Multiply(ray, t))) == DotProduct(n, start) + t * DotProduct(n, ray)
  {
    var p := Add(start, Multiply(ray, t));
    assert p == Vector3(start.x + ray.x * t, start.y + ray.y * t, start.z + ray.z * t);
    assert n.x * p.x == n.x * start.x + t * (n.x * ray.x);
    assert n.y * p.y == n.y * start.y + t * (n.y * ray.y);
    assert n.z * p.z == n.z * start.z + t * (n.z * ray.z);
  }

  lemma DotSubtract(n: Vector3, a: Vector3, b: Vector3)
    ensures DotProduct(n, Subtract(a, b)) == DotProduct(n, a) - DotProduct(n, b)
  {
  }

  /** The cross product is orthogonal to both of its arguments. */
  lemma {:induction false} CrossOrthogonal(a: Vector3, b: Vector3)
    ensures DotProduct(a, CrossProduct(a, b)) == 0.0
    ensures DotProduct(b, CrossProduct(a, b)) == 0.0
  {
    assert a.x * (a.y * b.z - a.z * b.y) + a.y * (a.z * b.x - a.x * b.z) + a.z * (a.x * b.y - a.y * b.x) == 0.0;
    assert b.x * (a.y * b.z - a.z * b.y) + b.y * (a.z * b.x - a.x * b.z) + b.z * (a.x * b.y - a.y * b.x) == 0.0;
  }

  /** Swapping the arguments of the cross product reverses it: this is why
      the winding order of a triangle's vertices decides its normal. */
  lemma CrossAnticommutes(a: Vector3, b: Vector3)
    ensures CrossProduct(b, a) == Multiply(CrossProduct(a, b), -1.0)
  {
  }

  /** Scaling keeps orthogonality: a normal obtained by rescaling a cross
      product is still orthogonal to both edges. */
  lemma {:induction false} ScaledOrthogonal(c: Vector3, k: real, e: Vector3)
    requires DotProduct(e, c) == 0.0
    ensures DotProduct(e, Multiply(c, k)) == 0.0
  {
    calc {
      DotProduct(e, Multiply(c, k));
      e.x * (c.x * k) + e.y * (c.y * k) + e.z * (c.z * k);
      k * (e.x * c.x + e.y * c.y + e.z * c.z);
    }
  }

  /** Reflection keeps the component along a unit normal. */
  lemma {:induction false} ReflectKeepsNormalComponent(n: Vector3, v: Vector3)
    requires DotProduct(n, n) == 1.0
    ensures DotProduct(n, Reflect(n, v)) == DotProduct(n, v)
  {
    var d := DotProduct(n, v);
    calc {
      DotProduct(n, Reflect(n, v));
      n.x * (n.x * (2.0 * d) - v.x) + n.y * (n.y * (2.0 * d) - v.y) + n.z * (n.z * (2.0 * d) - v.z);
      2.0 * d * (n.x * n.x + n.y * n.y + n.z * n.z) - d;
      2.0 * d * DotProduct(n, n) - d;
    }
  }

  /** Reflecting twice about a unit normal gives the original vector back. */
  lemma {:induction false} ReflectInvolution(n: Vector3, v: Vector3)
    requires DotProduct(n, n) == 1.0
    ensures Reflect(n, Reflect(n, v)) == v
  {
    ReflectKeepsNormalComponent(n, v);
  }
}

/** The in-place mutators of Vector3, used by WorldObject.Translate. */
module VectorCells {
  import opened Vectors

  /** A Vector3 object whose coordinates are updated in place; every holder
      of a reference to it sees the change. */
  class VectorCell {
    var x: real
    var y: real
    var z: real

    constructor (i: real, j: real, k: real)
      ensures Value() == Vector3(i, j, k)
    {
      x, y, z := i, j, k;
    }

    function Value(): Vector3
      reads this
    {
      Vector3(x, y, z)
    }

    /** The instance Add: adds a to this vector. */
    method Add(a: Vector3)
      modifies this
      ensures Value() == Vectors.Add(old(Value()), a)
    {
      x := x + a.x;
      y := y + a.y;
      z := z + a.z;
    }

    method ScaleX(amount: real)
      modifies this
      ensures Value() == old(Value()).(x := old(x) * amount)
    {
      x := x * amount;
    }

    method ScaleY(amount: real)
      modifies this
      ensures Value() == old(Value()).(y := old(y) * amount)
    {
      y := y * amount;
    }

    method ScaleZ(amount: real)
      modifies this
      ensures Value() == old(Value()).(z := old(z) * amount)
    {
      z := z * amount;
    }

    /** The three-factor Scale: each coordinate by its own factor. */
    method Scale(xScale: real, yScale: real, zScale: real)
      modifies this
      ensures Value() == Vector3(old(x) * xScale, old(y) * yScale, old(z) * zScale)
    {
      x := x * xScale;
      y := y * yScale;
      z := z * zScale;
    }

    /** The one-factor Scale: the whole vector by one factor. */
    method ScaleUniform(amount: real)
      modifies this
      ensures Value() == Multiply(old(Value()), amount)
    {
      x := x * amount;
      y := y * amount;
      z := z * amount;
    }
  }
}
