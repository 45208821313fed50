/**
 * The mutable side of `Quaternion`: the object keeps a reference to a
 * QVector3D, and the `x`, `y` and `z` setters update that vector in place.
 * A vector handed to the constructor is stored, not copied, so every
 * quaternion built from it sees later updates.
 */
module QuaternionObjects {
  import V = Vectors
  import Q = Quaternions
  import opened Outcomes

  /** A QVector3D object: three coordinates with in-place setters. */
  class Vector3 {
    var x: real
    var y: real
    var z: real

    constructor (x: real, y: real, z: real)
      ensures Value() == V.Vec3(x, y, z)
    {
      this.x, this.y, this.z := x, y, z;
    }

    /** The coordinates as a value. */
    function Value(): V.Vec3
      reads this
    {
      V.Vec3(x, y, z)
    }

    method SetX(x: real)
      modifies this
      ensures Value() == old(Value()).(x := x)
    {
      this.x := x;
    }

    method SetY(y: real)
      modifies this
      ensures Value() == old(Value()).(y := y)
    {
      this.y := y;
    }

    method SetZ(z: real)
      modifies this
      ensures Value() == old(Value()).(z := z)
    {
      this.z := z;
    }
  }

  class Quaternion {
    var s: real
    var v: Vector3

    /** `Quaternion(s, vec)`: the vector object itself becomes the vector part. */
    constructor FromVector(s: real, vec: Vector3)
      ensures this.s == s && this.v == vec
      ensures Q.Construct(Q.Number(s), Q.Vector(vec.Value())) == Ok(Value())
    {
      this.s, this.v := s, vec;
    }

    /** `Quaternion(s, x, y, z)`: a new vector object is made from the three numbers. */
    constructor FromComponents(s: real, x: real, y: real, z: real)
      ensures fresh(v)
      ensures Q.Construct(Q.Number(s), Q.Number(x), Q.Number(y), Q.Number(z)) == Ok(Value())
    {
      this.s := s;
      this.v := new Vector3(x, y, z);
    }

    /** The quaternion as a value, read through the stored vector. */
    function Value(): Q.Quat
      reads this, v
    {
      Q.Quat(s, v.Value())
    }

    /** The `x` property: the stored vector's first coordinate. */
    function X(): (r: real)
      reads this, v
      ensures r == Value().v.x
    {
      v.x
    }

    function Y(): (r: real)
      reads this, v
      ensures r == Value().v.y
    {
      v.y
    }

    function Z(): (r: real)
      reads this, v
      ensures r == Value().v.z
    {
      v.z
    }

    /** The `x` setter: only the stored vector changes, and only its first coordinate. */
    method SetX(x: real)
      modifies v
      ensures Value() == old(Value()).(v := old(Value()).v.(x := x))
    {
      v.SetX(x);
    }

    method SetY(y: real)
      modifies v
      ensures Value() == old(Value()).(v := old(Value()).v.(y := y))
    {
      v.SetY(y);
    }

    method SetZ(z: real)
      modifies v
      ensures Value() == old(Value()).(v := old(Value()).v.(z := z))
    {
      v.SetZ(z);
    }
  }

  /**
   * Two quaternions built on one vector object share it: setting `x` on the
   * first is seen by the second, whose scalar part stays its own.
   */
  method SharedVector(vec: Vector3, s1: real, s2: real, x: real) returns (first: Quaternion, second: Quaternion)
    modifies vec
    ensures first.v == vec && second.v == vec
    ensures second.X() == x && second.Value() == Q.Quat(s2, old(vec.Value()).(x := x))
    ensures first.Value() == Q.Quat(s1, old(vec.Value()).(x := x))
  {
    first := new Quaternion.FromVector(s1, vec);
    second := new Quaternion.FromVector(s2, vec);
    first.SetX(x);
  }
}
