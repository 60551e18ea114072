/**
 Plane vectors and the abstract mathematical functions the visualisations call.

 Every body moves in the plane y = 0, so a position is its (x, z) pair.
 `Math.cos`, `Math.sin` and `Math.sqrt` are not computed here: a `MathLib`
 value carries them as functions over `real`, and the only facts the model
 relies on are the predicates `UnitCircle` and `PositiveRoot`.
 */
module Geometry {

  /** A position or offset in the orbital plane. */
  datatype Vec = Vec(x: real, z: real)

  const Origin: Vec := Vec(0.0, 0.0)

  function Add(a: Vec, b: Vec): Vec {
    Vec(a.x + b.x, a.z + b.z)
  }

  function Sub(a: Vec, b: Vec): Vec {
    Vec(a.x - b.x, a.z - b.z)
  }

  /** Squared Euclidean length (the model never needs the root itself). */
  function NormSq(v: Vec): real {
    v.x * v.x + v.z * v.z
  }

  /** The cosine, sine and square-root functions the source takes from `Math`. */
  datatype MathLib = MathLib(cos: real -> real, sin: real -> real, sqrt: real -> real)

  /** cos² + sin² = 1 at every angle. */
  ghost predicate UnitCircle(m: MathLib) {
    forall a :: m.cos(a) * m.cos(a) + m.sin(a) * m.sin(a) == 1.0
  }

  /** The square root of a positive number is positive. */
  ghost predicate PositiveRoot(m: MathLib) {
    forall x :: x > 0.0 ==> m.sqrt(x) > 0.0
  }

  /** The point at `angle` on a circle of the given radius around the origin. */
  function Offset(m: MathLib, radius: real, angle: real): Vec {
    Vec(radius * m.cos(angle), radius * m.sin(angle))
  }

  /** An offset lies on the circle of its radius. */
  lemma OffsetOnCircle(m: MathLib, radius: real, angle: real)
    requires UnitCircle(m)
    ensures NormSq(Offset(m, radius, angle)) == radius * radius
  {
    var c, s := m.cos(angle), m.sin(angle);
    assert c * c + s * s == 1.0;
    calc {
      NormSq(Offset(m, radius, angle));
      (radius * c) * (radius * c) + (radius * s) * (radius * s);
      { assert (radius * c) * (radius * c) == radius * radius * (c * c);
        assert (radius * s) * (radius * s) == radius * radius * (s * s); }
      radius * radius * (c * c + s * s);
      radius * radius;
    }
  }
}
