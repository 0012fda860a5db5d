/**
 Unity's Vector3 as an exact value type.

 Components are reals, so the datatype's own `==` is the exact, component-wise
 equality that `Vector3.Equals` gives a `Dictionary<Vector3, Vector3>` key.
 Unity's `==` and `!=` operators are a different, approximate comparison; it is
 modelled separately as `OperatorEquals`.
 */
module Vectors {

  datatype Vector3 = Vector3(x: real, y: real, z: real)

  /** `Vector3.zero`, also the value `default(Vector3)` of an unassigned field. */
  const Zero: Vector3 := Vector3(0.0, 0.0, 0.0)

  /** `Vector3.one`. */
  const One: Vector3 := Vector3(1.0, 1.0, 1.0)

  /** `Vector3.kEpsilon`, the tolerance of the `==` operator. */
  const Epsilon: real := 0.00001

  function Plus(a: Vector3, b: Vector3): Vector3
  {
    Vector3(a.x + b.x, a.y + b.y, a.z + b.z)
  }

  function Minus(a: Vector3, b: Vector3): Vector3
  {
    Vector3(a.x - b.x, a.y - b.y, a.z - b.z)
  }

  /** Product of the three components: the volume of a box with these sides. */
  function Product(v: Vector3): real
  {
    v.x * v.y * v.z
  }

  function SqrMagnitude(v: Vector3): real
  {
    v.x * v.x + v.y * v.y + v.z * v.z
  }

  /** Unity's `lhs == rhs`: the squared distance is below `kEpsilon * kEpsilon`. */
  predicate OperatorEquals(a: Vector3, b: Vector3)
  {
    SqrMagnitude(Minus(a, b)) < Epsilon * Epsilon
  }

  /** The `==` operator is implied by exact equality. */
  lemma OperatorEqualsIsReflexive(a: Vector3)
    ensures OperatorEquals(a, a)
  {
    assert Minus(a, a) == Zero;
  }

  /** Unity's vector `==` does not depend on the order of its operands. */
  lemma OperatorEqualsIsSymmetric(a: Vector3, b: Vector3)
    ensures OperatorEquals(a, b) <==> OperatorEquals(b, a)
  {
    var d, e := Minus(a, b), Minus(b, a);
    assert e == Vector3(-d.x, -d.y, -d.z);
    assert SqrMagnitude(e) == SqrMagnitude(d);
  }

  /** The `==` operator is strictly coarser than exact equality. */
  lemma OperatorEqualsIsCoarser(a: Vector3)
    ensures OperatorEquals(a, Plus(a, Vector3(Epsilon / 2.0, 0.0, 0.0)))
    ensures a != Plus(a, Vector3(Epsilon / 2.0, 0.0, 0.0))
  {
    var b := Plus(a, Vector3(Epsilon / 2.0, 0.0, 0.0));
    assert Minus(a, b) == Vector3(-Epsilon / 2.0, 0.0, 0.0);
    assert b.x != a.x;
  }
}
