/**
 * The vector and rectangle value types the sprite code works with.  Components are
 * single-precision floats in AssetStudio; here they are mathematical reals.
 */
module Geometry {

  datatype Vector2 = Vector2(x: real, y: real) {
    function Plus(o: Vector2): Vector2 { Vector2(x + o.x, y + o.y) }
    function Minus(o: Vector2): Vector2 { Vector2(x - o.x, y - o.y) }
    /** Component-wise product, the `Vector2 * Vector2` operator. */
    function Times(o: Vector2): Vector2 { Vector2(x * o.x, y * o.y) }
    function Scale(k: real): Vector2 { Vector2(x * k, y * k) }
  }

  datatype Vector3 = Vector3(x: real, y: real, z: real) {
    /** The explicit `(Vector2)` conversion: keeps X and Y, drops Z. */
    function Xy(): Vector2 { Vector2(x, y) }
  }

  datatype Vector4 = Vector4(x: real, y: real, z: real, w: real)

  datatype Rectf = Rectf(x: real, y: real, width: real, height: real)

  const Zero2: Vector2 := Vector2(0.0, 0.0)
  const Zero4: Vector4 := Vector4(0.0, 0.0, 0.0, 0.0)
}
