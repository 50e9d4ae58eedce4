/**
 * The rotation quaternion of AssetStudio/Math/Quaternion.cs over reals: the value type `Quat`
 * with the pure members, and the class `Quaternion` for a variable whose components the indexer
 * and the XYZ property overwrite in place.
 */
module Quaternions {
  import opened Wrappers
  import opened Geometry

  datatype Quat = Quat(x: real, y: real, z: real, w: real)

  /** An ArgumentOutOfRangeException: the name of the offending parameter and the message. */
  datatype IndexError = ArgumentOutOfRange(paramName: string, message: string)

  /** The exception both halves of the indexer throw for an index outside 0..3. */
  const InvalidIndex: IndexError := ArgumentOutOfRange("index", "Invalid Quaternion index!")

  /** The tolerance `kEpsilon` of the dot-product equality. */
  const Epsilon: real := 0.000001

  /** `identity`: no rotation. */
  const Identity: Quat := Quat(0.0, 0.0, 0.0, 1.0)

  /** The indexer's getter: 0..3 select X, Y, Z, W; any other index throws. */
  function Component(q: Quat, index: int): (r: Result<real, IndexError>)
    ensures r.Err? <==> index < 0 || 3 < index
    ensures r.Err? ==> r.error == InvalidIndex
  {
    match index
    case 0 => Ok(q.x)
    case 1 => Ok(q.y)
    case 2 => Ok(q.z)
    case 3 => Ok(q.w)
    case _ => Err(InvalidIndex)
  }

  /** The indexer's setter as a value: the quaternion after `q[index] = v`, or the exception. */
  function WithComponent(q: Quat, index: int, v: real): (r: Result<Quat, IndexError>)
  {
    match index
    case 0 => Ok(q.(x := v))
    case 1 => Ok(q.(y := v))
    case 2 => Ok(q.(z := v))
    case 3 => Ok(q.(w := v))
    case _ => Err(InvalidIndex)
  }

  /** A set at `i` followed by a get at `i` returns the stored value; every other component keeps its value. */
  lemma SetThenGet(q: Quat, i: int, v: real, j: int)
    ensures WithComponent(q, i, v).Ok? <==> Component(q, i).Ok?
    ensures WithComponent(q, i, v).Ok? ==> Component(WithComponent(q, i, v).value, i) == Ok(v)
    ensures WithComponent(q, i, v).Ok? && j != i ==>
              Component(WithComponent(q, i, v).value, j) == Component(q, j)
  {
  }

  /** The XYZ getter. */
  function Xyz(q: Quat): Vector3 {
    Vector3(q.x, q.y, q.z)
  }

  /** The XYZ setter as a value. */
  function WithXyz(q: Quat, v: Vector3): Quat {
    Quat(v.x, v.y, v.z, q.w)
  }

  /** The (Vector3, w) constructor. */
  function FromXyzW(v: Vector3, w: real): Quat {
    Quat(v.x, v.y, v.z, w)
  }

  /** Setting XYZ then reading it gives the vector back and keeps W; the (Vector3, w) constructor sets all four. */
  lemma XyzRoundTrip(q: Quat, v: Vector3, w: real)
    ensures Xyz(WithXyz(q, v)) == v && WithXyz(q, v).w == q.w
    ensures Xyz(FromXyzW(v, w)) == v && FromXyzW(v, w).w == w
    ensures WithXyz(q, Xyz(q)) == q
  {
  }

  function Dot(a: Quat, b: Quat): real {
    a.x * b.x + a.y * b.y + a.z * b.z + a.w * b.w
  }

  lemma DotSymmetric(a: Quat, b: Quat)
    ensures Dot(a, b) == Dot(b, a)
  {
  }

  /** `Equals(Quaternion)`: exact component-wise equality. */
  predicate ExactlyEquals(a: Quat, b: Quat) {
    a.x == b.x && a.y == b.y && a.z == b.z && a.w == b.w
  }

  /**
   * `Equals(object)`: `None` stands for an argument that is not a boxed Quaternion (null or
   * another type), which is never equal.
   */
  predicate EqualsObject(a: Quat, other: Option<Quat>) {
    other.Some? && ExactlyEquals(a, other.value)
  }

  /** `==`: the dot product exceeds 1 - kEpsilon. */
  predicate DotEquals(a: Quat, b: Quat) {
    Dot(a, b) > 1.0 - Epsilon
  }

  /** `!=`: the negation of `==`. */
  predicate DotNotEquals(a: Quat, b: Quat) {
    !DotEquals(a, b)
  }

  function Negated(q: Quat): Quat {
    Quat(-q.x, -q.y, -q.z, -q.w)
  }

  /** Exact equality is datatype equality, hence reflexive and symmetric; a boxed copy is equal only when present. */
  lemma ExactlyEqualsIsEquality(a: Quat, b: Quat)
    ensures ExactlyEquals(a, b) <==> a == b
    ensures ExactlyEquals(a, a)
    ensures EqualsObject(a, Some(b)) <==> a == b
    ensures !EqualsObject(a, None)
  {
  }

  /** `==` is symmetric, and `!=` is exactly its negation. */
  lemma DotEqualsSymmetric(a: Quat, b: Quat)
    ensures DotEquals(a, b) <==> DotEquals(b, a)
    ensures DotNotEquals(a, b) <==> !DotEquals(a, b)
  {
    DotSymmetric(a, b);
  }

  /** `q == q` holds exactly when the squared norm exceeds 1 - kEpsilon: it is not reflexive. */
  lemma DotEqualsSelf(q: Quat)
    ensures DotEquals(q, q) <==> q.x * q.x + q.y * q.y + q.z * q.z + q.w * q.w > 1.0 - Epsilon
    ensures !DotEquals(Quat(0.0, 0.0, 0.0, 0.0), Quat(0.0, 0.0, 0.0, 0.0))
    ensures !DotEquals(Quat(0.5, 0.0, 0.0, 0.5), Quat(0.5, 0.0, 0.0, 0.5))
  {
  }

  /**
   * A quaternion and its negation: the dot product is minus the squared norm, so never positive,
   * and `==` says they differ. For a unit quaternion the two are the same rotation.
   */
  lemma NegatedNotDotEqual(q: Quat)
    ensures Dot(q, Negated(q)) == -Dot(q, q)
    ensures Dot(q, Negated(q)) <= 0.0
    ensures DotNotEquals(q, Negated(q))
  {
    assert Dot(q, Negated(q)) == -(q.x * q.x + q.y * q.y + q.z * q.z + q.w * q.w);
    assert q.x * q.x >= 0.0 && q.y * q.y >= 0.0 && q.z * q.z >= 0.0 && q.w * q.w >= 0.0;
  }

  /** `identity == identity` holds and `identity` has components (0, 0, 0, 1). */
  lemma IdentityDotEqualsItself()
    ensures Component(Identity, 3) == Ok(1.0) && Xyz(Identity) == Vector3(0.0, 0.0, 0.0)
    ensures DotEquals(Identity, Identity)
  {
  }

  /** A quaternion variable whose components are overwritten in place. */
  class Quaternion {
    var X: real
    var Y: real
    var Z: real
    var W: real

    function Value(): Quat
      reads this
    {
      Quat(X, Y, Z, W)
    }

    constructor (x: real, y: real, z: real, w: real)
      ensures Value() == Quat(x, y, z, w)
    {
      X, Y, Z, W := x, y, z, w;
    }

    constructor FromVector(v: Vector3, w: real)
      ensures Value() == FromXyzW(v, w)
    {
      X, Y, Z, W := v.x, v.y, v.z, w;
    }

    /** The indexer's getter on the current components. */
    function Get(index: int): (r: Result<real, IndexError>)
      reads this
      ensures r.Ok? <==> 0 <= index <= 3
      ensures index == 0 ==> r == Ok(X)
      ensures index == 1 ==> r == Ok(Y)
      ensures index == 2 ==> r == Ok(Z)
      ensures index == 3 ==> r == Ok(W)
      ensures r.Err? ==> r.error == InvalidIndex
    {
      Component(Value(), index)
    }

    /** The indexer's setter: overwrite one component, or throw and leave all four unchanged. */
    method Set(index: int, value: real) returns (r: Outcome<IndexError>)
      modifies this
      ensures r.Pass? <==> 0 <= index <= 3
      ensures r.Pass? ==> Value() == WithComponent(old(Value()), index, value).value
      ensures r.Fail? ==> r.error == InvalidIndex && Value() == old(Value())
    {
      match index
      case 0 => X := value; r := Pass;
      case 1 => Y := value; r := Pass;
      case 2 => Z := value; r := Pass;
      case 3 => W := value; r := Pass;
      case _ => r := Fail(InvalidIndex);
    }

    /** The XYZ setter: overwrite X, Y and Z, keep W. */
    method SetXyz(v: Vector3)
      modifies this
      ensures Value() == WithXyz(old(Value()), v)
    {
      X := v.x;
      Y := v.y;
      Z := v.z;
    }
  }
}
