/**
 * The parts of src/core/math.rs that carry logic: the generic `clamp` and the
 * conversions between the vector types and their array, tuple and foreign
 * forms. `f32` components are modelled as reals; the conversions only copy
 * their components, so no rounding is involved.
 */
module Math {
  import Ffi

  /**
   * `clamp(value, min, max)` at integer type: `value < min` wins over
   * `value > max`, and a value equal to a bound is returned as it is.
   */
  function Clamp(value: int, min: int, max: int): (r: int)
    ensures value < min ==> r == min
    ensures min <= value && max < value ==> r == max
    ensures min <= value <= max ==> r == value
    ensures min <= max ==> min <= r <= max
  {
    if value < min then min else if value > max then max else value
  }

  /**
   * The same generic `clamp`, at the floating-point type that `Color::fade`
   * uses it with. Dafny has no ordering trait to abstract over, so the
   * instance at `real` repeats the one at `int`.
   */
  function ClampReal(value: real, min: real, max: real): (r: real)
    ensures value < min ==> r == min
    ensures min <= value && max < value ==> r == max
    ensures min <= value <= max ==> r == value
    ensures min <= max ==> min <= r <= max
  {
    if value < min then min else if value > max then max else value
  }

  /** Clamping an already clamped value changes nothing. */
  lemma ClampIdempotent(value: int, min: int, max: int)
    requires min <= max
    ensures Clamp(Clamp(value, min, max), min, max) == Clamp(value, min, max)
  {
  }

  /** When the bounds are crossed (`min > max`) a value below `min` still gives `min`, and one above it gives `max`. */
  lemma ClampCrossedBounds(value: int, min: int, max: int)
    requires max < min
    ensures Clamp(value, min, max) == if value < min then min else max
  {
  }

  lemma ClampTestCases()
    ensures Clamp(200, 100, 300) == 200
    ensures Clamp(400, 100, 300) == 300
    ensures Clamp(0, 100, 300) == 100
  {
  }

  datatype Vector2 = Vector2(x: real, y: real)

  datatype Vector3 = Vector3(x: real, y: real, z: real)

  type Array2 = s: seq<real> | |s| == 2 witness [0.0, 0.0]

  type Array3 = s: seq<real> | |s| == 3 witness [0.0, 0.0, 0.0]

  /** `Into<[f32; 2]> for Vector2`. */
  function Vector2ToArray(v: Vector2): (a: Array2)
    ensures a[0] == v.x && a[1] == v.y
  {
    [v.x, v.y]
  }

  /** `From<[f32; 2]> for Vector2`: converting back gives the same array. */
  function Vector2FromArray(a: Array2): (v: Vector2)
    ensures Vector2ToArray(v) == a
  {
    Vector2(a[0], a[1])
  }

  /** `Into<(f32, f32)> for Vector2`. */
  function Vector2ToTuple(v: Vector2): (t: (real, real))
    ensures t.0 == v.x && t.1 == v.y
  {
    (v.x, v.y)
  }

  /** `From<(f32, f32)> for Vector2`: converting back gives the same tuple. */
  function Vector2FromTuple(t: (real, real)): (v: Vector2)
    ensures Vector2ToTuple(v) == t
  {
    Vector2(t.0, t.1)
  }

  /** `Into<ffi::Vector2> for Vector2` (a transmute: x to x, y to y). */
  function Vector2ToFfi(v: Vector2): (f: Ffi.Vector2)
    ensures f.x == v.x && f.y == v.y
  {
    Ffi.Vector2(v.x, v.y)
  }

  /** `From<ffi::Vector2> for Vector2`: converting back gives the same record. */
  function Vector2FromFfi(f: Ffi.Vector2): (v: Vector2)
    ensures Vector2ToFfi(v) == f
  {
    Vector2(f.x, f.y)
  }

  /** Every vector survives a trip through each of its three other forms. */
  lemma Vector2RoundTrips(v: Vector2)
    ensures Vector2FromArray(Vector2ToArray(v)) == v
    ensures Vector2FromTuple(Vector2ToTuple(v)) == v
    ensures Vector2FromFfi(Vector2ToFfi(v)) == v
  {
  }

  /** `Into<[f32; 3]> for Vector3`. */
  function Vector3ToArray(v: Vector3): (a: Array3)
    ensures a[0] == v.x && a[1] == v.y && a[2] == v.z
  {
    [v.x, v.y, v.z]
  }

  /** `From<[f32; 3]> for Vector3`: converting back gives the same array. */
  function Vector3FromArray(a: Array3): (v: Vector3)
    ensures Vector3ToArray(v) == a
  {
    Vector3(a[0], a[1], a[2])
  }

  /** `Into<(f32, f32, f32)> for Vector3`. */
  function Vector3ToTuple(v: Vector3): (t: (real, real, real))
    ensures t.0 == v.x && t.1 == v.y && t.2 == v.z
  {
    (v.x, v.y, v.z)
  }

  /** `From<(f32, f32, f32)> for Vector3`: converting back gives the same tuple. */
  function Vector3FromTuple(t: (real, real, real)): (v: Vector3)
    ensures Vector3ToTuple(v) == t
  {
    Vector3(t.0, t.1, t.2)
  }

  /** Every vector survives a trip through its array and its tuple form. */
  lemma Vector3RoundTrips(v: Vector3)
    ensures Vector3FromArray(Vector3ToArray(v)) == v
    ensures Vector3FromTuple(Vector3ToTuple(v)) == v
  {
  }
}
