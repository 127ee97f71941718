/** Engine-side values the game scripts read and write: optional references,
    vectors, the `Mathf` helpers they call, and the global cursor.
    Floats are modelled as exact reals. */
module Engine {

  /** A reference that may be null. */
  datatype Option<+T> = None | Some(value: T)

  datatype Vec2 = Vec2(x: real, y: real)

  datatype Vec3 = Vec3(x: real, y: real, z: real)

  const Zero3 := Vec3(0.0, 0.0, 0.0)

  function Add(a: Vec3, b: Vec3): Vec3 { Vec3(a.x + b.x, a.y + b.y, a.z + b.z) }

  function Scale(a: Vec3, k: real): Vec3 { Vec3(a.x * k, a.y * k, a.z * k) }

  function SqrMagnitude2(v: Vec2): real { v.x * v.x + v.y * v.y }

  function SqrMagnitude3(v: Vec3): real { v.x * v.x + v.y * v.y + v.z * v.z }

  /** `m` is the Euclidean length of a vector whose squared length is `sqr`
      (the value Unity's `magnitude` returns). */
  predicate IsMagnitude(m: real, sqr: real) { m >= 0.0 && m * m == sqr }

  /** `magnitude > t`, decided without a square root: a length is never
      negative, so it exceeds a negative bound always and a non-negative
      bound exactly when its square exceeds the bound's square. */
  predicate MagnitudeAbove(sqr: real, t: real) { t < 0.0 || sqr > t * t }

  /** `magnitude < t`, decided the same way. */
  predicate MagnitudeBelow(sqr: real, t: real) { t > 0.0 && sqr < t * t }

  lemma MagnitudeComparisons(m: real, sqr: real, t: real)
    requires IsMagnitude(m, sqr)
    ensures MagnitudeAbove(sqr, t) <==> m > t
    ensures MagnitudeBelow(sqr, t) <==> m < t
  {
    if t >= 0.0 {
      if m > t { SquareLess(t, m); }
      else if m < t { SquareLess(m, t); }
    }
  }

  lemma MulPos(a: real, b: real)
    requires a > 0.0 && b > 0.0
    ensures a * b > 0.0
  {}

  lemma MulNonNeg(a: real, b: real)
    requires a >= 0.0 && b >= 0.0
    ensures a * b >= 0.0
  {}

  lemma SquareLess(a: real, b: real)
    requires 0.0 <= a < b
    ensures a * a < b * b
  {
    assert b * b - a * a == (b - a) * (b + a);
    MulPos(b - a, b + a);
  }

  /** Squaring the components of `v / m` divides the squared length by `m * m`. */
  lemma SquareOver(x: real, m: real)
    requires m != 0.0
    ensures (x / m) * (x / m) * (m * m) == x * x
  {
    var q := x / m;
    assert q * m == x;
    assert (q * q) * (m * m) == (q * m) * (q * m);
  }

  lemma UnitScale(a: real, d: real, s: real)
    requires s > 0.0 && a * d == s && d == s
    ensures a == 1.0
  {
    assert (a - 1.0) * d == a * d - d;
    ZeroProduct(a - 1.0, d);
  }

  lemma ZeroProduct(x: real, d: real)
    requires x * d == 0.0 && d != 0.0
    ensures x == 0.0
  {}

  /** `Vector2.Normalize` for a non-zero vector of length `m`: the result has length one. */
  function Normalized2(v: Vec2, m: real): (r: Vec2)
    requires IsMagnitude(m, SqrMagnitude2(v)) && SqrMagnitude2(v) > 0.0
    ensures SqrMagnitude2(r) == 1.0
    ensures r.x * m == v.x && r.y * m == v.y
  {
    var r := Vec2(v.x / m, v.y / m);
    SquareOver(v.x, m);
    SquareOver(v.y, m);
    assert SqrMagnitude2(r) * (m * m) == SqrMagnitude2(v);
    UnitScale(SqrMagnitude2(r), m * m, SqrMagnitude2(v));
    r
  }

  /** `Vector3.Normalize` for a non-zero vector of length `m`: the result has length one. */
  function Normalized3(v: Vec3, m: real): (r: Vec3)
    requires IsMagnitude(m, SqrMagnitude3(v)) && SqrMagnitude3(v) > 0.0
    ensures SqrMagnitude3(r) == 1.0
    ensures r.x * m == v.x && r.y * m == v.y && r.z * m == v.z
  {
    var r := Vec3(v.x / m, v.y / m, v.z / m);
    SquareOver(v.x, m);
    SquareOver(v.y, m);
    SquareOver(v.z, m);
    assert SqrMagnitude3(r) * (m * m) == SqrMagnitude3(v);
    UnitScale(SqrMagnitude3(r), m * m, SqrMagnitude3(v));
    r
  }

  function Abs(x: real): (r: real)
    ensures r >= 0.0 && (r == x || r == -x)
  {
    if x < 0.0 then -x else x
  }

  /** `Mathf.Max` */
  function Max(a: real, b: real): (r: real)
    ensures r >= a && r >= b && (r == a || r == b)
  {
    if a > b then a else b
  }

  function Min(a: real, b: real): (r: real)
    ensures r <= a && r <= b && (r == a || r == b)
  {
    if a < b then a else b
  }

  /** `Mathf.Clamp`: the lower bound is tested first, so with `lo > hi` the
      result is `lo` below it and `hi` otherwise above it. */
  function Clamp(v: real, lo: real, hi: real): (r: real)
    ensures lo <= hi ==> lo <= r <= hi
    ensures lo <= v <= hi ==> r == v
    ensures v < lo ==> r == lo
  {
    if v < lo then lo else if v > hi then hi else v
  }

  /** `Mathf.Clamp01` */
  function Clamp01(t: real): (r: real)
    ensures 0.0 <= r <= 1.0
    ensures 0.0 <= t <= 1.0 ==> r == t
  {
    Clamp(t, 0.0, 1.0)
  }

  /** `Mathf.Lerp`: the parameter is clamped to [0, 1], so the result lies
      between the two end points. */
  function Lerp(a: real, b: real, t: real): (r: real)
    ensures a <= b ==> a <= r <= b
    ensures b <= a ==> b <= r <= a
    ensures t <= 0.0 ==> r == a
    ensures t >= 1.0 ==> r == b
  {
    var c := Clamp01(t);
    var r := a + (b - a) * c;
    LerpBetween(a, b, c, r);
    r
  }

  lemma LerpBetween(a: real, b: real, c: real, r: real)
    requires 0.0 <= c <= 1.0 && r == a + (b - a) * c
    ensures a <= b ==> a <= r <= b
    ensures b <= a ==> b <= r <= a
  {
    assert (b - a) * c + (b - a) * (1.0 - c) == b - a;
    if a <= b {
      MulNonNeg(b - a, c);
      MulNonNeg(b - a, 1.0 - c);
    } else {
      MulNonNeg(a - b, c);
      MulNonNeg(a - b, 1.0 - c);
      assert (b - a) * c == -((a - b) * c);
      assert (b - a) * (1.0 - c) == -((a - b) * (1.0 - c));
    }
  }

  /** `Mathf.MoveTowards`: steps from `current` toward `target` by at most
      `maxDelta`, landing on the target when it is within reach. */
  function MoveTowards(current: real, target: real, maxDelta: real): (r: real)
    ensures Abs(target - current) <= maxDelta ==> r == target
    ensures maxDelta >= 0.0 ==> Abs(r - current) <= maxDelta
    ensures maxDelta >= 0.0 && current <= target ==> current <= r <= target
    ensures maxDelta >= 0.0 && target <= current ==> target <= r <= current
  {
    if Abs(target - current) <= maxDelta then target
    else current + (if target - current >= 0.0 then 1.0 else -1.0) * maxDelta
  }

  /** `CursorLockMode`; `Unlocked` is Unity's `CursorLockMode.None`. */
  datatype CursorLockMode = Unlocked | Locked | Confined

  /** Unity's global `Cursor` state, written by several scripts. */
  class Cursor {
    var lockState: CursorLockMode
    var visible: bool

    /** The engine's default: free and visible. */
    constructor ()
      ensures lockState == Unlocked && visible
    {
      lockState := Unlocked;
      visible := true;
    }

    /** Locks and hides the cursor. */
    method Lock()
      modifies this
      ensures lockState == Locked && !visible
    {
      lockState := Locked;
      visible := false;
    }

    /** Frees and shows the cursor. */
    method Release()
      modifies this
      ensures lockState == Unlocked && visible
    {
      lockState := Unlocked;
      visible := true;
    }
  }
}
