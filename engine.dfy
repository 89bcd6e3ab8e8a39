/** Stand-ins for the few engine types and services the game scripts use:
    Unity's Vector2/Vector3 over `real`, and the range contract of
    `Random.Range` / `Random.value`, whose draws the model takes as inputs. */
module Engine {

  datatype Vec2 = Vec2(x: real, y: real)

  datatype Vec3 = Vec3(x: real, y: real, z: real)

  function Add(a: Vec3, b: Vec3): Vec3
  {
    Vec3(a.x + b.x, a.y + b.y, a.z + b.z)
  }

  function Scale(v: Vec3, k: real): Vec3
  {
    Vec3(v.x * k, v.y * k, v.z * k)
  }

  function Abs(r: real): real
  {
    if r < 0.0 then -r else r
  }

  function Max(a: real, b: real): real
  {
    if a < b then b else a
  }

  function Min(a: real, b: real): real
  {
    if a < b then a else b
  }

  /** `Random.Range(lo, hi)` on floats: a value between the two bounds,
      both inclusive; with the bounds swapped it still yields a value
      between them. */
  predicate InRange(v: real, lo: real, hi: real)
  {
    if lo <= hi then lo <= v <= hi else hi <= v <= lo
  }

  /** `Random.value`: a value in [0, 1], both inclusive. */
  predicate IsUnitDraw(v: real)
  {
    0.0 <= v <= 1.0
  }

  /** `c` lies between `a` and `a + d` (whichever way `d` points). */
  predicate Between(c: real, a: real, d: real)
  {
    InRange(c, a, a + d)
  }
}
