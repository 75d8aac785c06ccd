/**
 * The small numeric helpers shared by the engine: the two versions of
 * `vec2ang`, the inclusive box test `intersects`, `vector`, and the index
 * arithmetic of `random_range` / `get_random`.  `Math.random()` is a
 * parameter `sample` in [0, 1).
 */
module Geometry {
  import opened Wrappers

  datatype Vec2 = Vec2(x: real, y: real)

  /** An axis-aligned box `[left, top, right, bottom]`, y growing downward. */
  datatype Box = Box(left: real, top: real, right: real, bottom: real)

  /** The result of `vector(array)`: a component is undefined when the array is too short. */
  datatype Vec3 = Vec3(x: Option<real>, y: Option<real>, z: Option<real>)

  /** Clockwise angle codes: 0 = up, 1 = right, 2 = down, 3 = left. */
  predicate IsAngle(a: int) {
    0 <= a < 4
  }

  function Abs(r: real): real {
    if r < 0.0 then -r else r
  }

  /** The component of `v` along the unit direction named by angle `a`. */
  function Heading(v: Vec2, a: int): real
    requires IsAngle(a)
  {
    if a == 0 then -v.y else if a == 1 then v.x else if a == 2 then v.y else -v.x
  }

  /** `a` points at least as much along `v` as any other direction does. */
  predicate BestAligned(v: Vec2, a: int)
    requires IsAngle(a)
  {
    forall b :: 0 <= b < 4 ==> Heading(v, b) <= Heading(v, a)
  }

  /** `a` points strictly more along `v` than every other direction. */
  predicate StrictlyBestAligned(v: Vec2, a: int)
    requires IsAngle(a)
  {
    forall b :: 0 <= b < 4 && b != a ==> Heading(v, b) < Heading(v, a)
  }

  // ---------------------------------------------------------------------------
  // vec2ang, js/engine/init.js: dominant axis, horizontal wins a tie
  // ---------------------------------------------------------------------------

  function AngleOfDominant(v: Vec2): (r: Option<int>)
    ensures r.None? <==> v.x == 0.0 && v.y == 0.0
    ensures r.Some? ==> IsAngle(r.value) && BestAligned(v, r.value) && Heading(v, r.value) > 0.0
    ensures r.Some? && Abs(v.x) == Abs(v.y) ==> r.value == 1 || r.value == 3
  {
    if Abs(v.x) > Abs(v.y) then Some(if v.x > 0.0 then 1 else 3)
    else if Abs(v.y) > Abs(v.x) then Some(if v.y > 0.0 then 2 else 0)
    else if v.x != 0.0 then Some(if v.x > 0.0 then 1 else 3)
    else if v.y != 0.0 then Some(if v.y > 0.0 then 2 else 0)
    else None
  }

  /** A vector lying on one axis gets the angle of that axis' sign. */
  lemma DominantOnAxis(v: Vec2)
    ensures v.y == 0.0 && v.x > 0.0 ==> AngleOfDominant(v) == Some(1)
    ensures v.y == 0.0 && v.x < 0.0 ==> AngleOfDominant(v) == Some(3)
    ensures v.x == 0.0 && v.y > 0.0 ==> AngleOfDominant(v) == Some(2)
    ensures v.x == 0.0 && v.y < 0.0 ==> AngleOfDominant(v) == Some(0)
  {
  }

  // ---------------------------------------------------------------------------
  // vec2ang, js/engine/common.js: strict dominance, any diagonal tie undefined
  // ---------------------------------------------------------------------------

  function AngleOfStrict(v: Vec2): (r: Option<int>)
    ensures r.Some? ==> IsAngle(r.value) && StrictlyBestAligned(v, r.value)
    ensures r.None? <==> Abs(v.x) == Abs(v.y)
  {
    if -v.y > Abs(v.x) then Some(0)
    else if v.x > Abs(v.y) then Some(1)
    else if v.y > Abs(v.x) then Some(2)
    else if -v.x > Abs(v.y) then Some(3)
    else None
  }

  /** Each of the four guards of common.js holds exactly when its angle is the answer. */
  lemma StrictGuards(v: Vec2)
    ensures AngleOfStrict(v) == Some(0) <==> -v.y > Abs(v.x)
    ensures AngleOfStrict(v) == Some(1) <==> v.x > Abs(v.y)
    ensures AngleOfStrict(v) == Some(2) <==> v.y > Abs(v.x)
    ensures AngleOfStrict(v) == Some(3) <==> -v.x > Abs(v.y)
  {
  }

  /** A strictly best-aligned direction is unique, and common.js finds it whenever it exists. */
  lemma StrictIsUniqueBest(v: Vec2, a: int)
    requires IsAngle(a)
    ensures StrictlyBestAligned(v, a) <==> AngleOfStrict(v) == Some(a)
  {
    if StrictlyBestAligned(v, a) {
      assert Heading(v, (a + 1) % 4) < Heading(v, a);
      assert Heading(v, (a + 2) % 4) < Heading(v, a);
      assert Heading(v, (a + 3) % 4) < Heading(v, a);
    }
  }

  /**
   * The two versions agree whenever common.js gives an answer; they differ
   * exactly on non-zero diagonal ties, where init.js still answers.
   */
  lemma AngleVersionsAgree(v: Vec2)
    ensures AngleOfStrict(v).Some? ==> AngleOfDominant(v) == AngleOfStrict(v)
    ensures AngleOfStrict(v).None? && AngleOfDominant(v).Some? <==> Abs(v.x) == Abs(v.y) && v.x != 0.0
  {
  }

  // ---------------------------------------------------------------------------
  // intersects (identical in init.js and common.js)
  // ---------------------------------------------------------------------------

  predicate Intersects(a: Box, b: Box) {
    a.right >= b.left && a.bottom >= b.top && a.left <= b.right && a.top <= b.bottom
  }

  predicate WellFormed(b: Box) {
    b.left <= b.right && b.top <= b.bottom
  }

  /** The closed box contains the point. */
  predicate Contains(b: Box, px: real, py: real) {
    b.left <= px <= b.right && b.top <= py <= b.bottom
  }

  function Max(a: real, b: real): real {
    if a < b then b else a
  }

  /** For well-formed boxes the test means: the closed boxes share a point. */
  lemma IntersectsMeansCommonPoint(a: Box, b: Box)
    requires WellFormed(a) && WellFormed(b)
    ensures Intersects(a, b) <==> exists px, py :: Contains(a, px, py) && Contains(b, px, py)
  {
    if Intersects(a, b) {
      var px, py := Max(a.left, b.left), Max(a.top, b.top);
      assert Contains(a, px, py) && Contains(b, px, py);
    }
  }

  /** Symmetric, reflexive on well-formed boxes, and inclusive of shared edges. */
  lemma IntersectsSymmetricReflexive(a: Box, b: Box)
    ensures Intersects(a, b) <==> Intersects(b, a)
    ensures WellFormed(a) ==> Intersects(a, a)
    ensures WellFormed(a) && WellFormed(b) && a.right == b.left && a.top <= b.bottom && b.top <= a.bottom
            ==> Intersects(a, b)
  {
  }

  // ---------------------------------------------------------------------------
  // vector, random_range, get_random
  // ---------------------------------------------------------------------------

  function At(a: seq<real>, i: nat): Option<real> {
    if i < |a| then Some(a[i]) else None
  }

  function Vector(a: seq<real>): (v: Vec3)
    ensures v.x.Some? <==> |a| >= 1
    ensures v.z.None? <==> |a| <= 2
    ensures v.y.Some? <==> |a| >= 2
    ensures |a| >= 1 ==> v.x == Some(a[0])
    ensures |a| >= 2 ==> v.y == Some(a[1])
    ensures |a| >= 3 ==> v.z == Some(a[2])
  {
    Vec3(At(a, 0), At(a, 1), At(a, 2))
  }

  /** `Math.floor(sample * (max - min + 1) + min)`. */
  function RandomRange(min: int, max: int, sample: real): (r: int)
    requires 0.0 <= sample < 1.0
    ensures min <= max ==> min <= r <= max
  {
    var k := (max - min + 1) as real;
    ScaledSampleBounds(sample, k);
    (sample * k + min as real).Floor
  }

  lemma ScaledSampleBounds(sample: real, k: real)
    requires 0.0 <= sample < 1.0
    ensures k >= 0.0 ==> 0.0 <= sample * k <= k
    ensures k > 0.0 ==> sample * k < k
  {
  }

  /** The index `Math.floor(sample * length)` chosen by `get_random`. */
  function RandomIndex(length: nat, sample: real): (i: int)
    requires 0.0 <= sample < 1.0
    ensures length > 0 ==> 0 <= i < length
    ensures length == 0 ==> i == 0
  {
    ScaledSampleBounds(sample, length as real);
    (sample * length as real).Floor
  }

  /** `get_random` on an array: an element, or `undefined` for an empty array. */
  function GetRandom<T>(items: seq<T>, sample: real): (r: Option<T>)
    requires 0.0 <= sample < 1.0
    ensures r.Some? <==> |items| > 0
    ensures r.Some? ==> r.value in items
  {
    var i := RandomIndex(|items|, sample);
    if 0 <= i < |items| then Some(items[i]) else None
  }
}
