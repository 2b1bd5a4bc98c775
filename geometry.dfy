/** Landmark frames and the joint-angle helpers every pose and scoring file
    uses (`angle` in poseDetection.js and its copies in the pose-detection
    and scoring files).

    A frame is the detector's list of 33 body landmarks; an entry is `None`
    where JavaScript would see `undefined`. Floating-point `Math.sqrt` and
    `Math.acos` are not modelled numerically: `Sqrt` and `AcosDegrees` are
    stand-ins that keep only the facts the evaluators rely on (a magnitude is
    never negative and the zero-length test is taken on it, as the source
    does; an angle lies in [0, 180] degrees). */
module Geometry {
  import opened Common

  datatype Landmark = Landmark(x: real, y: real, z: real, visibility: Option<real>)

  type Frame = seq<Option<Landmark>>

  /** `lm[i]`, which is `undefined` past the end of the list. */
  function Get(lm: Frame, i: nat): (r: Option<Landmark>)
    ensures i >= |lm| ==> r.None?
  {
    if i < |lm| then lm[i] else None
  }

  /** `p.visibility ?? dflt` */
  function VisOr(p: Landmark, dflt: real): real
  {
    match p.visibility
    case Some(v) => v
    case None => dflt
  }

  /** The detector delivers all 33 landmarks of a pose; the evaluators that read
      `lm[i].x` without a check rely on that. */
  predicate Complete(lm: Frame)
  {
    |lm| == 33 && forall i :: 0 <= i < 33 ==> lm[i].Some?
  }

  function At(lm: Frame, i: nat): Landmark
    requires Complete(lm) && i < 33
  {
    lm[i].value
  }

  /** A plain 2-D point, as the `{ x, y }` midpoints built by the scoring files. */
  datatype Vec = Vec(x: real, y: real)

  function ToVec(p: Landmark): Vec
  {
    Vec(p.x, p.y)
  }

  function Midpoint(a: Landmark, b: Landmark): Vec
  {
    Vec((a.x + b.x) / 2.0, (a.y + b.y) / 2.0)
  }

  /** Stand-in for `Math.sqrt`: non-negative, and positive exactly for a
      positive argument. The value is not the square root; no property of the
      model depends on it. */
  function Sqrt(x: real): (r: real)
    ensures r >= 0.0
    ensures r > 0.0 <==> x > 0.0
  {
    if x <= 0.0 then 0.0 else (x + 1.0) / 2.0
  }

  /** `Math.sqrt(x * x + y * y)`, the length of a ray. */
  function Mag(x: real, y: real): (r: real)
    ensures r >= 0.0
  {
    Sqrt(x * x + y * y)
  }

  lemma MulPos(a: real, b: real)
    requires a > 0.0 && b > 0.0
    ensures a * b > 0.0
  {
  }

  /** Stand-in for `Math.acos(c) * 180 / Math.PI`: defined only on [-1, 1]
      (hence the clamp before every call), exact at -1, 0 and 1, and within
      [0, 180] everywhere. */
  function AcosDegrees(c: real): (r: real)
    requires -1.0 <= c <= 1.0
    ensures 0.0 <= r <= 180.0
    ensures c == 1.0 ==> r == 0.0
    ensures c == -1.0 ==> r == 180.0
  {
    90.0 * (1.0 - c)
  }

  /** One of the two rays of the angle at `b` has zero length. */
  predicate Degenerate(a: Vec, b: Vec, c: Vec)
  {
    Mag(a.x - b.x, a.y - b.y) == 0.0 || Mag(c.x - b.x, c.y - b.y) == 0.0
  }

  /** The angle at vertex `b` between rays b->a and b->c, in degrees: the
      normalised dot product, clamped to [-1, 1], through `acos`. */
  function AngleAt(a: Vec, b: Vec, c: Vec): (r: real)
    requires !Degenerate(a, b, c)
    ensures 0.0 <= r <= 180.0
  {
    var v1x, v1y := a.x - b.x, a.y - b.y;
    var v2x, v2y := c.x - b.x, c.y - b.y;
    var m1 := Mag(v1x, v1y);
    var m2 := Mag(v2x, v2y);
    MulPos(m1, m2);
    var cos := (v1x * v2x + v1y * v2y) / (m1 * m2);
    AcosDegrees(Clamp(cos, -1.0, 1.0))
  }

  const VIS_THR: real := 0.30

  /** All three landmarks are present with visibility (default 1) at least 0.30. */
  predicate Gated(a: Option<Landmark>, b: Option<Landmark>, c: Option<Landmark>)
  {
    a.Some? && b.Some? && c.Some? &&
    VisOr(a.value, 1.0) >= VIS_THR && VisOr(b.value, 1.0) >= VIS_THR && VisOr(c.value, 1.0) >= VIS_THR
  }

  /** `angle(A, B, C)` of poseDetection.js and of the squat and forward-bend
      pose-detection files: 0 when a point is missing or barely visible,
      999 when a limb segment has zero length, otherwise a proper angle. */
  function Angle(a: Option<Landmark>, b: Option<Landmark>, c: Option<Landmark>): (r: real)
    ensures !Gated(a, b, c) ==> r == 0.0
    ensures Gated(a, b, c) ==>
      (r == 999.0 <==> Degenerate(ToVec(a.value), ToVec(b.value), ToVec(c.value)))
    ensures Gated(a, b, c) && !Degenerate(ToVec(a.value), ToVec(b.value), ToVec(c.value)) ==>
      0.0 <= r <= 180.0
  {
    if a.None? || b.None? || c.None? then 0.0
    else if VisOr(a.value, 1.0) < VIS_THR || VisOr(b.value, 1.0) < VIS_THR || VisOr(c.value, 1.0) < VIS_THR then 0.0
    else RawAngle(ToVec(a.value), ToVec(b.value), ToVec(c.value))
  }

  /** The shared tail of every `angle` copy: 999 for a zero-length segment. */
  function RawAngle(a: Vec, b: Vec, c: Vec): (r: real)
    ensures r == 999.0 <==> Degenerate(a, b, c)
    ensures !Degenerate(a, b, c) ==> 0.0 <= r <= 180.0
  {
    var v1x, v1y := a.x - b.x, a.y - b.y;
    var v2x, v2y := c.x - b.x, c.y - b.y;
    if Mag(v1x, v1y) == 0.0 || Mag(v2x, v2y) == 0.0 then 999.0
    else AngleAt(a, b, c)
  }

  /** `angle` of the t-pose, high-knee and plank scoring files: no visibility
      gate, 0 only for a missing point, 999 for a zero-length segment. */
  function UngatedAngle(a: Option<Vec>, b: Option<Vec>, c: Option<Vec>): (r: real)
    ensures a.None? || b.None? || c.None? ==> r == 0.0
    ensures a.Some? && b.Some? && c.Some? ==> (r == 999.0 <==> Degenerate(a.value, b.value, c.value))
    ensures a.Some? && b.Some? && c.Some? && !Degenerate(a.value, b.value, c.value) ==> 0.0 <= r <= 180.0
  {
    if a.None? || b.None? || c.None? then 0.0 else RawAngle(a.value, b.value, c.value)
  }

  /** `angleBetweenPoints` of the forward-bend scoring file: 0 (not 999) for a
      zero-length segment. */
  function BendAngle(a: Vec, b: Vec, c: Vec): (r: real)
    ensures 0.0 <= r <= 180.0
    ensures Degenerate(a, b, c) ==> r == 0.0
  {
    var v1x, v1y := a.x - b.x, a.y - b.y;
    var v2x, v2y := c.x - b.x, c.y - b.y;
    if Mag(v1x, v1y) == 0.0 || Mag(v2x, v2y) == 0.0 then 0.0
    else AngleAt(a, b, c)
  }

  /** A landmark of a complete frame as an (always present) point. */
  function PV(lm: Frame, i: nat): Option<Vec>
    requires Complete(lm) && i < 33
  {
    Some(ToVec(At(lm, i)))
  }
}
