/** Pointer input: the move handler's clamp to the canvas, and the hit
    test that snaps a pointer angle to the nearest ring point. */
module Interaction {
  import opened Numeric
  import opened Transcendental
  import Geometry

  /** The canvas's client rectangle. */
  datatype Rect = Rect(left: real, top: real, right: real, bottom: real)

  /** A pointer position relative to the canvas, and whether it is inside. */
  datatype PointerSample = PointerSample(x: real, y: real, active: bool)

  predicate Proper(rect: Rect)
  {
    rect.left <= rect.right && rect.top <= rect.bottom
  }

  /** `handlePointerMove`: the position is clamped into the canvas, and the
      pointer is active exactly when it lies inside it, which is exactly
      when the clamp leaves its position alone. */
  function ClampPointer(clientX: real, clientY: real, rect: Rect): (p: PointerSample)
    ensures Proper(rect) ==> 0.0 <= p.x <= rect.right - rect.left && 0.0 <= p.y <= rect.bottom - rect.top
    ensures Proper(rect) ==> (p.active <==> p.x == clientX - rect.left && p.y == clientY - rect.top)
  {
    var inside := clientX >= rect.left && clientX <= rect.right && clientY >= rect.top && clientY <= rect.bottom;
    var px := Min(rect.right, Max(rect.left, clientX)) - rect.left;
    var py := Min(rect.bottom, Max(rect.top, clientY)) - rect.top;
    PointerSample(px, py, inside)
  }

  /** `atan2`'s angle moved into [0, 2 pi). */
  function AdjustAngle(ang: real): (a: real)
    ensures -Pi <= ang <= Pi ==> 0.0 <= a < 2.0 * Pi
    ensures 0.0 <= ang ==> a == ang
  {
    if ang < 0.0 then ang + Pi * 2.0 else ang
  }

  /** `Math.round((ang / 2pi) * 96) % 96`: the ring point nearest to the angle. */
  function HitIndex(ang: real): (idx: int)
    ensures 0.0 <= ang ==> 0 <= idx < Geometry.NumPoints
  {
    IntRem(Round((ang / (Pi * 2.0)) * Geometry.NumPoints as real), Geometry.NumPoints)
  }

  /** Point `j` is a ring point nearest to the angle: the angle is within
      half a point spacing of it, or `j` is point 0 and the angle is within
      half a spacing of a full turn. */
  predicate Nearest(ang: real, j: int)
  {
    var step := 2.0 * Pi / Geometry.NumPoints as real;
    && 0 <= j < Geometry.NumPoints
    && (Abs(ang - Geometry.PointAngle(j)) <= step / 2.0 || (j == 0 && Abs(ang - 2.0 * Pi) <= step / 2.0))
  }

  /** For an angle in [0, 2 pi) the index is a nearest point; the last
      half-spacing before a full turn snaps to point 0. */
  lemma HitIndexNearest(ang: real)
    requires 0.0 <= ang < 2.0 * Pi
    ensures Nearest(ang, HitIndex(ang))
  {
    var u := (ang / (Pi * 2.0)) * Geometry.NumPoints as real;
    assert 0.0 <= u < Geometry.NumPoints as real;
    var q := Round(u);
    assert 0 <= q <= Geometry.NumPoints;
    var step := 2.0 * Pi / Geometry.NumPoints as real;
    assert ang == u * step;
    if q < Geometry.NumPoints {
      assert HitIndex(ang) == q;
      assert Geometry.PointAngle(q) == q as real * step;
    } else {
      assert HitIndex(ang) == 0;
    }
  }

  /** The pointer-down hit test: the pointer is on the orb exactly when it is
      no farther from the centre than a ring point nearest to its angle. */
  function OnOrb(m: Maths, dx: real, dy: real, radii: seq<real>): (hit: bool)
    requires Lawful(m) && |radii| == Geometry.NumPoints
    ensures exists j :: Nearest(AdjustAngle(m.atan2(dy, dx)), j) && (hit <==> m.hypot(dx, dy) <= radii[j])
  {
    var ang := AdjustAngle(m.atan2(dy, dx));
    HitIndexNearest(ang);
    var idx := HitIndex(ang);
    m.hypot(dx, dy) <= radii[idx]
  }
}
