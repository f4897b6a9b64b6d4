/** The on-screen joystick: a dead-zone test and a four-sector classifier of
    the offset from the joystick's centre, the change-only reporting of the
    drag handlers, and the clamp of the knob offset. */
module Joystick {
  import opened Common

  datatype Direction = Up | Down | Left | Right

  /** Offsets shorter than 20 px report no direction. */
  const DeadZone: real := 20.0

  /* The four sectors of the angle atan2(dy, dx), in degrees, written as
     comparisons of dx and dy (screen y grows downward):
       right: [-45, 45)    down: [45, 135)
       left:  >= 135 or < -135    up: [-135, -45) */
  predicate InRight(dx: real, dy: real) { dx > 0.0 && -dx <= dy < dx }
  predicate InDown(dx: real, dy: real) { dy > 0.0 && -dy < dx <= dy }
  predicate InLeft(dx: real, dy: real) { dx < 0.0 && dx < dy <= -dx }
  predicate InUp(dx: real, dy: real) { dy < 0.0 && dy <= dx < -dy }

  /** calculateDirection: none inside the dead zone, otherwise the sector of
      the offset. */
  function CalculateDirection(centerX: real, centerY: real, touchX: real, touchY: real): (r: Option<Direction>)
    ensures var dx, dy := touchX - centerX, touchY - centerY;
      && (r.None? <==> dx * dx + dy * dy < DeadZone * DeadZone)
      && (r == Some(Right) <==> dx * dx + dy * dy >= DeadZone * DeadZone && InRight(dx, dy))
      && (r == Some(Down) <==> dx * dx + dy * dy >= DeadZone * DeadZone && InDown(dx, dy))
      && (r == Some(Left) <==> dx * dx + dy * dy >= DeadZone * DeadZone && InLeft(dx, dy))
      && (r == Some(Up) <==> dx * dx + dy * dy >= DeadZone * DeadZone && InUp(dx, dy))
  {
    var dx, dy := touchX - centerX, touchY - centerY;
    if dx * dx + dy * dy < DeadZone * DeadZone then None
    else
      SectorsPartition(dx, dy);
      if InRight(dx, dy) then Some(Right)
      else if InDown(dx, dy) then Some(Down)
      else if InLeft(dx, dy) then Some(Left)
      else if InUp(dx, dy) then Some(Up)
      else None
  }

  /** Every non-zero offset lies in exactly one of the four sectors. */
  lemma SectorsPartition(dx: real, dy: real)
    requires dx != 0.0 || dy != 0.0
    ensures InRight(dx, dy) || InDown(dx, dy) || InLeft(dx, dy) || InUp(dx, dy)
    ensures !(InRight(dx, dy) && InDown(dx, dy)) && !(InRight(dx, dy) && InLeft(dx, dy))
    ensures !(InRight(dx, dy) && InUp(dx, dy)) && !(InDown(dx, dy) && InLeft(dx, dy))
    ensures !(InDown(dx, dy) && InUp(dx, dy)) && !(InLeft(dx, dy) && InUp(dx, dy))
  {
  }

  /** Beyond the dead zone some direction is always reported; a pure offset
      along one axis gives that axis' direction. */
  lemma AxisDirections(cx: real, cy: real, d: real)
    requires d >= DeadZone
    ensures CalculateDirection(cx, cy, cx, cy + d) == Some(Down)
    ensures CalculateDirection(cx, cy, cx, cy - d) == Some(Up)
    ensures CalculateDirection(cx, cy, cx + d, cy) == Some(Right)
    ensures CalculateDirection(cx, cy, cx - d, cy) == Some(Left)
  {
    assert d * d >= DeadZone * DeadZone by {
      assert d * d >= d * DeadZone >= DeadZone * DeadZone;
    }
  }

  /** The knob's translation: the offset itself, or, beyond the maximum
      distance, the offset scaled to that distance (0/0 is NaN). */
  datatype Knob = Offset(x: real, y: real) | NotANumber

  function MaxDistance(size: real): real { size / 2.0 - 20.0 }

  /** updateKnobPosition, with the square root of dx*dx + dy*dy given as
      `dist`. */
  function KnobPosition(dx: real, dy: real, dist: real, size: real): (r: Knob)
    requires dist >= 0.0 && dist * dist == dx * dx + dy * dy
    ensures dist <= MaxDistance(size) ==> r == Offset(dx, dy)
    ensures dist > MaxDistance(size) && MaxDistance(size) >= 0.0 ==>
      r.Offset? && r.x * r.x + r.y * r.y == MaxDistance(size) * MaxDistance(size)
    ensures r.NotANumber? <==> dist == 0.0 && MaxDistance(size) < 0.0
  {
    var m := MaxDistance(size);
    if dist > m then
      if dist == 0.0 then NotANumber
      else
        ScaledLength(dx, dy, dist, m);
        Offset(dx / dist * m, dy / dist * m)
    else Offset(dx, dy)
  }

  /** The clamped knob offset has length m exactly. */
  lemma ScaledLength(dx: real, dy: real, dist: real, m: real)
    requires dist > 0.0 && dist * dist == dx * dx + dy * dy
    ensures (dx / dist * m) * (dx / dist * m) + (dy / dist * m) * (dy / dist * m) == m * m
  {
    UnitDirection(dx, dy, dist);
    Scale(dx / dist, dy / dist, m);
  }

  lemma Scale(a: real, b: real, m: real)
    requires a * a + b * b == 1.0
    ensures (a * m) * (a * m) + (b * m) * (b * m) == m * m
  {
    assert (a * m) * (a * m) + (b * m) * (b * m) == (a * a + b * b) * (m * m);
  }

  /** (dx/dist, dy/dist) is a unit vector. */
  lemma UnitDirection(dx: real, dy: real, dist: real)
    requires dist > 0.0 && dist * dist == dx * dx + dy * dy
    ensures (dx / dist) * (dx / dist) + (dy / dist) * (dy / dist) == 1.0
  {
    UnitFromProducts(dx / dist, dy / dist, dx, dy, dist);
  }

  lemma UnitFromProducts(a: real, b: real, dx: real, dy: real, d: real)
    requires d > 0.0 && a * d == dx && b * d == dy && d * d == dx * dx + dy * dy
    ensures a * a + b * b == 1.0
  {
    calc {
      (a * a + b * b) * (d * d);
      (a * d) * (a * d) + (b * d) * (b * d);
      dx * dx + dy * dy;
      d * d;
    }
    Cancel(a, b, d);
  }

  lemma Cancel(a: real, b: real, d: real)
    requires d > 0.0 && (a * a + b * b) * (d * d) == d * d
    ensures a * a + b * b == 1.0
  {
    assert (a * a + b * b - 1.0) * (d * d) == 0.0;
    assert d * d > 0.0;
  }

  /** The drag state of the component and the directions it has reported
      through onDirectionChange, in order. */
  class Controller {
    var isDragging: bool
    var currentDirection: Option<Direction>
    var reported: seq<Option<Direction>>

    constructor ()
      ensures !isDragging && currentDirection == None && reported == []
    {
      isDragging, currentDirection, reported := false, None, [];
    }

    /** handleStart: always reports the direction of the touch point. */
    method HandleStart(centerX: real, centerY: real, x: real, y: real)
      modifies this
      ensures isDragging
      ensures currentDirection == CalculateDirection(centerX, centerY, x, y)
      ensures reported == old(reported) + [currentDirection]
    {
      isDragging := true;
      var d := CalculateDirection(centerX, centerY, x, y);
      currentDirection := d;
      reported := reported + [d];
    }

    /** handleMove: while dragging, reports a direction only when it differs
        from the current one. */
    method HandleMove(centerX: real, centerY: real, x: real, y: real)
      modifies this
      ensures isDragging == old(isDragging)
      ensures var d := CalculateDirection(centerX, centerY, x, y);
        if old(isDragging) && d != old(currentDirection)
        then currentDirection == d && reported == old(reported) + [d]
        else currentDirection == old(currentDirection) && reported == old(reported)
    {
      if !isDragging {
        return;
      }
      var d := CalculateDirection(centerX, centerY, x, y);
      if d != currentDirection {
        currentDirection := d;
        reported := reported + [d];
      }
    }

    /** handleEnd: always reports that no direction is held. */
    method HandleEnd()
      modifies this
      ensures !isDragging && currentDirection == None
      ensures reported == old(reported) + [None]
    {
      isDragging := false;
      currentDirection := None;
      reported := reported + [None];
    }
  }
}
