/**
 * The level hazards and decorations of sprites/objects.py: spiked balls
 * swinging or circling around a pivot, floor and ceiling spikes with a
 * hitbox narrower than their image, and background clouds drifting left.
 */
module Objects {
  import opened Geometry
  import opened Settings

  /**
   * calc_pos: the point at `angle` on the circle of `radius` around `pivot`,
   * given the cosine and sine of that angle (the source converts degrees to
   * radians first).
   */
  function OrbitPoint(pivot: Vec, radius: real, cosA: real, sinA: real): Vec {
    Vec(pivot.x + radius * cosA, pivot.y + radius * sinA)
  }

  /** calc_pos lies on the circle: at distance `radius` from the pivot. */
  lemma OrbitPointOnCircle(pivot: Vec, radius: real, cosA: real, sinA: real)
    requires cosA * cosA + sinA * sinA == 1.0
    ensures var p := OrbitPoint(pivot, radius, cosA, sinA);
      (p.x - pivot.x) * (p.x - pivot.x) + (p.y - pivot.y) * (p.y - pivot.y) == radius * radius
  {
    var p := OrbitPoint(pivot, radius, cosA, sinA);
    assert (p.x - pivot.x) * (p.x - pivot.x) == radius * radius * (cosA * cosA);
    assert (p.y - pivot.y) * (p.y - pivot.y) == radius * radius * (sinA * sinA);
    assert radius * radius * (cosA * cosA) + radius * radius * (sinA * sinA)
        == radius * radius * (cosA * cosA + sinA * sinA);
  }

  /**
   * Spike.update's angle rule: advance by direction * step; unless the spike
   * circles fully, reaching the end angle turns it back and falling below the
   * start angle turns it forward again (two separate tests, in that order).
   */
  function Swung(angle: real, direction: int, startAngle: real, endAngle: real,
                 fullCircle: bool, step: real): (real, int)
  {
    var a := angle + direction as real * step;
    if fullCircle then (a, direction)
    else
      var d1 := if a >= endAngle then -1 else direction;
      var d2 := if a < startAngle then 1 else d1;
      (a, d2)
  }

  /** A spike built with end angle -1 circles forever in its starting direction. */
  lemma FullCircleKeepsTurning(angle: real, direction: int, startAngle: real, endAngle: real, step: real)
    ensures Swung(angle, direction, startAngle, endAngle, true, step) ==
      (angle + direction as real * step, direction)
  {
  }

  /**
   * The swing invariant for a step bound m: the angle overshoots either end
   * by at most m, and an angle past an end is already heading back.
   */
  predicate SwingInvariant(angle: real, direction: int, startAngle: real, endAngle: real, m: real) {
    (direction == 1 || direction == -1) &&
    startAngle - m <= angle <= endAngle + m &&
    (angle >= endAngle ==> direction == -1) &&
    (angle < startAngle ==> direction == 1)
  }

  /** A new swinging spike (angle = start angle, direction 1) satisfies the invariant. */
  lemma SwingInvariantInitially(startAngle: real, endAngle: real, m: real)
    requires startAngle < endAngle && m >= 0.0
    ensures SwingInvariant(startAngle, 1, startAngle, endAngle, m)
  {
  }

  /**
   * Each frame whose step lies in [0, m] keeps the invariant: a swinging
   * spike never leaves [start - m, end + m].
   */
  lemma SwingStaysBounded(angle: real, direction: int, startAngle: real, endAngle: real,
                          m: real, step: real)
    requires startAngle < endAngle && 0.0 <= step <= m
    requires SwingInvariant(angle, direction, startAngle, endAngle, m)
    ensures var (a, d) := Swung(angle, direction, startAngle, endAngle, false, step);
      SwingInvariant(a, d, startAngle, endAngle, m)
  {
  }

  /** Spike: a spiked ball whose rect centre follows the angle around its pivot. */
  class Spike {
    const pivot: Vec
    const radius: real
    const speed: real
    const startAngle: real
    const endAngle: real
    const fullCircle: bool
    var angle: real
    var direction: int
    var rect: Rect
    const z: int

    /**
     * The start angle and direction 1; an end angle of -1 means a full
     * circle. Before the first update the sprite's top-left, not its centre,
     * is at calc_pos. `cos` and `sin` map an angle in degrees to its cosine
     * and sine.
     */
    constructor (pivot: Vec, size: Vec, radius: real, speed: real,
                 startAngle: real, endAngle: real, z: int,
                 cos: real -> real, sin: real -> real)
      ensures this.pivot == pivot && this.radius == radius && this.speed == speed
      ensures this.startAngle == startAngle && this.endAngle == endAngle && this.z == z
      ensures angle == startAngle && direction == 1
      ensures fullCircle <==> endAngle == -1.0
      ensures rect.TopLeft() == OrbitPoint(pivot, radius, cos(startAngle), sin(startAngle))
      ensures rect.w == size.x && rect.h == size.y
    {
      this.pivot := pivot;
      this.radius := radius;
      this.speed := speed;
      this.startAngle := startAngle;
      this.endAngle := endAngle;
      angle := startAngle;
      direction := 1;
      fullCircle := endAngle == -1.0;
      var p := OrbitPoint(pivot, radius, cos(startAngle), sin(startAngle));
      rect := Rect(p.x, p.y, size.x, size.y);
      this.z := z;
    }

    method Update(dt: real, cos: real -> real, sin: real -> real)
      modifies this
      ensures (angle, direction) ==
        Swung(old(angle), old(direction), startAngle, endAngle, fullCircle, speed * dt)
      ensures rect == old(rect).WithCenter(OrbitPoint(pivot, radius, cos(angle), sin(angle)))
      ensures rect.Center() == OrbitPoint(pivot, radius, cos(angle), sin(angle))
    {
      angle := angle + direction as real * speed * dt;
      if !fullCircle {
        if angle >= endAngle {
          direction := -1;
        }
        if angle < startAngle {
          direction := 1;
        }
      }
      rect := rect.WithCenter(OrbitPoint(pivot, radius, cos(angle), sin(angle)));
    }
  }

  /**
   * FloorSpike's hitbox: the image rect (top-left at pos) shrunk by 32 in
   * height and put back at pos; an upright spike then moves it down 32 so
   * that it sits on the bottom edge, an inverted one keeps it on the top edge.
   */
  function FloorSpikeHitbox(pos: Vec, size: Vec, inverted: bool): (hb: Rect)
    ensures hb.x == pos.x && hb.w == size.x && hb.h == size.y - 32.0
    ensures inverted ==> hb.Top() == pos.y
    ensures !inverted ==> hb.Bottom() == pos.y + size.y
  {
    var image := Rect(pos.x, pos.y, size.x, size.y);
    var hb := image.Inflate(0.0, -32.0).WithTopLeft(pos);
    if inverted then hb else hb.Moved(Vec(0.0, 32.0))
  }

  /** A spike at least 32 tall has its hitbox inside its image, on the spiked side's opposite edge. */
  lemma FloorSpikeHitboxInside(pos: Vec, size: Vec, inverted: bool)
    requires size.y >= 32.0
    ensures var hb := FloorSpikeHitbox(pos, size, inverted);
      var image := Rect(pos.x, pos.y, size.x, size.y);
      image.Left() == hb.Left() && hb.Right() == image.Right() &&
      image.Top() <= hb.Top() && hb.Bottom() <= image.Bottom()
  {
  }

  class FloorSpike {
    var rect: Rect
    var hitbox: Rect
    var oldRect: Rect
    const inverted: bool
    var frameIndex: real
    const animSpeed: real
    const frameCount: nat

    /** The old rect is a copy of the hitbox, so the spike never looks as if it moved. */
    constructor (pos: Vec, size: Vec, frameCount: nat, inverted: bool)
      requires frameCount > 0
      ensures rect == Rect(pos.x, pos.y, size.x, size.y)
      ensures hitbox == FloorSpikeHitbox(pos, size, inverted) && oldRect == hitbox
      ensures this.inverted == inverted && frameIndex == 0.0 && animSpeed == AnimSpeed as real
      ensures this.frameCount == frameCount
    {
      rect := Rect(pos.x, pos.y, size.x, size.y);
      hitbox := FloorSpikeHitbox(pos, size, inverted);
      oldRect := FloorSpikeHitbox(pos, size, inverted);
      this.inverted := inverted;
      frameIndex := 0.0;
      animSpeed := AnimSpeed as real;
      this.frameCount := frameCount;
    }

    method Animate(dt: real)
      modifies this
      ensures frameIndex == old(frameIndex) + animSpeed * dt
      ensures rect == old(rect) && hitbox == old(hitbox) && oldRect == old(oldRect)
    {
      frameIndex := frameIndex + animSpeed * dt;
    }
  }

  /** Cloud: a small background cloud drifting left; `speed` is randint(50, 120). */
  class Cloud {
    var rect: Rect
    const speed: int
    const direction: int
    var alive: bool
    const z: int

    constructor (pos: Vec, size: Vec, speed: int)
      requires 50 <= speed <= 120
      ensures rect == Rect(pos.x, pos.y, size.x, size.y)
      ensures this.speed == speed && direction == -1 && alive && z == ZClouds
    {
      rect := Rect(pos.x, pos.y, size.x, size.y);
      this.speed := speed;
      direction := -1;
      alive := true;
      z := ZClouds;
    }

    /** update: drift, then die once the right edge has left the screen. */
    method Update(dt: real)
      modifies this
      ensures rect == old(rect).(x := old(rect).x + direction as real * speed as real * dt)
      ensures alive == (old(alive) && rect.Right() > 0.0)
    {
      rect := rect.(x := rect.x + direction as real * speed as real * dt);
      if rect.Right() <= 0.0 {
        alive := false;
      }
    }
  }

  /** A cloud only ever moves left, by its speed times the frame time. */
  lemma CloudDriftsLeft(r: Rect, speed: int, dt: real)
    requires 50 <= speed <= 120 && dt >= 0.0
    ensures var moved := r.(x := r.x + (-1) as real * speed as real * dt);
      moved.x <= r.x && moved.y == r.y
  {
    var s := speed as real;
    assert s * dt >= 0.0 by {
      assert s >= 0.0;
    }
  }
}
