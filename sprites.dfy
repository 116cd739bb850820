/**
 * The shared sprite behaviour of code/sprites.py (and of its identical copy
 * src/savematter/.sprites.py): frame selection of animated sprites, the
 * effect of picking up an item, self-destroying particle effects and the
 * platforms and saws that move back and forth between two anchors.
 */
module Sprites {
  import opened Wrappers
  import opened Geometry
  import opened Settings
  import opened Progress

  /** The frame shown by a looping animation: frames[int(frame_index) % len(frames)]. */
  function LoopedFrame(frameIndex: real, count: int): (i: int)
    requires count > 0
    ensures 0 <= i < count
  {
    Trunc(frameIndex) % count
  }

  /** During the first cycle the frames are shown in order, one per whole frame index. */
  lemma LoopedFrameFirstCycle(frameIndex: real, count: int)
    requires count > 0 && 0.0 <= frameIndex < count as real
    ensures LoopedFrame(frameIndex, count) == Trunc(frameIndex)
  {
  }

  /** AnimatedSprite: a decoration that loops over its frames. */
  class AnimatedSprite {
    var rect: Rect
    const z: int
    var frameIndex: real
    const animSpeed: real
    const frameCount: nat

    ghost predicate Valid()
      reads this
    {
      frameCount > 0
    }

    /** Built at pos (top-left) with the size of the first frame, at frame 0. */
    constructor (pos: Vec, frameSize: Vec, frameCount: nat, z: int, animSpeed: real)
      requires frameCount > 0
      ensures Valid()
      ensures rect == Rect(pos.x, pos.y, frameSize.x, frameSize.y)
      ensures this.z == z && this.animSpeed == animSpeed && this.frameCount == frameCount
      ensures frameIndex == 0.0
    {
      rect := Rect(pos.x, pos.y, frameSize.x, frameSize.y);
      this.z := z;
      frameIndex := 0.0;
      this.animSpeed := animSpeed;
      this.frameCount := frameCount;
    }

    function Image(): (i: int)
      requires Valid()
      reads this
      ensures 0 <= i < frameCount
    {
      LoopedFrame(frameIndex, frameCount)
    }

    method Animate(dt: real)
      requires Valid()
      modifies this
      ensures Valid()
      ensures frameIndex == old(frameIndex) + animSpeed * dt
      ensures rect == old(rect)
    {
      frameIndex := frameIndex + animSpeed * dt;
    }
  }

  // ---------------------------------------------------------------- items

  /** The coins an item of the given type is worth. */
  function CoinValue(kind: string): int {
    if kind == "silver" then 1
    else if kind == "gold" then 5
    else if kind == "diamond" then 20
    else if kind == "skull" then 50
    else 0
  }

  predicate IsCoin(kind: string) {
    kind == "silver" || kind == "gold" || kind == "diamond" || kind == "skull"
  }

  /** Only the four coin types carry coins; a coin is worth 1, 5, 20 or 50. */
  lemma CoinValues(kind: string)
    ensures IsCoin(kind) <==> CoinValue(kind) != 0
    ensures IsCoin(kind) ==> CoinValue(kind) in {1, 5, 20, 50}
  {
  }

  /** An item the player can collect: its type and its rect, centred on its position. */
  datatype Item = Item(kind: string, rect: Rect)

  /**
   * Item.activate: coin types add their value through the coins setter, a
   * potion adds one health through the health setter, any other type does
   * nothing.
   */
  twostate predicate ItemApplied(kind: string, data: Data)
    reads data
  {
    (IsCoin(kind) ==>
      data.coins == CoinsLeft(old(data.coins) + CoinValue(kind)) &&
      data.health == old(data.health) + HealthGained(old(data.coins) + CoinValue(kind)) &&
      data.uiCalls == old(data.uiCalls) + CoinCalls(old(data.coins) + CoinValue(kind), old(data.health))) &&
    (kind == "potion" ==>
      data.coins == old(data.coins) && data.health == old(data.health) + 1 &&
      data.uiCalls == old(data.uiCalls) + [CreateHearts(old(data.health) + 1)]) &&
    (!IsCoin(kind) && kind != "potion" ==>
      data.coins == old(data.coins) && data.health == old(data.health) &&
      data.uiCalls == old(data.uiCalls)) &&
    data.LevelsUnchanged()
  }

  method ActivateItem(kind: string, data: Data)
    modifies data
    ensures ItemApplied(kind, data)
  {
    if kind == "silver" {
      data.SetCoins(data.coins + 1);
    }
    if kind == "gold" {
      data.SetCoins(data.coins + 5);
    }
    if kind == "diamond" {
      data.SetCoins(data.coins + 20);
    }
    if kind == "skull" {
      data.SetCoins(data.coins + 50);
    }
    if kind == "potion" {
      data.SetHealth(data.health + 1);
    }
  }

  // ------------------------------------------------------ particle effects

  /** ParticleEffectSprite: plays its frames once, then removes itself. */
  class ParticleEffect {
    var rect: Rect
    var frameIndex: real
    const animSpeed: real
    const frameCount: nat
    var alive: bool

    /** Centred on pos, painted on the foreground layer. */
    constructor (pos: Vec, frameSize: Vec, frameCount: nat, animSpeed: real)
      requires frameCount > 0
      ensures rect == Rect(pos.x, pos.y, frameSize.x, frameSize.y).WithCenter(pos)
      ensures rect.Center() == pos
      ensures frameIndex == 0.0 && alive
      ensures this.frameCount == frameCount && this.animSpeed == animSpeed
    {
      rect := Rect(pos.x, pos.y, frameSize.x, frameSize.y).WithCenter(pos);
      frameIndex := 0.0;
      this.animSpeed := animSpeed;
      this.frameCount := frameCount;
      alive := true;
    }

    const z: int := ZFg

    /** The frame on show, none once the effect has run out of frames. */
    function Image(): (i: Option<int>)
      reads this
      ensures i.Some? <==> frameIndex < frameCount as real
      ensures i.Some? && frameIndex >= 0.0 ==> 0 <= i.value < frameCount
    {
      if frameIndex < frameCount as real then Some(Trunc(frameIndex)) else None
    }

    /** animate: advances; the effect is killed once the index reaches the frame count. */
    method Animate(dt: real)
      modifies this
      ensures frameIndex == old(frameIndex) + animSpeed * dt
      ensures alive == (old(alive) && frameIndex < frameCount as real)
      ensures rect == old(rect)
    {
      frameIndex := frameIndex + animSpeed * dt;
      if frameIndex >= frameCount as real {
        alive := false;
      }
    }
  }

  // --------------------------------------------------------- moving sprites

  datatype Axis = AxisX | AxisY

  /**
   * check_border on the x axis: moving right at or past end.x turns left and
   * puts the right edge on end.x; then moving left at or past start.x turns
   * right and puts the left edge on start.x.
   */
  function BouncedX(r: Rect, d: Vec, start: Vec, end: Vec): (Rect, Vec) {
    var (r1, d1) := if r.Right() >= end.x && d.x == 1.0 then (r.WithRight(end.x), d.(x := -1.0)) else (r, d);
    if r1.Left() <= start.x && d1.x == -1.0 then (r1.WithLeft(start.x), d1.(x := 1.0)) else (r1, d1)
  }

  /** check_border on the y axis, with bottom/end.y and top/start.y. */
  function BouncedY(r: Rect, d: Vec, start: Vec, end: Vec): (Rect, Vec) {
    var (r1, d1) := if r.Bottom() >= end.y && d.y == 1.0 then (r.WithBottom(end.y), d.(y := -1.0)) else (r, d);
    if r1.Top() <= start.y && d1.y == -1.0 then (r1.WithTop(start.y), d1.(y := 1.0)) else (r1, d1)
  }

  function Bounced(axis: Axis, r: Rect, d: Vec, start: Vec, end: Vec): (Rect, Vec) {
    if axis == AxisX then BouncedX(r, d, start, end) else BouncedY(r, d, start, end)
  }

  /** A bounce only flips the direction and moves the rect along its axis. */
  lemma BounceStaysOnAxis(axis: Axis, r: Rect, d: Vec, start: Vec, end: Vec)
    ensures var (r1, d1) := Bounced(axis, r, d, start, end);
      r1.w == r.w && r1.h == r.h &&
      (axis == AxisX ==> r1.y == r.y && d1.y == d.y) &&
      (axis == AxisY ==> r1.x == r.x && d1.x == d.x)
  {
  }

  /** Moving right into the end anchor: the sprite turns and its right edge sits on end.x. */
  lemma BounceAtEndX(r: Rect, d: Vec, start: Vec, end: Vec)
    requires d.x == 1.0 && r.Right() >= end.x && end.x - r.w > start.x
    ensures BouncedX(r, d, start, end) == (r.WithRight(end.x), d.(x := -1.0))
  {
  }

  /** Moving left into the start anchor: the sprite turns and its left edge sits on start.x. */
  lemma BounceAtStartX(r: Rect, d: Vec, start: Vec, end: Vec)
    requires d.x == -1.0 && r.Left() <= start.x
    ensures BouncedX(r, d, start, end) == (r.WithLeft(start.x), d.(x := 1.0))
  {
  }

  /** Strictly between the anchors nothing changes. */
  lemma NoBounceInside(axis: Axis, r: Rect, d: Vec, start: Vec, end: Vec)
    requires axis == AxisX ==> start.x < r.Left() && r.Right() < end.x
    requires axis == AxisY ==> start.y < r.Top() && r.Bottom() < end.y
    ensures Bounced(axis, r, d, start, end) == (r, d)
  {
  }

  /** The sprite lies between its anchors along its axis and moves by a unit direction. */
  predicate InRange(axis: Axis, r: Rect, d: Vec, start: Vec, end: Vec) {
    match axis
    case AxisX =>
      start.x <= r.Left() && r.Right() <= end.x && r.w <= end.x - start.x &&
      (d.x == 1.0 || d.x == -1.0) && d.y == 0.0
    case AxisY =>
      start.y <= r.Top() && r.Bottom() <= end.y && r.h <= end.y - start.y &&
      (d.y == 1.0 || d.y == -1.0) && d.x == 0.0
  }

  /**
   * One frame of MovingSprite.update: the rect moves by direction * step and
   * then bounces. A sprite in range stays in range for every step >= 0: it
   * never overshoots an anchor.
   */
  lemma StaysInRange(axis: Axis, r: Rect, d: Vec, start: Vec, end: Vec, step: real)
    requires InRange(axis, r, d, start, end) && step >= 0.0
    ensures var (r1, d1) := Bounced(axis, r.Moved(d.Scale(step)), d, start, end);
      InRange(axis, r1, d1, start, end)
  {
    var moved := r.Moved(d.Scale(step));
    if axis == AxisX {
      assert moved.w == r.w;
      if d.x == 1.0 {
        assert moved.Left() == r.Left() + step;
      } else {
        assert moved.Right() == r.Right() - step;
      }
    } else {
      assert moved.h == r.h;
      if d.y == 1.0 {
        assert moved.Top() == r.Top() + step;
      } else {
        assert moved.Bottom() == r.Bottom() - step;
      }
    }
  }

  /** MovingSprite: a platform or saw oscillating between two anchors along one axis. */
  class MovingSprite {
    var rect: Rect
    var oldRect: Rect
    const startPos: Vec
    const endPos: Vec
    const moveDir: Axis
    const speed: real
    var direction: Vec
    const flip: bool
    var reverseX: bool
    var reverseY: bool
    var frameIndex: real
    const animSpeed: real
    const frameCount: nat

    /**
     * MovingSprite(frames, start, end, move_dir, speed): "x" anchors the
     * rect's mid-left on start and moves right, "y" anchors its mid-top and
     * moves down; any other move_dir raises ValueError.
     */
    static method Create(frameSize: Vec, frameCount: nat, start: Vec, end: Vec,
                         moveDir: string, speed: real, flip: bool)
      returns (r: Result<MovingSprite>)
      requires frameCount > 0
      ensures moveDir != "x" && moveDir != "y" <==> r == Err(ValueError)
      ensures r.Err? ==> r == Err(ValueError)
      ensures r.Ok? ==> fresh(r.value)
      ensures r.Ok? ==> r.value.speed == speed && r.value.flip == flip
      ensures r.Ok? ==> r.value.startPos == start && r.value.endPos == end
      ensures r.Ok? ==> !r.value.reverseX && !r.value.reverseY && r.value.frameIndex == 0.0
      ensures r.Ok? ==> r.value.rect.w == frameSize.x && r.value.rect.h == frameSize.y
      ensures r.Ok? ==> r.value.oldRect == Rect(start.x, start.y, frameSize.x, frameSize.y)
      ensures moveDir == "x" ==> r.Ok? && r.value.moveDir == AxisX
      ensures moveDir == "x" ==> r.value.rect.Left() == start.x && r.value.rect.CenterY() == start.y
      ensures moveDir == "x" ==> r.value.direction == Vec(1.0, 0.0)
      ensures moveDir == "y" ==> r.Ok? && r.value.moveDir == AxisY
      ensures moveDir == "y" ==> r.value.rect.CenterX() == start.x && r.value.rect.Top() == start.y
      ensures moveDir == "y" ==> r.value.direction == Vec(0.0, 1.0)
    {
      if moveDir != "x" && moveDir != "y" {
        return Err(ValueError);
      }
      var axis := if moveDir == "x" then AxisX else AxisY;
      var s := new MovingSprite.Init(frameSize, frameCount, start, end, axis, speed, flip);
      return Ok(s);
    }

    constructor Init(frameSize: Vec, frameCount: nat, start: Vec, end: Vec,
                     axis: Axis, speed: real, flip: bool)
      requires frameCount > 0
      ensures this.speed == speed && this.flip == flip && startPos == start && endPos == end
      ensures moveDir == axis && !reverseX && !reverseY && frameIndex == 0.0
      ensures this.frameCount == frameCount && animSpeed == AnimSpeed as real
      ensures oldRect == Rect(start.x, start.y, frameSize.x, frameSize.y)
      ensures axis == AxisX ==> rect == oldRect.WithMidLeft(start) && direction == Vec(1.0, 0.0)
      ensures axis == AxisY ==> rect == oldRect.WithMidTop(start) && direction == Vec(0.0, 1.0)
      ensures axis == AxisX && frameSize.x <= end.x - start.x && speed >= 0.0 ==> Valid()
      ensures axis == AxisY && frameSize.y <= end.y - start.y && speed >= 0.0 ==> Valid()
    {
      var placed := Rect(start.x, start.y, frameSize.x, frameSize.y);
      oldRect := placed;
      rect := if axis == AxisX then placed.WithMidLeft(start) else placed.WithMidTop(start);
      startPos := start;
      endPos := end;
      moveDir := axis;
      this.speed := speed;
      direction := if axis == AxisX then Vec(1.0, 0.0) else Vec(0.0, 1.0);
      this.flip := flip;
      reverseX := false;
      reverseY := false;
      frameIndex := 0.0;
      animSpeed := AnimSpeed as real;
      this.frameCount := frameCount;
    }

    /**
     * check_border: the bounce of the sprite's axis, then the reverse flag of
     * that axis (x: moving left, y: moving down); the other flag is kept.
     */
    method CheckBorder()
      modifies this
      ensures (rect, direction) == Bounced(moveDir, old(rect), old(direction), startPos, endPos)
      ensures moveDir == AxisX ==> reverseX == (direction.x < 0.0) && reverseY == old(reverseY)
      ensures moveDir == AxisY ==> reverseY == (direction.y > 0.0) && reverseX == old(reverseX)
      ensures oldRect == old(oldRect) && frameIndex == old(frameIndex)
    {
      if moveDir == AxisX {
        if rect.Right() >= endPos.x && direction.x == 1.0 {
          direction := direction.(x := -1.0);
          rect := rect.WithRight(endPos.x);
        }
        if rect.Left() <= startPos.x && direction.x == -1.0 {
          direction := direction.(x := 1.0);
          rect := rect.WithLeft(startPos.x);
        }
        reverseX := direction.x < 0.0;
      } else {
        if rect.Bottom() >= endPos.y && direction.y == 1.0 {
          direction := direction.(y := -1.0);
          rect := rect.WithBottom(endPos.y);
        }
        if rect.Top() <= startPos.y && direction.y == -1.0 {
          direction := direction.(y := 1.0);
          rect := rect.WithTop(startPos.y);
        }
        reverseY := direction.y > 0.0;
      }
    }

    /** The displacement of one frame, which a rider on this platform inherits. */
    function Step(dt: real): Vec
      reads this
    {
      direction.Scale(speed * dt)
    }

    /**
     * update: snapshot old_rect before moving, move by direction * speed * dt,
     * bounce at the anchors, then advance the animation.
     */
    method Update(dt: real)
      modifies this
      ensures oldRect == old(rect)
      ensures (rect, direction) ==
        Bounced(moveDir, old(rect).Moved(old(direction).Scale(speed * dt)), old(direction), startPos, endPos)
      ensures moveDir == AxisX ==> reverseX == (direction.x < 0.0) && reverseY == old(reverseY)
      ensures moveDir == AxisY ==> reverseY == (direction.y > 0.0) && reverseX == old(reverseX)
      ensures frameIndex == old(frameIndex) + animSpeed * dt
    {
      oldRect := rect;
      rect := rect.Moved(direction.Scale(speed * dt));
      CheckBorder();
      frameIndex := frameIndex + animSpeed * dt;
    }

    /** Between frames every moving sprite stays within its anchors. */
    ghost predicate Valid()
      reads this
    {
      InRange(moveDir, rect, direction, startPos, endPos) && speed >= 0.0
    }

    method UpdateKeepsRange(dt: real)
      requires Valid() && dt >= 0.0
      modifies this
      ensures Valid()
      ensures oldRect == old(rect)
    {
      StaysInRange(moveDir, rect, direction, startPos, endPos, speed * dt);
      Update(dt);
    }
  }
}
