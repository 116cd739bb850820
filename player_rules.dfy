/**
 * The player's per-frame rules (game/player.py) as functions on a value
 * snapshot of the player: input, attack, the movement integration with its
 * axis-separated collision resolution against solid and one-way geometry,
 * contact sensing, the moving-platform carry and the animation state. The
 * in-place Player of module Players is proved to follow them.
 */
module PlayerRules {
  import opened Wrappers
  import opened Geometry
  import opened Settings
  import opened Timers

  const Speed: real := 200.0
  const Gravity: real := 1300.0
  const JumpHeight: real := 900.0

  // The durations of the player's five timers, in milliseconds.
  const WallJumpMs: int := 400
  const WallSlideBlockMs: int := 250
  const PlatformFallMs: int := 100
  const AttackBlockMs: int := 500
  const ImmunityMs: int := 650

  /**
   * A sprite the player collides with, as seen this frame: its rect, its
   * hitbox when it has one, its previous rect, whether it is a moving
   * sprite and, when it is, its displacement per second (direction * speed).
   */
  datatype Body = Body(rect: Rect, hitbox: Option<Rect>, oldRect: Rect, moving: bool, velocity: Vec) {
    /** The hitbox when the sprite has one, else its rect. */
    function Shape(): Rect { if hitbox.Some? then hitbox.value else rect }
  }

  function Shapes(bodies: seq<Body>): (r: seq<Rect>)
    ensures |r| == |bodies|
    ensures forall i :: 0 <= i < |r| ==> r[i] == bodies[i].Shape()
  {
    seq(|bodies|, i requires 0 <= i < |bodies| => bodies[i].Shape())
  }

  /** The keys held this frame: right/d, left/a, down/s, x and space. */
  datatype Keys = Keys(right: bool, left: bool, down: bool, attack: bool, jump: bool)

  datatype PlayerAnim = Idle | Run | Jump | Fall | Wall | Attack | AirAttack

  /** Everything about the player that changes from frame to frame. */
  datatype PlayerView = PlayerView(
    rect: Rect,
    hitbox: Rect,
    oldRect: Rect,
    direction: Vec,
    facingRight: bool,
    jump: bool,
    attacking: bool,
    onFloor: bool,
    onLeft: bool,
    onRight: bool,
    platform: Option<nat>,
    state: PlayerAnim,
    frameIndex: real,
    wallJump: TimerState,
    wallSlideBlock: TimerState,
    platformFall: TimerState,
    attackBlock: TimerState,
    immunity: TimerState)

  /** A new player: the hitbox is the image rect inset by 76 x 36, and the old rect copies it. */
  function InitialView(pos: Vec, size: Vec): (v: PlayerView)
    ensures v.hitbox.Center() == v.rect.Center()
    ensures v.hitbox.w == size.x - 76.0 && v.hitbox.h == size.y - 36.0
    ensures v.oldRect == v.hitbox && v.direction == Zero && v.state == Idle
  {
    var rect := Rect(pos.x, pos.y, size.x, size.y);
    var hb := rect.Inflate(-76.0, -36.0);
    PlayerView(rect, hb, hb, Zero, true, false, false, false, false, false, None, Idle, 0.0,
               Initial(WallJumpMs, false, false), Initial(WallSlideBlockMs, false, false),
               Initial(PlatformFallMs, false, false), Initial(AttackBlockMs, false, false),
               Initial(ImmunityMs, false, false))
  }

  // ------------------------------------------------------------ input

  /** The horizontal input: +1 for right, -1 for left, 0 for both or neither. */
  function InputX(keys: Keys): (x: int)
    ensures x == 1 <==> keys.right && !keys.left
    ensures x == -1 <==> keys.left && !keys.right
    ensures x == 0 <==> keys.right == keys.left
  {
    (if keys.right then 1 else 0) + (if keys.left then -1 else 0)
  }

  /** attack: only while the attack block timer is inactive; restarts the animation. */
  function Attacked(v: PlayerView, now: int): PlayerView {
    if v.attackBlock.active then v
    else v.(attacking := true, frameIndex := 0.0, attackBlock := Activated(v.attackBlock, now))
  }

  /** The facing flag: the left key wins over the right key; neither keeps it. */
  function Faced(v: PlayerView, keys: Keys): PlayerView {
    v.(facingRight := if keys.left then false else if keys.right then true else v.facingRight)
  }

  /** The down key starts the fall-through timer. */
  function FallKeyed(v: PlayerView, keys: Keys, now: int): PlayerView {
    if keys.down then v.(platformFall := Activated(v.platformFall, now)) else v
  }

  /** The attack key attacks. */
  function AttackKeyed(v: PlayerView, keys: Keys, now: int): PlayerView {
    if keys.attack then Attacked(v, now) else v
  }

  /** input outside a wall jump: facing, the fall-through timer, the attack, then the horizontal direction. */
  function Steered(v: PlayerView, keys: Keys, now: int): PlayerView {
    var w := AttackKeyed(FallKeyed(Faced(v, keys), keys, now), keys, now);
    w.(direction := w.direction.(x := InputX(keys) as real))
  }

  /**
   * input: while a wall jump is in progress the horizontal keys, the down
   * key and the attack key are ignored; the jump key is always recorded.
   */
  function Inputted(v: PlayerView, keys: Keys, now: int): PlayerView {
    var v1 := if v.wallJump.active then v else Steered(v, keys, now);
    v1.(jump := v1.jump || keys.jump)
  }

  /** During a wall jump the keys change nothing but the jump request. */
  lemma WallJumpLocksInput(v: PlayerView, keys: Keys, now: int)
    requires v.wallJump.active
    ensures Inputted(v, keys, now) == v.(jump := v.jump || keys.jump)
  {
  }

  /** Otherwise direction.x follows the keys and an attack starts only outside the attack block. */
  lemma InputSteers(v: PlayerView, keys: Keys, now: int)
    requires !v.wallJump.active
    ensures Inputted(v, keys, now).direction == Vec(InputX(keys) as real, v.direction.y)
    ensures keys.attack && !v.attackBlock.active ==>
      Inputted(v, keys, now).attacking && Inputted(v, keys, now).attackBlock == Activated(v.attackBlock, now)
    ensures !keys.attack || v.attackBlock.active ==>
      Inputted(v, keys, now).attacking == v.attacking && Inputted(v, keys, now).attackBlock == v.attackBlock
    ensures keys.down ==> Inputted(v, keys, now).platformFall == Activated(v.platformFall, now)
  {
  }

  // ------------------------------------------------- horizontal collision

  /**
   * collision("x") against one solid that overlaps the hitbox: the left edge
   * snaps to the solid's right edge when the player was at or right of it
   * last frame (compared as truncated integers); then, on the hitbox as it
   * now is, the right edge snaps to the solid's left edge in the mirror case.
   */
  function SnapX(hb: Rect, prev: Rect, s: Body): (r: Rect)
    ensures r.y == hb.y && r.w == hb.w && r.h == hb.h
    ensures !Collide(s.Shape(), hb) ==> r == hb
  {
    var sr := s.Shape();
    if !Collide(sr, hb) then hb
    else
      var hb1 := if hb.Left() <= sr.Right() && Trunc(prev.Left()) >= Trunc(s.oldRect.Right())
                 then hb.WithLeft(sr.Right()) else hb;
      if hb1.Right() >= sr.Left() && Trunc(prev.Right()) <= Trunc(s.oldRect.Left())
      then hb1.WithRight(sr.Left()) else hb1
  }

  /** collision("x") over the solids in group order. */
  function ResolvedX(hb: Rect, prev: Rect, solids: seq<Body>): (r: Rect)
    ensures r.y == hb.y && r.w == hb.w && r.h == hb.h
    decreases |solids|
  {
    if solids == [] then hb
    else SnapX(ResolvedX(hb, prev, solids[..|solids| - 1]), prev, solids[|solids| - 1])
  }

  /**
   * A player that was right of a solid last frame and now overlaps it is
   * pushed out to the solid's right edge, where it no longer overlaps it.
   */
  lemma SnapXFromRight(hb: Rect, prev: Rect, s: Body)
    requires hb.w > 0.0 && hb.h > 0.0 && s.Shape().w > 0.0 && s.Shape().h > 0.0
    requires Collide(s.Shape(), hb)
    requires Trunc(prev.Left()) >= Trunc(s.oldRect.Right())
    requires Trunc(prev.Right()) > Trunc(s.oldRect.Left())
    ensures SnapX(hb, prev, s) == hb.WithLeft(s.Shape().Right())
    ensures !Collide(s.Shape(), SnapX(hb, prev, s))
  {
    CollidePositive(s.Shape(), hb);
    CollidePositive(s.Shape(), SnapX(hb, prev, s));
  }

  /** The mirror case: coming from the left, the right edge lands on the solid's left edge. */
  lemma SnapXFromLeft(hb: Rect, prev: Rect, s: Body)
    requires hb.w > 0.0 && hb.h > 0.0 && s.Shape().w > 0.0 && s.Shape().h > 0.0
    requires Collide(s.Shape(), hb)
    requires Trunc(prev.Right()) <= Trunc(s.oldRect.Left())
    ensures SnapX(hb, prev, s).Right() == s.Shape().Left()
    ensures !Collide(s.Shape(), SnapX(hb, prev, s))
  {
    CollidePositive(s.Shape(), hb);
    CollidePositive(s.Shape(), SnapX(hb, prev, s));
  }

  // --------------------------------------------------- vertical collision

  /**
   * collision("y") against one solid that overlaps the hitbox: the top snaps
   * to the solid's bottom (plus 6 under a moving solid) when the player was
   * at or below it; then the bottom snaps to the solid's top when the player
   * was at or above it; and direction.y becomes 0 whether or not either snapped.
   */
  function SnapY(hb: Rect, d: Vec, prev: Rect, s: Body): (r: (Rect, Vec))
    ensures r.0.x == hb.x && r.0.w == hb.w && r.0.h == hb.h && r.1.x == d.x
    ensures Collide(s.Shape(), hb) ==> r.1.y == 0.0
    ensures !Collide(s.Shape(), hb) ==> r == (hb, d)
  {
    var sr := s.Shape();
    if !Collide(sr, hb) then (hb, d)
    else
      var hb1 := if hb.Top() <= sr.Bottom() && Trunc(prev.Top()) >= Trunc(s.oldRect.Bottom())
                 then (if s.moving then hb.WithTop(sr.Bottom() + 6.0) else hb.WithTop(sr.Bottom()))
                 else hb;
      var hb2 := if hb1.Bottom() >= sr.Top() && Trunc(prev.Bottom()) <= Trunc(s.oldRect.Top())
                 then hb1.WithBottom(sr.Top()) else hb1;
      (hb2, d.(y := 0.0))
  }

  /** collision("y") over the solids in group order. */
  function ResolvedY(hb: Rect, d: Vec, prev: Rect, solids: seq<Body>): (r: (Rect, Vec))
    ensures r.0.x == hb.x && r.0.w == hb.w && r.0.h == hb.h && r.1.x == d.x
    ensures r.1 == d || r.1 == d.(y := 0.0)
    decreases |solids|
  {
    if solids == [] then (hb, d)
    else
      var (hb1, d1) := ResolvedY(hb, d, prev, solids[..|solids| - 1]);
      SnapY(hb1, d1, prev, solids[|solids| - 1])
  }

  /**
   * Any solid that overlaps the hitbox when its turn comes zeroes
   * direction.y for the rest of the pass, whether or not an edge snapped.
   */
  lemma {:induction false} VerticalOverlapStops(hb: Rect, d: Vec, prev: Rect, solids: seq<Body>, j: nat)
    requires j < |solids|
    requires Collide(solids[j].Shape(), ResolvedY(hb, d, prev, solids[..j]).0)
    ensures ResolvedY(hb, d, prev, solids).1.y == 0.0
    decreases |solids|
  {
    var n := |solids| - 1;
    var prefix := solids[..n];
    if j < n {
      assert prefix[..j] == solids[..j];
      VerticalOverlapStops(hb, d, prev, prefix, j);
    } else {
      assert prefix == solids[..j];
    }
  }

  /** Bumping the underside of a moving solid leaves the top 6 below that solid's bottom. */
  lemma CeilingNudge(hb: Rect, d: Vec, prev: Rect, s: Body)
    requires s.moving && Collide(s.Shape(), hb)
    requires hb.Top() <= s.Shape().Bottom() && Trunc(prev.Top()) >= Trunc(s.oldRect.Bottom())
    requires Trunc(prev.Bottom()) > Trunc(s.oldRect.Top())
    ensures SnapY(hb, d, prev, s).0.Top() == s.Shape().Bottom() + 6.0
    ensures SnapY(hb, d, prev, s).1.y == 0.0
  {
  }

  /**
   * Falling into the ground from above: the bottom is put back on the
   * ground's top and the fall stops.
   */
  lemma StopsOnGround(hb: Rect, d: Vec, prev: Rect, ground: Body)
    requires Collide(ground.Shape(), hb) && hb.Bottom() >= ground.Shape().Top()
    requires Trunc(prev.Bottom()) <= Trunc(ground.oldRect.Top())
    requires Trunc(prev.Top()) < Trunc(ground.oldRect.Bottom())
    ensures SnapY(hb, d, prev, ground) == (hb.WithBottom(ground.Shape().Top()), d.(y := 0.0))
  {
  }

  // ------------------------------------------------------ one-way platforms

  /**
   * semi_collision against one platform: only when its rect overlaps the
   * hitbox, the hitbox reaches its top and the player's truncated previous
   * bottom was at or above the platform's previous top, the bottom snaps to
   * the top; then a downward direction.y stops.
   */
  function SnapSemi(hb: Rect, d: Vec, prev: Rect, s: Body): (r: (Rect, Vec))
    ensures r.0.x == hb.x && r.0.w == hb.w && r.0.h == hb.h && r.1.x == d.x
    ensures r.0.Bottom() <= hb.Bottom()
    ensures r.1.y == d.y || (d.y > 0.0 && r.1.y == 0.0)
  {
    if Collide(s.rect, hb) && hb.Bottom() >= s.rect.Top() && Trunc(prev.Bottom()) as real <= s.oldRect.Top()
    then (hb.WithBottom(s.rect.Top()), if d.y > 0.0 then d.(y := 0.0) else d)
    else (hb, d)
  }

  /**
   * semi_collision over the platforms in group order: it can only lift the
   * hitbox (never push it down or sideways) and can only stop a downward motion.
   */
  function ResolvedSemi(hb: Rect, d: Vec, prev: Rect, semis: seq<Body>): (r: (Rect, Vec))
    ensures r.0.x == hb.x && r.0.w == hb.w && r.0.h == hb.h && r.1.x == d.x
    ensures r.0.Bottom() <= hb.Bottom()
    ensures r.1.y == d.y || (d.y > 0.0 && r.1.y == 0.0)
    decreases |semis|
  {
    if semis == [] then (hb, d)
    else
      var (hb1, d1) := ResolvedSemi(hb, d, prev, semis[..|semis| - 1]);
      SnapSemi(hb1, d1, prev, semis[|semis| - 1])
  }

  /** Falling onto a one-way platform from above: the player is put on its top and stops. */
  lemma LandsOnPlatform(hb: Rect, d: Vec, prev: Rect, p: Body)
    requires Collide(p.rect, hb) && hb.Bottom() >= p.rect.Top()
    requires Trunc(prev.Bottom()) as real <= p.oldRect.Top() && d.y > 0.0
    ensures SnapSemi(hb, d, prev, p) == (hb.WithBottom(p.rect.Top()), d.(y := 0.0))
  {
  }

  /** A player that was below a one-way platform's top passes through it. */
  lemma PassesFromBelow(hb: Rect, d: Vec, prev: Rect, p: Body)
    requires Trunc(prev.Bottom()) as real > p.oldRect.Top()
    ensures SnapSemi(hb, d, prev, p) == (hb, d)
  {
  }

  // ------------------------------------------------------------- movement

  datatype JumpKind = NoJump | FloorJump | WallJump

  /** The jump rule: from the floor; else from a wall outside the wall-slide block; else none. */
  function JumpChoice(jump: bool, onFloor: bool, onWall: bool, slideBlocked: bool): (k: JumpKind)
    ensures k == FloorJump <==> jump && onFloor
    ensures k == WallJump <==> jump && !onFloor && onWall && !slideBlocked
  {
    if !jump then NoJump
    else if onFloor then FloorJump
    else if onWall && !slideBlocked then WallJump
    else NoJump
  }

  /**
   * The vertical integration: sliding down a wall at gravity / 10 with
   * direction.y held at 0, or otherwise two half steps of gravity around
   * the position update.
   */
  function Fallen(hb: Rect, d: Vec, onFloor: bool, onWall: bool, slideBlocked: bool, dt: real): (Rect, Vec) {
    if !onFloor && onWall && !slideBlocked then
      (hb.(y := hb.y + Gravity / 10.0 * dt), d.(y := 0.0))
    else
      var vy := d.y + Gravity / 2.0 * dt;
      (hb.(y := hb.y + vy * dt), d.(y := vy + Gravity / 2.0 * dt))
  }

  /** In the air the velocity grows by gravity * dt each frame. */
  lemma FallAccelerates(hb: Rect, d: Vec, onWall: bool, slideBlocked: bool, dt: real)
    requires !onWall || slideBlocked
    ensures Fallen(hb, d, false, onWall, slideBlocked, dt).1 == d.(y := d.y + Gravity * dt)
  {
  }

  /** The jump impulse: a floor jump also lifts the bottom by 1; a wall jump pushes away from the wall. */
  function Jumped(hb: Rect, d: Vec, kind: JumpKind, onLeft: bool): (Rect, Vec) {
    match kind
    case NoJump => (hb, d)
    case FloorJump => (hb.WithBottom(hb.Bottom() - 1.0), d.(y := -JumpHeight))
    case WallJump => (hb, Vec(if onLeft then 1.0 else -1.0, -JumpHeight))
  }

  /** The platform carry: the stored platform's displacement over this frame. */
  function Carried(hb: Rect, platform: Option<nat>, bodies: seq<Body>, dt: real): Rect {
    if platform.Some? && platform.value < |bodies| then hb.Moved(bodies[platform.value].velocity.Scale(dt))
    else hb
  }

  // The stages of move, each on the whole snapshot, in the order move runs them.

  /** The horizontal step: direction.x * speed * dt. */
  function SteppedX(v: PlayerView, dt: real): PlayerView {
    v.(hitbox := v.hitbox.(x := v.hitbox.x + v.direction.x * Speed * dt))
  }

  /** collision("x") on the snapshot. */
  function ResolvedViewX(v: PlayerView, solids: seq<Body>): PlayerView {
    v.(hitbox := ResolvedX(v.hitbox, v.oldRect, solids))
  }

  /** The vertical integration on the snapshot. */
  function Fell(v: PlayerView, dt: real): PlayerView {
    var f := Fallen(v.hitbox, v.direction, v.onFloor, v.onLeft || v.onRight, v.wallSlideBlock.active, dt);
    v.(hitbox := f.0, direction := f.1)
  }

  /** The jump on the snapshot: the impulse, the timer it starts, and the request consumed. */
  function Launched(v: PlayerView, now: int): PlayerView {
    var kind := JumpChoice(v.jump, v.onFloor, v.onLeft || v.onRight, v.wallSlideBlock.active);
    var j := Jumped(v.hitbox, v.direction, kind, v.onLeft);
    v.(hitbox := j.0, direction := j.1, jump := false,
       wallSlideBlock := if kind == FloorJump then Activated(v.wallSlideBlock, now) else v.wallSlideBlock,
       wallJump := if kind == WallJump then Activated(v.wallJump, now) else v.wallJump)
  }

  /** collision("y") on the snapshot. */
  function ResolvedViewY(v: PlayerView, solids: seq<Body>): PlayerView {
    var r := ResolvedY(v.hitbox, v.direction, v.oldRect, solids);
    v.(hitbox := r.0, direction := r.1)
  }

  /** semi_collision on the snapshot: nothing while the fall-through timer runs. */
  function ResolvedViewSemi(v: PlayerView, semis: seq<Body>): PlayerView {
    if v.platformFall.active then v
    else
      var r := ResolvedSemi(v.hitbox, v.direction, v.oldRect, semis);
      v.(hitbox := r.0, direction := r.1)
  }

  /** The image rect re-centred on the hitbox. */
  function Centred(v: PlayerView): PlayerView {
    v.(rect := v.rect.WithCenter(v.hitbox.Center()))
  }

  /** The carry on the snapshot. */
  function CarriedView(v: PlayerView, bodies: seq<Body>, dt: real): PlayerView {
    v.(hitbox := Carried(v.hitbox, v.platform, bodies, dt))
  }

  /**
   * move: the horizontal step and resolution, the vertical integration, the
   * jump, the vertical and one-way resolutions, the image rect re-centred,
   * then the carry.
   */
  function Moved(v: PlayerView, dt: real, now: int, solids: seq<Body>, semis: seq<Body>): PlayerView {
    CarriedView(
      Centred(ResolvedViewSemi(ResolvedViewY(Launched(Fell(ResolvedViewX(SteppedX(v, dt), solids), dt), now),
                                             solids), semis)),
      solids + semis, dt)
  }

  /** The jump request is consumed by every move, whatever happened to it. */
  lemma JumpConsumed(v: PlayerView, dt: real, now: int, solids: seq<Body>, semis: seq<Body>)
    ensures !Moved(v, dt, now, solids, semis).jump
    ensures Moved(v, dt, now, solids, semis).oldRect == v.oldRect
  {
  }

  /** A jump in the air with no usable wall changes nothing. */
  lemma AirJumpIgnored(v: PlayerView, dt: real, now: int, solids: seq<Body>, semis: seq<Body>)
    requires !v.onFloor && (!(v.onLeft || v.onRight) || v.wallSlideBlock.active)
    ensures Moved(v.(jump := true), dt, now, solids, semis) == Moved(v.(jump := false), dt, now, solids, semis)
  {
    var onWall := v.onLeft || v.onRight;
    var a := Fell(ResolvedViewX(SteppedX(v.(jump := true), dt), solids), dt);
    var b := Fell(ResolvedViewX(SteppedX(v.(jump := false), dt), solids), dt);
    assert a == b.(jump := true);
    assert JumpChoice(true, v.onFloor, onWall, v.wallSlideBlock.active) == NoJump;
    assert Launched(a, now) == Launched(b, now);
  }

  /** A floor jump starts the wall-slide block; a wall jump starts the wall jump and pushes off the wall. */
  lemma JumpStartsTimers(v: PlayerView, dt: real, now: int, solids: seq<Body>, semis: seq<Body>)
    ensures v.jump && v.onFloor ==>
      Moved(v, dt, now, solids, semis).wallSlideBlock == Activated(v.wallSlideBlock, now) &&
      Moved(v, dt, now, solids, semis).wallJump == v.wallJump
    ensures v.jump && !v.onFloor && (v.onLeft || v.onRight) && !v.wallSlideBlock.active ==>
      Moved(v, dt, now, solids, semis).wallJump == Activated(v.wallJump, now) &&
      Moved(v, dt, now, solids, semis).direction.x == (if v.onLeft then 1.0 else -1.0)
  {
  }

  /** While falling through, one-way platforms have no effect on the move. */
  lemma FallThrough(v: PlayerView, dt: real, now: int, solids: seq<Body>, semis: seq<Body>)
    requires v.platformFall.active && v.platform.None?
    ensures Moved(v, dt, now, solids, semis) == Moved(v, dt, now, solids, [])
  {
  }

  /** The image rect is centred on the hitbox before the carry is applied. */
  lemma RectFollowsHitbox(v: PlayerView, dt: real, now: int, solids: seq<Body>, semis: seq<Body>)
    requires v.platform.None?
    ensures Moved(v, dt, now, solids, semis).rect.Center() == Moved(v, dt, now, solids, semis).hitbox.Center()
  {
  }

  // -------------------------------------------------------------- contact

  /**
   * The probes are integer pygame Rects: position and size lose their
   * fractional part (truncated towards zero) when the strip is built.
   */
  function IntRect(x: real, y: real, w: real, h: real): Rect {
    Rect(Trunc(x) as real, Trunc(y) as real, Trunc(w) as real, Trunc(h) as real)
  }

  /** The 2-px strip under the hitbox. */
  function FloorProbe(hb: Rect): Rect { IntRect(hb.x, hb.Bottom(), hb.w, 2.0) }
  /** The 2-px strip left of the middle half of the hitbox. */
  function LeftProbe(hb: Rect): Rect { IntRect(hb.x - 2.0, hb.y + hb.h / 4.0, 2.0, hb.h / 2.0) }
  /** The 2-px strip right of the middle half of the hitbox. */
  function RightProbe(hb: Rect): Rect { IntRect(hb.Right(), hb.y + hb.h / 4.0, 2.0, hb.h / 2.0) }

  predicate OnFloor(hb: Rect, dy: real, solids: seq<Body>, semis: seq<Body>) {
    CollideList(FloorProbe(hb), Shapes(solids)) >= 0 ||
    (CollideList(FloorProbe(hb), Shapes(semis)) >= 0 && dy >= 0.0)
  }

  /**
   * The floor flag: the floor strip touches a solid, or touches a one-way
   * platform while the player is not moving up. The wall flags test solids only.
   */
  lemma FloorContactIff(hb: Rect, dy: real, solids: seq<Body>, semis: seq<Body>)
    ensures OnFloor(hb, dy, solids, semis) <==>
      (exists i :: 0 <= i < |solids| && Collide(FloorProbe(hb), solids[i].Shape())) ||
      ((exists i :: 0 <= i < |semis| && Collide(FloorProbe(hb), semis[i].Shape())) && dy >= 0.0)
  {
    var a := CollideList(FloorProbe(hb), Shapes(solids));
    var b := CollideList(FloorProbe(hb), Shapes(semis));
    if a >= 0 {
      assert Collide(FloorProbe(hb), solids[a].Shape());
    }
    if b >= 0 {
      assert Collide(FloorProbe(hb), semis[b].Shape());
    }
    if exists i :: 0 <= i < |solids| && Collide(FloorProbe(hb), solids[i].Shape()) {
      var i :| 0 <= i < |solids| && Collide(FloorProbe(hb), solids[i].Shape());
      assert Collide(FloorProbe(hb), Shapes(solids)[i]);
    }
    if exists i :: 0 <= i < |semis| && Collide(FloorProbe(hb), semis[i].Shape()) {
      var i :| 0 <= i < |semis| && Collide(FloorProbe(hb), semis[i].Shape());
      assert Collide(FloorProbe(hb), Shapes(semis)[i]);
    }
  }

  /**
   * Standing exactly on a solid's top counts as floor contact, provided the
   * hitbox is at least a pixel wide and overlaps the solid by more than the
   * one or two pixels the integer strip can lose to truncation.
   */
  lemma StandingOnGround(hb: Rect, dy: real, ground: Body)
    requires hb.w >= 1.0 && ground.Shape().w > 0.0 && ground.Shape().h >= 1.0
    requires hb.Bottom() == ground.Shape().Top()
    requires hb.Left() + 1.0 < ground.Shape().Right() && ground.Shape().Left() + 2.0 < hb.Right()
    ensures OnFloor(hb, dy, [ground], [])
  {
    var p := FloorProbe(hb);
    var g := ground.Shape();
    assert Trunc(2.0) == 2 by { TruncOfInt(2); }
    assert p.w >= 1.0 && p.h == 2.0;
    assert p.Left() < g.Right() && g.Left() < p.Right();
    assert p.Top() < g.Bottom() && g.Top() < p.Bottom();
    CollidePositive(p, g);
    assert Shapes([ground])[0] == g;
  }

  /**
   * The probe's truncation matters: a hitbox whose bottom is at 126.5 has
   * its floor strip at rows 126 and 127 and misses ground whose top is at 128,
   * although the unrounded strip would reach it.
   */
  lemma FractionalBottomMissesGround(ground: Body)
    requires ground.Shape() == Rect(0.0, 128.0, 64.0, 64.0)
    ensures Collide(Rect(0.0, 126.5, 10.0, 2.0), ground.Shape())
    ensures !OnFloor(Rect(0.0, 100.0, 10.0, 26.5), 0.0, [ground], [])
  {
    var hb := Rect(0.0, 100.0, 10.0, 26.5);
    assert Trunc(126.5) == 126;
    assert Trunc(10.0) == 10 by { TruncOfInt(10); }
    assert Trunc(0.0) == 0 by { TruncOfInt(0); }
    assert Trunc(2.0) == 2 by { TruncOfInt(2); }
    assert FloorProbe(hb) == Rect(0.0, 126.0, 10.0, 2.0);
    assert Shapes([ground]) == [ground.Shape()];
    assert !Collide(FloorProbe(hb), ground.Shape());
    assert CollideList(FloorProbe(hb), Shapes([])) < 0;
  }

  /** A moving sprite whose rect meets the floor strip. */
  predicate Rides(b: Body, probe: Rect) {
    b.moving && Collide(b.rect, probe)
  }

  /** The platform: the last moving sprite, solids then one-way platforms, under the floor strip. */
  function LastRider(bodies: seq<Body>, probe: Rect): (r: Option<nat>)
    ensures r.Some? ==> r.value < |bodies| && Rides(bodies[r.value], probe)
    ensures r.Some? ==> forall j :: r.value < j < |bodies| ==> !Rides(bodies[j], probe)
    ensures r.None? ==> forall j :: 0 <= j < |bodies| ==> !Rides(bodies[j], probe)
    decreases |bodies|
  {
    if bodies == [] then None
    else if Rides(bodies[|bodies| - 1], probe) then Some(|bodies| - 1)
    else LastRider(bodies[..|bodies| - 1], probe)
  }

  /** check_contact: the three flags and the platform met by the floor strip. */
  function Contacted(v: PlayerView, solids: seq<Body>, semis: seq<Body>): PlayerView {
    v.(onFloor := OnFloor(v.hitbox, v.direction.y, solids, semis),
       onLeft := CollideList(LeftProbe(v.hitbox), Shapes(solids)) >= 0,
       onRight := CollideList(RightProbe(v.hitbox), Shapes(solids)) >= 0,
       platform := LastRider(solids + semis, FloorProbe(v.hitbox)))
  }

  // ------------------------------------------------------------ animation

  /** get_anim_state. */
  function AnimState(onFloor: bool, onLeft: bool, onRight: bool, attacking: bool, d: Vec): PlayerAnim {
    if onFloor then
      (if attacking then Attack else if d.x == 0.0 then Idle else Run)
    else if attacking then AirAttack
    else if onLeft || onRight then Wall
    else if d.y < 0.0 then Jump
    else Fall
  }

  /** Each animation state holds exactly under its own conditions. */
  lemma AnimStateIff(onFloor: bool, onLeft: bool, onRight: bool, attacking: bool, d: Vec)
    ensures AnimState(onFloor, onLeft, onRight, attacking, d) == Attack <==> onFloor && attacking
    ensures AnimState(onFloor, onLeft, onRight, attacking, d) == Idle <==> onFloor && !attacking && d.x == 0.0
    ensures AnimState(onFloor, onLeft, onRight, attacking, d) == Run <==> onFloor && !attacking && d.x != 0.0
    ensures AnimState(onFloor, onLeft, onRight, attacking, d) == AirAttack <==> !onFloor && attacking
    ensures AnimState(onFloor, onLeft, onRight, attacking, d) == Wall <==>
      !onFloor && !attacking && (onLeft || onRight)
    ensures AnimState(onFloor, onLeft, onRight, attacking, d) == Jump <==>
      !onFloor && !attacking && !onLeft && !onRight && d.y < 0.0
    ensures AnimState(onFloor, onLeft, onRight, attacking, d) == Fall <==>
      !onFloor && !attacking && !onLeft && !onRight && d.y >= 0.0
  {
  }

  /**
   * animate: advance; on the floor the attack state returns to idle once the
   * index reaches the attack frame count; the attacking flag drops once the
   * index passes the frame count of the state now shown.
   */
  function Animated(v: PlayerView, dt: real, frames: PlayerAnim -> nat): PlayerView {
    var fi := v.frameIndex + AnimSpeed as real * dt;
    var st := if v.state == Attack && fi >= frames(Attack) as real then Idle else v.state;
    v.(frameIndex := fi, state := st, attacking := v.attacking && !(fi > frames(st) as real))
  }

  /** The attack animation plays once: past its last frame the player is idle again. */
  lemma AttackReturnsToIdle(v: PlayerView, dt: real, frames: PlayerAnim -> nat)
    requires v.state == Attack && v.frameIndex + AnimSpeed as real * dt >= frames(Attack) as real
    ensures Animated(v, dt, frames).state == Idle
  {
  }

  /** The frame shown: frames[state][int(frame_index) % len]. */
  function PlayerImage(v: PlayerView, frames: PlayerAnim -> nat): (i: int)
    requires frames(v.state) > 0
    ensures 0 <= i < frames(v.state)
  {
    Trunc(v.frameIndex) % frames(v.state)
  }

  // ---------------------------------------------------------------- frame

  /** update_timers: each timer polled in table order; none has a callback. */
  function TimersPolled(v: PlayerView, now: int): PlayerView {
    v.(wallJump := Polled(v.wallJump, now).0,
       wallSlideBlock := Polled(v.wallSlideBlock, now).0,
       platformFall := Polled(v.platformFall, now).0,
       attackBlock := Polled(v.attackBlock, now).0,
       immunity := Polled(v.immunity, now).0)
  }

  /** The first half of update: snapshot the prev rect, poll the timers, read input. */
  function Prepared(v: PlayerView, keys: Keys, now: int): PlayerView {
    Inputted(TimersPolled(v.(oldRect := v.hitbox), now), keys, now)
  }

  /** The state-animated sprite's update: choose the animation state, then animate. */
  function StateAnimated(v: PlayerView, dt: real, frames: PlayerAnim -> nat): PlayerView {
    Animated(v.(state := AnimState(v.onFloor, v.onLeft, v.onRight, v.attacking, v.direction)), dt, frames)
  }

  /** The second half of update: move, sense contact, then the state-animated update. */
  function Advanced(v: PlayerView, dt: real, now: int, solids: seq<Body>, semis: seq<Body>,
                    frames: PlayerAnim -> nat): PlayerView
  {
    StateAnimated(Contacted(Moved(v, dt, now, solids, semis), solids, semis), dt, frames)
  }

  /** update: one whole frame of the player. */
  function Frame(v: PlayerView, keys: Keys, now: int, dt: real,
                 solids: seq<Body>, semis: seq<Body>, frames: PlayerAnim -> nat): PlayerView
  {
    Advanced(Prepared(v, keys, now), dt, now, solids, semis, frames)
  }

  /** The prev rect is the hitbox at the start of the frame, untouched by the rest of it. */
  lemma OldRectSnapshot(v: PlayerView, keys: Keys, now: int, dt: real,
                        solids: seq<Body>, semis: seq<Body>, frames: PlayerAnim -> nat)
    ensures Frame(v, keys, now, dt, solids, semis, frames).oldRect == v.hitbox
    ensures !Frame(v, keys, now, dt, solids, semis, frames).jump
  {
  }

  /** get_damage on values: health and the immunity timer. */
  function Damaged(health: int, immunity: TimerState, now: int): (r: (int, TimerState))
    ensures immunity.active ==> r == (health, immunity)
    ensures !immunity.active ==> r == (health - 1, Activated(immunity, now))
  {
    if immunity.active then (health, immunity) else (health - 1, Activated(immunity, now))
  }

  /** Two hits less than 650 ms apart cost exactly one health. */
  lemma ImmunityWindow(health: int, t: TimerState, t0: int, now: int)
    requires t.duration == ImmunityMs && !t.active && now - t0 < ImmunityMs
    ensures var (h1, t1) := Damaged(health, t, t0);
      Damaged(h1, Polled(t1, now).0, now).0 == health - 1
  {
  }
}
