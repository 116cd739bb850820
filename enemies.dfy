/**
 * The enemies of sprites/enemies.py: the Tooth patrolling a ledge, the Shell
 * that fires pearls at a player in front of it, and the Pearl it fires.
 */
module Enemies {
  import opened Wrappers
  import opened Geometry
  import opened Settings
  import opened Timers
  import opened Sprites

  // -------------------------------------------------------------- reversal

  /**
   * reverse(), shared by Tooth and Pearl: the direction flips only while the
   * 250 ms reverse timer is inactive, and the timer then starts.
   */
  function Reversed(direction: int, t: TimerState, now: int): (r: (int, TimerState))
    ensures t.active ==> r == (direction, t)
    ensures !t.active ==> r == (-direction, Activated(t, now))
  {
    if t.active then (direction, t) else (-direction, Activated(t, now))
  }

  /**
   * A second deflection less than 250 ms after the first cannot flip the
   * direction back: the reverse timer is still active when polled.
   */
  lemma ReverseCooldown(direction: int, t: TimerState, t0: int, now: int)
    requires t.duration == 250 && !t.active
    requires now - t0 < 250
    ensures var (d1, t1) := Reversed(direction, t, t0);
      var (t2, _) := Polled(t1, now);
      Reversed(d1, t2, now) == (-direction, t2)
  {
  }

  // ----------------------------------------------------------------- Tooth

  /** The probe one pixel right of the bottom-right corner. */
  function RightFloorProbe(r: Rect): Rect { Rect(r.Right(), r.Bottom(), 1.0, 1.0) }

  /** The probe of size (-1, 1) at the bottom-left corner: it spans one pixel to the left. */
  function LeftFloorProbe(r: Rect): Rect { Rect(r.Left(), r.Bottom(), -1.0, 1.0) }

  /** The strip one pixel high along the top, one pixel wider on each side. */
  function WallProbe(r: Rect): Rect { Rect(r.x - 1.0, r.y, r.w + 2.0, 1.0) }

  /** The negative-width left probe collides like the pixel just left of the corner. */
  lemma LeftFloorProbeNormalized(r: Rect, o: Rect)
    ensures Collide(LeftFloorProbe(r), o) == Collide(Rect(r.Left() - 1.0, r.Bottom(), 1.0, 1.0), o)
  {
    CollideNormalized(LeftFloorProbe(r), o);
  }

  /** Tooth.collision's test, as written with collidelist. */
  predicate ToothTurns(r: Rect, direction: int, rects: seq<Rect>) {
    (CollideList(RightFloorProbe(r), rects) < 0 && direction > 0) ||
    (CollideList(LeftFloorProbe(r), rects) < 0 && direction < 0) ||
    CollideList(WallProbe(r), rects) != -1
  }

  /**
   * A tooth turns exactly when the floor probe on its leading side touches
   * no collision rect or its wall strip touches one.
   */
  lemma ToothTurnsIff(r: Rect, direction: int, rects: seq<Rect>)
    requires direction == 1 || direction == -1
    ensures ToothTurns(r, direction, rects) <==>
      (direction == 1 && !HitsAny(RightFloorProbe(r), rects)) ||
      (direction == -1 && !HitsAny(LeftFloorProbe(r), rects)) ||
      HitsAny(WallProbe(r), rects)
  {
    var iR := CollideList(RightFloorProbe(r), rects);
    var iL := CollideList(LeftFloorProbe(r), rects);
    var iW := CollideList(WallProbe(r), rects);
    assert iR >= 0 ==> Collide(RightFloorProbe(r), rects[iR]);
    assert iL >= 0 ==> Collide(LeftFloorProbe(r), rects[iL]);
    assert iW >= 0 ==> Collide(WallProbe(r), rects[iW]);
  }

  /** A tooth on a ledge wider than itself, moving right, turns once its right probe leaves the ledge. */
  lemma ToothTurnsAtLedge(r: Rect, ledge: Rect)
    requires r.w > 0.0 && r.h > 0.0 && ledge.w > 0.0 && ledge.h > 0.0
    requires r.Right() >= ledge.Right() && !Collide(WallProbe(r), ledge)
    ensures ToothTurns(r, 1, [ledge])
  {
    CollidePositive(RightFloorProbe(r), ledge);
  }

  class Tooth {
    var rect: Rect
    /** The collision rects as they were when the tooth was built. */
    const collisionRects: seq<Rect>
    var direction: int
    const speed: real
    const reverseTimer: Timer
    var frameIndex: real
    const animSpeed: real
    const frameCount: nat

    ghost predicate Valid()
      reads this
    {
      direction == 1 || direction == -1
    }

    /** `startDirection` is the draw choice((-1, 1)). */
    constructor (pos: Vec, size: Vec, frameCount: nat, collisionRects: seq<Rect>, startDirection: int)
      requires frameCount > 0
      requires startDirection == 1 || startDirection == -1
      ensures Valid() && fresh(reverseTimer)
      ensures rect == Rect(pos.x, pos.y, size.x, size.y)
      ensures this.collisionRects == collisionRects && direction == startDirection
      ensures speed == 200.0 && reverseTimer.State() == Initial(250, false, false)
      ensures frameIndex == 0.0 && animSpeed == AnimSpeed as real && this.frameCount == frameCount
    {
      rect := Rect(pos.x, pos.y, size.x, size.y);
      this.collisionRects := collisionRects;
      direction := startDirection;
      speed := 200.0;
      reverseTimer := new Timer(250, false, false);
      frameIndex := 0.0;
      animSpeed := AnimSpeed as real;
      this.frameCount := frameCount;
    }

    method Move(dt: real)
      modifies this
      ensures rect == old(rect).(x := old(rect).x + direction as real * speed * dt)
      ensures direction == old(direction) && frameIndex == old(frameIndex)
    {
      rect := rect.(x := rect.x + direction as real * speed * dt);
    }

    method Collision()
      modifies this
      ensures direction == if ToothTurns(rect, old(direction), collisionRects) then -old(direction) else old(direction)
      ensures rect == old(rect) && frameIndex == old(frameIndex)
    {
      if ToothTurns(rect, direction, collisionRects) {
        direction := -direction;
      }
    }

    method Reverse(now: int)
      modifies this, reverseTimer
      ensures (direction, reverseTimer.State()) == Reversed(old(direction), old(reverseTimer.State()), now)
      ensures rect == old(rect) && frameIndex == old(frameIndex)
    {
      if !reverseTimer.active {
        direction := -direction;
        reverseTimer.Activate(now);
      }
    }

    /** The image is mirrored while the tooth walks left. */
    predicate Flipped()
      reads this
    {
      direction < 0
    }

    /** update: poll the reverse timer, animate, move, then test the probes. */
    method Update(dt: real, now: int)
      requires Valid()
      modifies this, reverseTimer
      ensures Valid()
      ensures reverseTimer.State() == Polled(old(reverseTimer.State()), now).0
      ensures frameIndex == old(frameIndex) + animSpeed * dt
      ensures rect == old(rect).(x := old(rect).x + old(direction) as real * speed * dt)
      ensures direction == if ToothTurns(rect, old(direction), collisionRects) then -old(direction) else old(direction)
    {
      var _ := reverseTimer.Update(now);
      frameIndex := frameIndex + animSpeed * dt;
      Move(dt);
      Collision();
    }
  }

  // ----------------------------------------------------------------- Shell

  datatype ShellState = Idle | Fire

  /**
   * get_anim_state's sighting test: the player's hitbox centre within 500
   * (compared squared), strictly in front per the bullet direction, and
   * less than 30 apart vertically.
   */
  predicate PlayerSpotted(shell: Vec, player: Vec, bulletDirection: int) {
    var dx := player.x - shell.x;
    var dy := player.y - shell.y;
    dx * dx + dy * dy < 250000.0 &&
    (if bulletDirection > 0 then shell.x < player.x else shell.x > player.x) &&
    Abs(shell.y - player.y) < 30.0
  }

  /** A player level with the shell and 100 in front of it is seen. */
  lemma SpottedInFront(shell: Vec)
    ensures PlayerSpotted(shell, Vec(shell.x + 100.0, shell.y), 1)
    ensures !PlayerSpotted(shell, Vec(shell.x + 100.0, shell.y), -1)
    ensures !PlayerSpotted(shell, Vec(shell.x + 100.0, shell.y + 30.0), 1)
  {
  }

  /** What a shell changes from frame to frame. */
  datatype ShellView = ShellView(state: ShellState, frameIndex: real, hasFired: bool, timer: TimerState)

  /** One frame of the shell's inputs: the tick, the frame time and whether the player is spotted. */
  datatype ShellInput = ShellInput(now: int, dt: real, spotted: bool)

  /** get_anim_state: entering fire restarts the animation and the shoot timer. */
  function Sighted(v: ShellView, spotted: bool, now: int): ShellView {
    if spotted && !v.timer.active then
      v.(state := Fire, frameIndex := 0.0, timer := Activated(v.timer, now))
    else v
  }

  /**
   * animate (with attack inside): the new view and whether a pearl is
   * created. While frames remain, a fire cycle creates its pearl at whole
   * frame 3 unless it already has; when the frames run out the index
   * restarts and a fire cycle ends, clearing has_fired.
   */
  function ShellAnimated(v: ShellView, step: real, idleFrames: nat, fireFrames: nat): (ShellView, bool) {
    var fi := v.frameIndex + step;
    var count := if v.state == Fire then fireFrames else idleFrames;
    if fi < count as real then
      var shoot := v.state == Fire && Trunc(fi) == 3 && !v.hasFired;
      (v.(frameIndex := fi, hasFired := v.hasFired || shoot), shoot)
    else if v.state == Fire then
      (v.(frameIndex := 0.0, state := Idle, hasFired := false), false)
    else
      (v.(frameIndex := 0.0), false)
  }

  /** Shell.update: poll the shoot timer, look for the player, animate. */
  function ShellFrame(v: ShellView, now: int, dt: real, spotted: bool,
                      animSpeed: real, idleFrames: nat, fireFrames: nat): (ShellView, bool) {
    var polled := v.(timer := Polled(v.timer, now).0);
    ShellAnimated(Sighted(polled, spotted, now), animSpeed * dt, idleFrames, fireFrames)
  }

  /** A pearl is created only by a cycle that has not fired yet, and marks it as fired. */
  lemma ShootMarksFired(v: ShellView, i: ShellInput, animSpeed: real, idleFrames: nat, fireFrames: nat)
    ensures var (v1, shoot) := ShellFrame(v, i.now, i.dt, i.spotted, animSpeed, idleFrames, fireFrames);
      shoot ==> !v.hasFired && v1.hasFired && v1.state == Fire && Trunc(v1.frameIndex) == 3
  {
  }

  /** has_fired is cleared only when a fire cycle ends: the state returns to idle at frame 0. */
  lemma FiredClearsOnlyAtCycleEnd(v: ShellView, i: ShellInput, animSpeed: real, idleFrames: nat, fireFrames: nat)
    ensures var (v1, _) := ShellFrame(v, i.now, i.dt, i.spotted, animSpeed, idleFrames, fireFrames);
      v.hasFired && !v1.hasFired ==> v1.state == Idle && v1.frameIndex == 0.0
  {
  }

  /** Runs the shell over a sequence of frames: the last view and the pearls created. */
  function ShellRun(v: ShellView, ins: seq<ShellInput>, animSpeed: real, idleFrames: nat, fireFrames: nat): (ShellView, nat)
    decreases |ins|
  {
    if ins == [] then (v, 0)
    else
      var (v1, shoot) := ShellFrame(v, ins[0].now, ins[0].dt, ins[0].spotted, animSpeed, idleFrames, fireFrames);
      var (v2, n) := ShellRun(v1, ins[1..], animSpeed, idleFrames, fireFrames);
      (v2, n + if shoot then 1 else 0)
  }

  /** Every frame of the run ends with the shell still in its fire cycle. */
  predicate StaysFiring(v: ShellView, ins: seq<ShellInput>, animSpeed: real, idleFrames: nat, fireFrames: nat)
    decreases |ins|
  {
    ins == [] ||
    (var (v1, _) := ShellFrame(v, ins[0].now, ins[0].dt, ins[0].spotted, animSpeed, idleFrames, fireFrames);
     v1.state == Fire && StaysFiring(v1, ins[1..], animSpeed, idleFrames, fireFrames))
  }

  /**
   * At most one pearl per fire cycle: over frames that all stay in the
   * cycle, a cycle that has fired creates none and one that has not
   * creates at most one.
   */
  lemma {:induction false} AtMostOnePearlPerCycle(v: ShellView, ins: seq<ShellInput>,
                                                  animSpeed: real, idleFrames: nat, fireFrames: nat)
    requires StaysFiring(v, ins, animSpeed, idleFrames, fireFrames)
    ensures ShellRun(v, ins, animSpeed, idleFrames, fireFrames).1 <= if v.hasFired then 0 else 1
    decreases |ins|
  {
    if ins != [] {
      var (v1, shoot) := ShellFrame(v, ins[0].now, ins[0].dt, ins[0].spotted, animSpeed, idleFrames, fireFrames);
      ShootMarksFired(v, ins[0], animSpeed, idleFrames, fireFrames);
      assert v.hasFired ==> v1.hasFired;
      AtMostOnePearlPerCycle(v1, ins[1..], animSpeed, idleFrames, fireFrames);
    }
  }

  /** A pearl the shell asks the level to create: the shell's centre and the bullet direction. */
  datatype PearlSpawn = PearlSpawn(pos: Vec, direction: int)

  class Shell {
    const rect: Rect
    const bulletDirection: int
    var state: ShellState
    var frameIndex: real
    const animSpeed: real
    const idleFrames: nat
    const fireFrames: nat
    const shootTimer: Timer
    var hasFired: bool

    function View(): ShellView
      reads this, shootTimer
    {
      ShellView(state, frameIndex, hasFired, shootTimer.State())
    }

    /** A reversed shell faces left and fires with direction -1. */
    constructor (pos: Vec, size: Vec, reverse: bool, idleFrames: nat, fireFrames: nat)
      requires idleFrames > 0 && fireFrames > 0
      ensures fresh(shootTimer)
      ensures rect == Rect(pos.x, pos.y, size.x, size.y)
      ensures bulletDirection == if reverse then -1 else 1
      ensures View() == ShellView(Idle, 0.0, false, Initial(3000, false, false))
      ensures this.idleFrames == idleFrames && this.fireFrames == fireFrames
      ensures animSpeed == AnimSpeed as real
    {
      rect := Rect(pos.x, pos.y, size.x, size.y);
      bulletDirection := if reverse then -1 else 1;
      state := Idle;
      frameIndex := 0.0;
      animSpeed := AnimSpeed as real;
      this.idleFrames := idleFrames;
      this.fireFrames := fireFrames;
      shootTimer := new Timer(3000, false, false);
      hasFired := false;
    }

    method GetAnimState(playerCenter: Vec, now: int)
      modifies this, shootTimer
      ensures View() == Sighted(old(View()), PlayerSpotted(rect.Center(), playerCenter, bulletDirection), now)
    {
      if PlayerSpotted(rect.Center(), playerCenter, bulletDirection) && !shootTimer.active {
        state := Fire;
        frameIndex := 0.0;
        shootTimer.Activate(now);
      }
    }

    method Attack() returns (spawn: Option<PearlSpawn>)
      modifies this
      ensures spawn.Some? <==> old(state) == Fire && Trunc(frameIndex) == 3 && !old(hasFired)
      ensures spawn.Some? ==> spawn.value == PearlSpawn(rect.Center(), bulletDirection)
      ensures hasFired == (old(hasFired) || spawn.Some?)
      ensures state == old(state) && frameIndex == old(frameIndex)
    {
      spawn := None;
      if state == Fire && Trunc(frameIndex) == 3 && !hasFired {
        spawn := Some(PearlSpawn(rect.Center(), bulletDirection));
        hasFired := true;
      }
    }

    method Animate(dt: real) returns (spawn: Option<PearlSpawn>)
      modifies this
      ensures (View(), spawn.Some?) == ShellAnimated(old(View()), animSpeed * dt, idleFrames, fireFrames)
      ensures spawn.Some? ==> spawn.value == PearlSpawn(rect.Center(), bulletDirection)
    {
      frameIndex := frameIndex + animSpeed * dt;
      var count := if state == Fire then fireFrames else idleFrames;
      spawn := None;
      if frameIndex < count as real {
        spawn := Attack();
      } else {
        frameIndex := 0.0;
        if state == Fire {
          state := Idle;
          hasFired := false;
        }
      }
    }

    /** update: the pearl it creates this frame, if any. */
    method Update(dt: real, now: int, playerCenter: Vec) returns (spawn: Option<PearlSpawn>)
      modifies this, shootTimer
      ensures (View(), spawn.Some?) ==
        ShellFrame(old(View()), now, dt, PlayerSpotted(rect.Center(), playerCenter, bulletDirection),
                   animSpeed, idleFrames, fireFrames)
      ensures spawn.Some? ==> spawn.value == PearlSpawn(rect.Center(), bulletDirection)
    {
      var _ := shootTimer.Update(now);
      GetAnimState(playerCenter, now);
      spawn := Animate(dt);
    }
  }

  // ----------------------------------------------------------------- Pearl

  class Pearl {
    var rect: Rect
    var direction: int
    const speed: real
    const lifetime: Timer
    const reverseTimer: Timer
    var alive: bool

    ghost predicate Valid()
      reads this
    {
      lifetime != reverseTimer
    }

    /**
     * Pearl(pos, surf, direction, speed): centred 50 px ahead of pos in its
     * direction, with its 5000 ms lifetime timer started at `now`.
     */
    constructor (pos: Vec, size: Vec, direction: int, speed: real, now: int)
      ensures Valid() && fresh(lifetime) && fresh(reverseTimer)
      ensures rect.Center() == Vec(pos.x + 50.0 * direction as real, pos.y)
      ensures rect.w == size.x && rect.h == size.y
      ensures this.direction == direction && this.speed == speed && alive
      ensures lifetime.State() == Activated(Initial(5000, true, false), now)
      ensures reverseTimer.State() == Initial(250, false, false)
    {
      rect := Rect(pos.x, pos.y, size.x, size.y).WithCenter(Vec(pos.x + 50.0 * direction as real, pos.y));
      this.direction := direction;
      this.speed := speed;
      alive := true;
      lifetime := new Timer(5000, true, false);
      reverseTimer := new Timer(250, false, false);
      new;
      lifetime.Activate(now);
    }

    method Move(dt: real)
      modifies this
      ensures rect == old(rect).(x := old(rect).x + direction as real * speed * dt)
      ensures direction == old(direction) && alive == old(alive)
    {
      rect := rect.(x := rect.x + direction as real * speed * dt);
    }

    method Reverse(now: int)
      requires Valid()
      modifies this, reverseTimer
      ensures (direction, reverseTimer.State()) == Reversed(old(direction), old(reverseTimer.State()), now)
      ensures rect == old(rect) && alive == old(alive)
    {
      if !reverseTimer.active {
        direction := -direction;
        reverseTimer.Activate(now);
      }
    }

    /** update: the timers in table order (lifetime, then reverse), then the move. */
    method Update(dt: real, now: int)
      requires Valid()
      modifies this, lifetime, reverseTimer
      ensures Valid()
      ensures lifetime.State() == Polled(old(lifetime.State()), now).0
      ensures reverseTimer.State() == Polled(old(reverseTimer.State()), now).0
      ensures alive == (old(alive) && !Polled(old(lifetime.State()), now).1)
      ensures rect == old(rect).(x := old(rect).x + direction as real * speed * dt)
      ensures rect.y == old(rect).y && direction == old(direction)
    {
      var expired := lifetime.Update(now);
      if expired {
        alive := false;
      }
      var _ := reverseTimer.Update(now);
      Move(dt);
    }
  }

  /** A pearl fired at a non-zero tick t0 is killed by its first update at or after t0 + 5000. */
  lemma PearlLifetime(t0: int, now: int)
    requires t0 != 0 && now >= t0 + 5000
    ensures Polled(Activated(Initial(5000, true, false), t0), now).1
  {
  }
}
