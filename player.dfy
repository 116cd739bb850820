/**
 * The in-place Player of game/player.py. Every method changes the player's
 * fields and timers exactly as the matching function of module PlayerRules
 * says, so the properties proved there hold of the running player.
 */
module Players {
  import opened Wrappers
  import opened Geometry
  import opened Settings
  import opened Timers
  import opened Progress
  import opened PlayerRules

  class Player {
    var rect: Rect
    var hitbox: Rect
    var oldRect: Rect
    var direction: Vec
    var facingRight: bool
    var jump: bool
    var attacking: bool
    var onFloor: bool
    var onLeft: bool
    var onRight: bool
    /** The riding platform, as an index into the solids followed by the one-way platforms. */
    var platform: Option<nat>
    var state: PlayerAnim
    var frameIndex: real
    /** The frame count of each animation state. */
    const frames: PlayerAnim -> nat
    const data: Data
    const wallJump: Timer
    const wallSlideBlock: Timer
    const platformFall: Timer
    const attackBlock: Timer
    const immunity: Timer

    ghost predicate Valid()
      reads this
    {
      wallJump != wallSlideBlock && wallJump != platformFall && wallJump != attackBlock &&
      wallJump != immunity && wallSlideBlock != platformFall && wallSlideBlock != attackBlock &&
      wallSlideBlock != immunity && platformFall != attackBlock && platformFall != immunity &&
      attackBlock != immunity
    }

    function View(): PlayerView
      reads this, wallJump, wallSlideBlock, platformFall, attackBlock, immunity
    {
      PlayerView(rect, hitbox, oldRect, direction, facingRight, jump, attacking,
                 onFloor, onLeft, onRight, platform, state, frameIndex,
                 wallJump.State(), wallSlideBlock.State(), platformFall.State(),
                 attackBlock.State(), immunity.State())
    }

    /** Player(pos, frames, data, ...): the image rect at pos, idle, with five fresh timers. */
    constructor (pos: Vec, size: Vec, frames: PlayerAnim -> nat, data: Data)
      ensures Valid() && View() == InitialView(pos, size)
      ensures this.frames == frames && this.data == data
      ensures fresh(wallJump) && fresh(wallSlideBlock) && fresh(platformFall)
      ensures fresh(attackBlock) && fresh(immunity)
    {
      rect := Rect(pos.x, pos.y, size.x, size.y);
      hitbox := Rect(pos.x, pos.y, size.x, size.y).Inflate(-76.0, -36.0);
      oldRect := Rect(pos.x, pos.y, size.x, size.y).Inflate(-76.0, -36.0);
      direction := Zero;
      facingRight := true;
      jump := false;
      attacking := false;
      onFloor := false;
      onLeft := false;
      onRight := false;
      platform := None;
      state := Idle;
      frameIndex := 0.0;
      this.frames := frames;
      this.data := data;
      wallJump := new Timer(WallJumpMs, false, false);
      wallSlideBlock := new Timer(WallSlideBlockMs, false, false);
      platformFall := new Timer(PlatformFallMs, false, false);
      attackBlock := new Timer(AttackBlockMs, false, false);
      immunity := new Timer(ImmunityMs, false, false);
    }

    method Attack(now: int)
      requires Valid()
      modifies this, attackBlock
      ensures View() == Attacked(old(View()), now)
    {
      if !attackBlock.active {
        attacking := true;
        frameIndex := 0.0;
        attackBlock.Activate(now);
      }
    }

    method Input(keys: Keys, now: int)
      requires Valid()
      modifies this, platformFall, attackBlock
      ensures View() == Inputted(old(View()), keys, now)
    {
      if !wallJump.active {
        Steer(keys, now);
      }
      if keys.jump {
        jump := true;
      }
    }

    /** The part of input that a wall jump locks out. */
    method Steer(keys: Keys, now: int)
      requires Valid()
      modifies this, platformFall, attackBlock
      ensures View() == Steered(old(View()), keys, now)
    {
      var inputX := 0;
      var facing := facingRight;
      if keys.right {
        inputX := inputX + 1;
        facing := true;
      }
      if keys.left {
        inputX := inputX - 1;
        facing := false;
      }
      ghost var v := View();
      facingRight := facing;
      assert View() == Faced(v, keys);
      if keys.down {
        platformFall.Activate(now);
      }
      ghost var w := View();
      assert w == FallKeyed(Faced(v, keys), keys, now);
      if keys.attack {
        Attack(now);
      }
      ghost var u := View();
      assert u == AttackKeyed(w, keys, now);
      direction := Vec(inputX as real, direction.y);
    }

    /** collision("x"): each solid in turn, against the hitbox as the previous ones left it. */
    method CollisionX(solids: seq<Body>)
      modifies this
      ensures View() == ResolvedViewX(old(View()), solids)
    {
      var hb := hitbox;
      var i := 0;
      while i < |solids|
        invariant 0 <= i <= |solids|
        invariant hb == ResolvedX(hitbox, oldRect, solids[..i])
      {
        var s := solids[i];
        var sr := s.Shape();
        assert solids[..i + 1][..i] == solids[..i];
        if Collide(sr, hb) {
          if hb.Left() <= sr.Right() && Trunc(oldRect.Left()) >= Trunc(s.oldRect.Right()) {
            hb := hb.WithLeft(sr.Right());
          }
          if hb.Right() >= sr.Left() && Trunc(oldRect.Right()) <= Trunc(s.oldRect.Left()) {
            hb := hb.WithRight(sr.Left());
          }
        }
        i := i + 1;
      }
      assert solids[..|solids|] == solids;
      hitbox := hb;
    }

    /** collision("y"). */
    method CollisionY(solids: seq<Body>)
      modifies this
      ensures View() == ResolvedViewY(old(View()), solids)
    {
      var hb, d := hitbox, direction;
      var i := 0;
      while i < |solids|
        invariant 0 <= i <= |solids|
        invariant (hb, d) == ResolvedY(hitbox, direction, oldRect, solids[..i])
      {
        var s := solids[i];
        var sr := s.Shape();
        assert solids[..i + 1][..i] == solids[..i];
        if Collide(sr, hb) {
          if hb.Top() <= sr.Bottom() && Trunc(oldRect.Top()) >= Trunc(s.oldRect.Bottom()) {
            hb := hb.WithTop(sr.Bottom());
            if s.moving {
              hb := hb.WithTop(hb.Top() + 6.0);
            }
          }
          if hb.Bottom() >= sr.Top() && Trunc(oldRect.Bottom()) <= Trunc(s.oldRect.Top()) {
            hb := hb.WithBottom(sr.Top());
          }
          d := d.(y := 0.0);
        }
        i := i + 1;
      }
      assert solids[..|solids|] == solids;
      hitbox, direction := hb, d;
    }

    /** semi_collision: nothing at all while the fall-through timer runs. */
    method SemiCollision(semis: seq<Body>)
      modifies this
      ensures View() == ResolvedViewSemi(old(View()), semis)
    {
      if !platformFall.active {
        var hb, d := hitbox, direction;
        var i := 0;
        while i < |semis|
          invariant 0 <= i <= |semis|
          invariant (hb, d) == ResolvedSemi(hitbox, direction, oldRect, semis[..i])
        {
          var s := semis[i];
          assert semis[..i + 1][..i] == semis[..i];
          if Collide(s.rect, hb) {
            if hb.Bottom() >= s.rect.Top() && Trunc(oldRect.Bottom()) as real <= s.oldRect.Top() {
              hb := hb.WithBottom(s.rect.Top());
              if d.y > 0.0 {
                d := d.(y := 0.0);
              }
            }
          }
          i := i + 1;
        }
        assert semis[..|semis|] == semis;
        hitbox, direction := hb, d;
      }
    }

    method Move(dt: real, now: int, solids: seq<Body>, semis: seq<Body>)
      requires Valid()
      modifies this, wallJump, wallSlideBlock
      ensures View() == Moved(old(View()), dt, now, solids, semis)
    {
      MoveX(dt, solids);
      MoveY(dt, now, solids, semis);
      CentreRect();
      Carry(dt, solids + semis);
    }

    /** The image rect re-centred on the hitbox. */
    method CentreRect()
      modifies this
      ensures View() == Centred(old(View()))
    {
      rect := rect.WithCenter(hitbox.Center());
    }

    /** move's x axis: the horizontal step, then collision("x"). */
    method MoveX(dt: real, solids: seq<Body>)
      modifies this
      ensures View() == ResolvedViewX(SteppedX(old(View()), dt), solids)
    {
      ghost var v := View();
      hitbox := hitbox.(x := hitbox.x + direction.x * Speed * dt);
      assert View() == SteppedX(v, dt);
      CollisionX(solids);
    }

    /** move's y axis: the vertical step, the jump, then collision("y") and semi_collision. */
    method MoveY(dt: real, now: int, solids: seq<Body>, semis: seq<Body>)
      requires Valid()
      modifies this, wallJump, wallSlideBlock
      ensures View() == ResolvedViewSemi(ResolvedViewY(Launched(Fell(old(View()), dt), now), solids), semis)
    {
      Fall(dt);
      JumpStart(now);
      CollisionY(solids);
      SemiCollision(semis);
    }

    /** The moving-platform carry at the end of move: the platform's direction * speed * dt. */
    method Carry(dt: real, bodies: seq<Body>)
      modifies this
      ensures View() == CarriedView(old(View()), bodies, dt)
    {
      if platform.Some? && platform.value < |bodies| {
        hitbox := hitbox.Moved(bodies[platform.value].velocity.Scale(dt));
      }
    }

    /** move's vertical step: sliding down a wall, or falling under gravity. */
    method Fall(dt: real)
      modifies this
      ensures View() == Fell(old(View()), dt)
    {
      var onWall := onLeft || onRight;
      if !onFloor && onWall && !wallSlideBlock.active {
        direction := direction.(y := 0.0);
        hitbox := hitbox.(y := hitbox.y + Gravity / 10.0 * dt);
      } else {
        direction := direction.(y := direction.y + Gravity / 2.0 * dt);
        hitbox := hitbox.(y := hitbox.y + direction.y * dt);
        direction := direction.(y := direction.y + Gravity / 2.0 * dt);
      }
    }

    /** move's jump: from the floor, else off a wall outside the wall-slide block; the request is consumed. */
    method JumpStart(now: int)
      requires Valid()
      modifies this, wallJump, wallSlideBlock
      ensures View() == Launched(old(View()), now)
    {
      var onWall := onLeft || onRight;
      if jump {
        if onFloor {
          direction := direction.(y := -JumpHeight);
          wallSlideBlock.Activate(now);
          hitbox := hitbox.WithBottom(hitbox.Bottom() - 1.0);
        } else if onWall && !wallSlideBlock.active {
          wallJump.Activate(now);
          direction := direction.(y := -JumpHeight);
          direction := direction.(x := if onLeft then 1.0 else -1.0);
        }
        jump := false;
      }
    }

    /** check_contact: the three contact flags, then the platform. */
    method CheckContact(solids: seq<Body>, semis: seq<Body>)
      modifies this
      ensures View() == Contacted(old(View()), solids, semis)
    {
      ghost var v := View();
      var floorProbe := FloorProbe(hitbox);
      var rider := FindPlatform(solids + semis, floorProbe);
      var floor := OnFloor(hitbox, direction.y, solids, semis);
      var left := CollideList(LeftProbe(hitbox), Shapes(solids)) >= 0;
      var right := CollideList(RightProbe(hitbox), Shapes(solids)) >= 0;
      assert Contacted(v, solids, semis) == v.(onFloor := floor, onLeft := left, onRight := right, platform := rider);
      onFloor, onLeft, onRight, platform := floor, left, right, rider;
    }

    method GetAnimState()
      modifies this
      ensures View() == old(View()).(state := AnimState(onFloor, onLeft, onRight, attacking, direction))
    {
      if onFloor {
        if attacking {
          state := PlayerAnim.Attack;
        } else {
          state := if direction.x == 0.0 then Idle else Run;
        }
      } else if attacking {
        state := AirAttack;
      } else if onLeft || onRight {
        state := Wall;
      } else {
        state := if direction.y < 0.0 then PlayerAnim.Jump else PlayerAnim.Fall;
      }
    }

    /** The state-animated sprite's update: choose the animation state, then animate. */
    method StateUpdate(dt: real)
      modifies this
      ensures View() == StateAnimated(old(View()), dt, frames)
    {
      GetAnimState();
      Animate(dt);
    }

    method Animate(dt: real)
      modifies this
      ensures View() == Animated(old(View()), dt, frames)
    {
      frameIndex := frameIndex + AnimSpeed as real * dt;
      if state == PlayerAnim.Attack && frameIndex >= frames(PlayerAnim.Attack) as real {
        state := Idle;
      }
      if attacking && frameIndex > frames(state) as real {
        attacking := false;
      }
    }

    /** The frame on show, mirrored when facing left. */
    function Image(): (i: int)
      requires frames(state) > 0
      reads this, wallJump, wallSlideBlock, platformFall, attackBlock, immunity
      ensures 0 <= i < frames(state)
    {
      PlayerImage(View(), frames)
    }

    /** get_damage: one health through the setter, only outside the immunity window. */
    method GetDamage(now: int)
      modifies data, immunity
      ensures (data.health, immunity.State()) == Damaged(old(data.health), old(immunity.State()), now)
      ensures !old(immunity.active) ==> data.uiCalls == old(data.uiCalls) + [CreateHearts(data.health)]
      ensures old(immunity.active) ==> data.uiCalls == old(data.uiCalls)
      ensures data.coins == old(data.coins) && data.LevelsUnchanged()
    {
      if !immunity.active {
        data.SetHealth(data.health - 1);
        immunity.Activate(now);
      }
    }

    method UpdateTimers(now: int)
      requires Valid()
      modifies wallJump, wallSlideBlock, platformFall, attackBlock, immunity
      ensures View() == TimersPolled(old(View()), now)
    {
      var _ := wallJump.Update(now);
      var _ := wallSlideBlock.Update(now);
      var _ := platformFall.Update(now);
      var _ := attackBlock.Update(now);
      var _ := immunity.Update(now);
    }

    /** update: one frame of the player, exactly as Frame describes it. */
    method Update(keys: Keys, now: int, dt: real, solids: seq<Body>, semis: seq<Body>)
      requires Valid()
      modifies this, wallJump, wallSlideBlock, platformFall, attackBlock, immunity
      ensures View() == Frame(old(View()), keys, now, dt, solids, semis, frames)
    {
      ghost var v := View();
      oldRect := hitbox;
      UpdateTimers(now);
      Input(keys, now);
      assert View() == Prepared(v, keys, now);
      Move(dt, now, solids, semis);
      CheckContact(solids, semis);
      StateUpdate(dt);
    }
  }

  /** check_contact's platform pass: every moving sprite under the floor strip replaces the last one found. */
  method FindPlatform(bodies: seq<Body>, probe: Rect) returns (rider: Option<nat>)
    ensures rider == LastRider(bodies, probe)
  {
    rider := None;
    var i := 0;
    while i < |bodies|
      invariant 0 <= i <= |bodies|
      invariant rider == LastRider(bodies[..i], probe)
    {
      assert bodies[..i + 1][..i] == bodies[..i];
      if bodies[i].moving && Collide(bodies[i].rect, probe) {
        rider := Some(i);
      }
      i := i + 1;
    }
    assert bodies[..|bodies|] == bodies;
  }
}
