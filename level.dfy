/**
 * The interaction pass of game/level.py: after every sprite has moved, the
 * level destroys pearls that hit a solid, hurts the player on every hazard
 * it touches, hands out at most one pickup, lets the player's attack turn
 * pearls and teeth round, keeps the player inside the level horizontally and
 * asks the game to leave the level when the player falls out or reaches the
 * flag.
 *
 * The sprites the pass touches are kept per kind, each sequence in the order
 * the level created them: the solid bodies, the hazards that are neither
 * teeth nor pearls (floor spikes, spiked balls, saws), the teeth, the pearls
 * and the items. The damage group is therefore the hazards, then the teeth,
 * then the pearls.
 */
module Levels {
  import opened Wrappers
  import opened Geometry
  import opened Settings
  import opened Timers
  import opened Progress
  import opened PlayerRules
  import opened Players
  import opened Sprites
  import opened Enemies

  /** What the pass needs of a tooth or a pearl: its rect, direction and reverse timer. */
  datatype Target = Target(rect: Rect, direction: int, reverseTimer: TimerState)

  function Rects(ts: seq<Target>): (r: seq<Rect>)
    ensures |r| == |ts|
    ensures forall i :: 0 <= i < |ts| ==> r[i] == ts[i].rect
  {
    seq(|ts|, i requires 0 <= i < |ts| => ts[i].rect)
  }

  // ------------------------------------------------------ pearls vs solids

  /** spritecollide(solid, pearls, True): the pearls the solid rect r does not meet, in order. */
  function Missing(ts: seq<Target>, r: Rect): (m: seq<Target>)
    ensures |m| <= |ts|
    ensures forall t :: t in m ==> t in ts && !Collide(r, t.rect)
    decreases |ts|
  {
    if ts == [] then []
    else
      var last := ts[|ts| - 1];
      Missing(ts[..|ts| - 1], r) + (if Collide(r, last.rect) then [] else [last])
  }

  /** The first pearl the solid rect r meets, in group order. */
  function FirstHit(ts: seq<Target>, r: Rect): (f: Option<Target>)
    ensures f.Some? ==> f.value in ts && Collide(r, f.value.rect)
    ensures f.None? ==> forall t :: t in ts ==> !Collide(r, t.rect)
    decreases |ts|
  {
    if ts == [] then None
    else
      var first := FirstHit(ts[..|ts| - 1], r);
      if first.Some? then first
      else if Collide(r, ts[|ts| - 1].rect) then Some(ts[|ts| - 1])
      else None
  }

  /** The pearls left after each solid, in group order, has destroyed those it meets. */
  function Smashed(pearls: seq<Target>, solids: seq<Rect>): seq<Target>
    decreases |solids|
  {
    if solids == [] then pearls
    else Missing(Smashed(pearls, solids[..|solids| - 1]), solids[|solids| - 1])
  }

  /** The particle effect a solid leaves at the centre of the first pearl it destroyed. */
  function Spark(f: Option<Target>): seq<Vec> {
    if f.Some? then [f.value.rect.Center()] else []
  }

  /** The particle effects the solids leave, one per solid that destroyed a pearl. */
  function SmashSparks(pearls: seq<Target>, solids: seq<Rect>): seq<Vec>
    decreases |solids|
  {
    if solids == [] then []
    else
      var init := solids[..|solids| - 1];
      SmashSparks(pearls, init) + Spark(FirstHit(Smashed(pearls, init), solids[|solids| - 1]))
  }

  /** Some solid meets the rect. */
  predicate Blocked(r: Rect, solids: seq<Rect>) {
    exists j :: 0 <= j < |solids| && Collide(solids[j], r)
  }

  /** The reference: the pearls no solid meets, in their original order. */
  function Clear(pearls: seq<Target>, solids: seq<Rect>): seq<Target>
    decreases |pearls|
  {
    if pearls == [] then []
    else
      var last := pearls[|pearls| - 1];
      Clear(pearls[..|pearls| - 1], solids) + (if Blocked(last.rect, solids) then [] else [last])
  }

  /** Removing a further solid's pearls from the clear pearls is clearing against one more solid. */
  lemma {:induction false} MissingClear(pearls: seq<Target>, solids: seq<Rect>, s: Rect)
    ensures Missing(Clear(pearls, solids), s) == Clear(pearls, solids + [s])
    decreases |pearls|
  {
    if pearls != [] {
      var init := pearls[..|pearls| - 1];
      var last := pearls[|pearls| - 1];
      MissingClear(init, solids, s);
      assert Blocked(last.rect, solids + [s]) <==> Blocked(last.rect, solids) || Collide(s, last.rect) by {
        if Collide(s, last.rect) {
          assert (solids + [s])[|solids|] == s;
        }
        if Blocked(last.rect, solids + [s]) {
          var j :| 0 <= j < |solids + [s]| && Collide((solids + [s])[j], last.rect);
          if j < |solids| {
            assert (solids + [s])[j] == solids[j];
          }
        }
        if Blocked(last.rect, solids) {
          var j :| 0 <= j < |solids| && Collide(solids[j], last.rect);
          assert (solids + [s])[j] == solids[j];
        }
      }
      var c := Clear(init, solids);
      var tail := if Blocked(last.rect, solids) then [] else [last];
      MissingAppend(c, tail, s);
    }
  }

  lemma {:induction false} MissingAppend(a: seq<Target>, b: seq<Target>, r: Rect)
    ensures Missing(a + b, r) == Missing(a, r) + Missing(b, r)
    decreases |b|
  {
    if b == [] {
      assert a + b == a;
    } else {
      var binit := b[..|b| - 1];
      assert (a + b)[..|a + b| - 1] == a + binit;
      assert (a + b)[|a + b| - 1] == b[|b| - 1];
      MissingAppend(a, binit, r);
    }
  }

  /**
   * The solids, one after another, destroy exactly the pearls some solid
   * meets: the pearls left are the clear pearls, in their original order.
   */
  lemma {:induction false} SmashedIsClear(pearls: seq<Target>, solids: seq<Rect>)
    ensures Smashed(pearls, solids) == Clear(pearls, solids)
    decreases |solids|
  {
    if solids == [] {
      ClearEmpty(pearls);
    } else {
      var init := solids[..|solids| - 1];
      SmashedIsClear(pearls, init);
      MissingClear(pearls, init, solids[|solids| - 1]);
      assert init + [solids[|solids| - 1]] == solids;
    }
  }

  lemma {:induction false} ClearEmpty(pearls: seq<Target>)
    ensures Clear(pearls, []) == pearls
    decreases |pearls|
  {
    if pearls != [] {
      ClearEmpty(pearls[..|pearls| - 1]);
      assert !Blocked(pearls[|pearls| - 1].rect, []);
      assert pearls[..|pearls| - 1] + [pearls[|pearls| - 1]] == pearls;
    }
  }

  /** A pearl survives the pass iff it was there and no solid meets it. */
  lemma {:induction false} ClearIff(pearls: seq<Target>, solids: seq<Rect>, t: Target)
    ensures t in Clear(pearls, solids) <==> t in pearls && !Blocked(t.rect, solids)
    decreases |pearls|
  {
    if pearls != [] {
      var init := pearls[..|pearls| - 1];
      ClearIff(init, solids, t);
      assert pearls == init + [pearls[|pearls| - 1]];
    }
  }

  /** Each solid leaves at most one particle effect, and only a solid that destroyed a pearl. */
  lemma {:induction false} SparksPerSolid(pearls: seq<Target>, solids: seq<Rect>)
    ensures |SmashSparks(pearls, solids)| + |Smashed(pearls, solids)| <= |pearls|
    ensures |SmashSparks(pearls, solids)| <= |solids|
    decreases |solids|
  {
    if solids != [] {
      var init := solids[..|solids| - 1];
      var s := solids[|solids| - 1];
      SparksPerSolid(pearls, init);
      var before := Smashed(pearls, init);
      if FirstHit(before, s).Some? {
        MissingLoses(before, s);
      }
    }
  }

  /** A solid that meets some pearl removes at least that one. */
  lemma {:induction false} MissingLoses(ts: seq<Target>, r: Rect)
    requires FirstHit(ts, r).Some?
    ensures |Missing(ts, r)| < |ts|
    decreases |ts|
  {
    var init := ts[..|ts| - 1];
    if FirstHit(init, r).Some? {
      MissingLoses(init, r);
    }
  }

  // --------------------------------------------------------------- damage

  /** The player's get_damage called for each damage rect, in order, that meets the hitbox. */
  function Hurt(health: int, immunity: TimerState, rects: seq<Rect>, hb: Rect, now: int): (int, TimerState)
    decreases |rects|
  {
    if rects == [] then (health, immunity)
    else
      var before := Hurt(health, immunity, rects[..|rects| - 1], hb, now);
      if Collide(rects[|rects| - 1], hb) then Damaged(before.0, before.1, now) else before
  }

  /** The hearts redrawn by those calls: one redraw per call that actually cost health. */
  function HurtCalls(health: int, immunity: TimerState, rects: seq<Rect>, hb: Rect, now: int): seq<UiCall>
    decreases |rects|
  {
    if rects == [] then []
    else
      var init := rects[..|rects| - 1];
      var before := Hurt(health, immunity, init, hb, now);
      HurtCalls(health, immunity, init, hb, now) +
        (if Collide(rects[|rects| - 1], hb) && !before.1.active then [CreateHearts(before.0 - 1)] else [])
  }

  /** Some damage rect meets the hitbox. */
  predicate Touched(rects: seq<Rect>, hb: Rect) {
    exists j :: 0 <= j < |rects| && Collide(rects[j], hb)
  }

  /**
   * However many hazards the player touches in one pass, it loses at most
   * one health: exactly one when it touches any while not immune, and the
   * hearts are redrawn once with the new health.
   */
  lemma {:induction false} OneHealthPerPass(health: int, immunity: TimerState, rects: seq<Rect>, hb: Rect, now: int)
    ensures Hurt(health, immunity, rects, hb, now) ==
      if Touched(rects, hb) then Damaged(health, immunity, now) else (health, immunity)
    ensures HurtCalls(health, immunity, rects, hb, now) ==
      if Touched(rects, hb) && !immunity.active then [CreateHearts(health - 1)] else []
    decreases |rects|
  {
    if rects != [] {
      var init := rects[..|rects| - 1];
      var last := rects[|rects| - 1];
      OneHealthPerPass(health, immunity, init, hb, now);
      assert Touched(rects, hb) <==> Touched(init, hb) || Collide(last, hb) by {
        if Touched(rects, hb) {
          var j :| 0 <= j < |rects| && Collide(rects[j], hb);
          if j < |init| {
            assert rects[j] == init[j];
          }
        }
        if Touched(init, hb) {
          var j :| 0 <= j < |init| && Collide(init[j], hb);
          assert rects[j] == init[j];
        }
      }
    }
  }

  /** While the immunity timer runs nothing the player touches costs health. */
  lemma ImmuneTakesNothing(health: int, immunity: TimerState, rects: seq<Rect>, hb: Rect, now: int)
    requires immunity.active
    ensures Hurt(health, immunity, rects, hb, now) == (health, immunity)
  {
    OneHealthPerPass(health, immunity, rects, hb, now);
  }

  /** The pearls that do not meet the hitbox: every pearl that hurts the player is destroyed. */
  function Unspent(pearls: seq<Target>, hb: Rect): (m: seq<Target>)
    ensures |m| <= |pearls|
    decreases |pearls|
  {
    if pearls == [] then []
    else
      var last := pearls[|pearls| - 1];
      Unspent(pearls[..|pearls| - 1], hb) + (if Collide(last.rect, hb) then [] else [last])
  }

  /** A pearl outlives the damage pass iff it does not meet the hitbox, immune or not. */
  lemma {:induction false} UnspentIff(pearls: seq<Target>, hb: Rect, t: Target)
    ensures t in Unspent(pearls, hb) <==> t in pearls && !Collide(t.rect, hb)
    decreases |pearls|
  {
    if pearls != [] {
      var init := pearls[..|pearls| - 1];
      UnspentIff(init, hb, t);
      assert pearls == init + [pearls[|pearls| - 1]];
    }
  }

  /** The particle effects of the destroyed pearls, at their centres, in order. */
  function SpentSparks(pearls: seq<Target>, hb: Rect): (s: seq<Vec>)
    ensures |s| + |Unspent(pearls, hb)| == |pearls|
    decreases |pearls|
  {
    if pearls == [] then []
    else
      var last := pearls[|pearls| - 1];
      SpentSparks(pearls[..|pearls| - 1], hb) + (if Collide(last.rect, hb) then [last.rect.Center()] else [])
  }

  // -------------------------------------------------------------- pickups

  /** spritecollide(player, items, True): the items the hitbox does not meet. */
  function Uncollected(items: seq<Item>, hb: Rect): (m: seq<Item>)
    ensures |m| <= |items|
    decreases |items|
  {
    if items == [] then []
    else
      var last := items[|items| - 1];
      Uncollected(items[..|items| - 1], hb) + (if Collide(hb, last.rect) then [] else [last])
  }

  /** An item stays iff the hitbox does not meet it. */
  lemma {:induction false} UncollectedIff(items: seq<Item>, hb: Rect, it: Item)
    ensures it in Uncollected(items, hb) <==> it in items && !Collide(hb, it.rect)
    decreases |items|
  {
    if items != [] {
      var init := items[..|items| - 1];
      UncollectedIff(init, hb, it);
      assert items == init + [items[|items| - 1]];
    }
  }

  /** The first item, in group order, the hitbox meets: the only one activated. */
  function FirstPicked(items: seq<Item>, hb: Rect): (f: Option<Item>)
    ensures f.Some? ==> f.value in items && Collide(hb, f.value.rect)
    decreases |items|
  {
    if items == [] then None
    else
      var first := FirstPicked(items[..|items| - 1], hb);
      if first.Some? then first
      else if Collide(hb, items[|items| - 1].rect) then Some(items[|items| - 1])
      else None
  }

  /**
   * Every item the hitbox meets goes, but only the first is activated;
   * there is a first exactly when some item was met.
   */
  lemma {:induction false} PickupRemovesAll(items: seq<Item>, hb: Rect)
    ensures FirstPicked(items, hb).Some? <==> |Uncollected(items, hb)| < |items|
    ensures FirstPicked(items, hb).Some? ==>
      forall j :: 0 <= j < |items| && items[j] == FirstPicked(items, hb).value ==>
        exists k :: 0 <= k <= j && Collide(hb, items[k].rect)
    decreases |items|
  {
    if items != [] {
      var init := items[..|items| - 1];
      PickupRemovesAll(init, hb);
      if FirstPicked(items, hb).Some? {
        var f := FirstPicked(items, hb).value;
        forall j | 0 <= j < |items| && items[j] == f
          ensures exists k :: 0 <= k <= j && Collide(hb, items[k].rect)
        {
          assert Collide(hb, items[j].rect);
        }
      }
    }
  }

  /** The first pickup is the earliest item the hitbox meets. */
  lemma {:induction false} FirstPickedIsEarliest(items: seq<Item>, hb: Rect)
    ensures FirstPicked(items, hb).Some? ==>
      exists j :: 0 <= j < |items| && items[j] == FirstPicked(items, hb).value &&
        forall k :: 0 <= k < j ==> !Collide(hb, items[k].rect)
    ensures FirstPicked(items, hb).None? ==> forall k :: 0 <= k < |items| ==> !Collide(hb, items[k].rect)
    decreases |items|
  {
    if items != [] {
      var init := items[..|items| - 1];
      FirstPickedIsEarliest(init, hb);
      if FirstPicked(init, hb).Some? {
        var j :| 0 <= j < |init| && init[j] == FirstPicked(init, hb).value &&
          forall k :: 0 <= k < j ==> !Collide(hb, init[k].rect);
        assert items[j] == init[j];
        assert forall k :: 0 <= k < j ==> items[k] == init[k];
      } else {
        assert forall k :: 0 <= k < |init| ==> items[k] == init[k];
      }
    }
  }

  // ---------------------------------------------------------------- melee

  /** facing_target: strictly to the right while facing right, or strictly to the left while facing left. */
  predicate FacingTarget(player: Rect, facingRight: bool, target: Rect) {
    (player.CenterX() < target.CenterX() && facingRight) ||
    (player.CenterX() > target.CenterX() && !facingRight)
  }

  /** The target is turned round: it meets the player's image rect during an attack, on the facing side. */
  predicate Struck(player: Rect, facingRight: bool, attacking: bool, target: Rect) {
    Collide(target, player) && attacking && FacingTarget(player, facingRight, target)
  }

  /** A target straight above or below the player's centre is never struck, whichever way it faces. */
  lemma EqualCentresNeverStruck(player: Rect, facingRight: bool, attacking: bool, target: Rect)
    requires player.CenterX() == target.CenterX()
    ensures !Struck(player, facingRight, attacking, target)
  {
  }

  /** The player strikes a target it overlaps and faces iff it is attacking. */
  lemma StruckIff(player: Rect, facingRight: bool, attacking: bool, target: Rect)
    ensures Struck(player, facingRight, attacking, target) <==>
      attacking && Collide(target, player) &&
      (if facingRight then player.CenterX() < target.CenterX() else target.CenterX() < player.CenterX())
  {
  }

  /** target.reverse() on a struck target, nothing otherwise. */
  function Deflected(t: Target, player: Rect, facingRight: bool, attacking: bool, now: int): (r: Target)
    ensures r.rect == t.rect
    ensures !Struck(player, facingRight, attacking, t.rect) ==> r == t
    ensures Struck(player, facingRight, attacking, t.rect) ==>
      (r.direction, r.reverseTimer) == Reversed(t.direction, t.reverseTimer, now)
  {
    if Struck(player, facingRight, attacking, t.rect) then
      var (d, timer) := Reversed(t.direction, t.reverseTimer, now);
      Target(t.rect, d, timer)
    else t
  }

  function DeflectedAll(ts: seq<Target>, player: Rect, facingRight: bool, attacking: bool, now: int): (r: seq<Target>)
    ensures |r| == |ts|
    ensures forall i :: 0 <= i < |ts| ==> r[i] == Deflected(ts[i], player, facingRight, attacking, now)
  {
    seq(|ts|, i requires 0 <= i < |ts| => Deflected(ts[i], player, facingRight, attacking, now))
  }

  /** A struck target turns round at most once in 250 ms, however often it is struck. */
  lemma DeflectOnceInCooldown(t: Target, player: Rect, facingRight: bool, t0: int, now: int)
    requires t.reverseTimer.duration == 250 && !t.reverseTimer.active && now - t0 < 250
    requires Struck(player, facingRight, true, t.rect)
    ensures var first := Deflected(t, player, facingRight, true, t0);
      var polled := first.(reverseTimer := Polled(first.reverseTimer, now).0);
      Deflected(polled, player, facingRight, true, now).direction == -t.direction
  {
    ReverseCooldown(t.direction, t.reverseTimer, t0, now);
  }

  // -------------------------------------------------------------- borders

  /** The horizontal border rule: a left edge at or past 0 goes to 0, else a right edge at or past the width goes to the width. */
  function Clamped(hb: Rect, levelWidth: real): (r: Rect)
    ensures r.w == hb.w && r.h == hb.h && r.y == hb.y
    ensures hb.Left() <= 0.0 ==> r.Left() == 0.0
    ensures 0.0 < hb.Left() && hb.Right() >= levelWidth ==> r.Right() == levelWidth
    ensures 0.0 < hb.Left() && hb.Right() < levelWidth ==> r == hb
  {
    if hb.Left() <= 0.0 then hb.WithLeft(0.0)
    else if hb.Right() >= levelWidth then hb.WithRight(levelWidth)
    else hb
  }

  /** A hitbox no wider than the level ends up inside [0, level width]. */
  lemma ClampedInside(hb: Rect, levelWidth: real)
    requires 0.0 <= hb.w <= levelWidth
    ensures 0.0 <= Clamped(hb, levelWidth).Left() && Clamped(hb, levelWidth).Right() <= levelWidth
  {
  }

  /** Clamping a hitbox narrower than the level a second time changes nothing. */
  lemma ClampedIdempotent(hb: Rect, levelWidth: real)
    requires 0.0 <= hb.w < levelWidth
    ensures Clamped(Clamped(hb, levelWidth), levelWidth) == Clamped(hb, levelWidth)
  {
    var c := Clamped(hb, levelWidth);
    if hb.Left() <= 0.0 {
      assert c.Left() == 0.0 && c.Right() == hb.w;
    } else if hb.Right() >= levelWidth {
      assert c.Right() == levelWidth && c.Left() == levelWidth - hb.w;
    }
  }

  // ---------------------------------------------------------------- exits

  /**
   * The switch_state calls the pass makes, in order: back to the overworld
   * with -1 when the hitbox is below the level, then back with the level's
   * unlock when it meets the flag; the two tests are independent.
   */
  function Exits(hb: Rect, levelHeight: real, finish: Rect, unlock: int): (r: seq<StageRequest>)
    ensures |r| <= 2
    ensures forall q :: q in r ==> q.target == OverworldState && q.unlock.Some?
    ensures StageRequest(OverworldState, Some(-1)) in r || hb.Bottom() <= levelHeight
  {
    (if hb.Bottom() > levelHeight then [StageRequest(OverworldState, Some(-1))] else []) +
    (if Collide(hb, finish) then [StageRequest(OverworldState, Some(unlock))] else [])
  }

  /** Falling out while touching the flag makes both calls, the penalty first. */
  lemma BothExitsFire(hb: Rect, levelHeight: real, finish: Rect, unlock: int)
    requires hb.Bottom() > levelHeight && Collide(hb, finish)
    ensures Exits(hb, levelHeight, finish, unlock) ==
      [StageRequest(OverworldState, Some(-1)), StageRequest(OverworldState, Some(unlock))]
  {
  }

  /** A hitbox inside the level and away from the flag leaves the level running. */
  lemma StaysInLevel(hb: Rect, levelHeight: real, finish: Rect, unlock: int)
    requires hb.Bottom() <= levelHeight && !Collide(hb, finish)
    ensures Exits(hb, levelHeight, finish, unlock) == []
  {
  }

  // ---------------------------------------------------------------- level

  /** The progress counters a frame changes: coins, health and the HUD calls made. */
  function Progressed(d: Data): (int, int, seq<UiCall>)
    reads d
  {
    (d.coins, d.health, d.uiCalls)
  }

  /** activate as values: an item's effect on the coins, the health and the HUD calls. */
  function ItemEffect(kind: string, coins: int, health: int, calls: seq<UiCall>): (int, int, seq<UiCall>) {
    if IsCoin(kind) then
      (CoinsLeft(coins + CoinValue(kind)), health + HealthGained(coins + CoinValue(kind)),
       calls + CoinCalls(coins + CoinValue(kind), health))
    else if kind == "potion" then (coins, health + 1, calls + [CreateHearts(health + 1)])
    else (coins, health, calls)
  }

  /** The pearl create_perl makes: centred 50 px ahead in its direction, its reverse timer inactive. */
  function SpawnedPearl(spawn: PearlSpawn, size: Vec): (t: Target)
    ensures t.rect.Center() == Vec(spawn.pos.x + 50.0 * spawn.direction as real, spawn.pos.y)
    ensures t.rect.w == size.x && t.rect.h == size.y
    ensures t.direction == spawn.direction && t.reverseTimer == Initial(250, false, false)
  {
    Target(Rect(spawn.pos.x, spawn.pos.y, size.x, size.y).WithCenter(
      Vec(spawn.pos.x + 50.0 * spawn.direction as real, spawn.pos.y)), spawn.direction, Initial(250, false, false))
  }

  /** The pearls of a frame's create_perl calls, in call order. */
  function SpawnedPearls(spawns: seq<PearlSpawn>, size: Vec): (r: seq<Target>)
    ensures |r| == |spawns|
    ensures forall i :: 0 <= i < |spawns| ==> r[i] == SpawnedPearl(spawns[i], size)
  {
    seq(|spawns|, i requires 0 <= i < |spawns| => SpawnedPearl(spawns[i], size))
  }

  lemma SpawnedPearlsStep(spawns: seq<PearlSpawn>, k: nat, size: Vec)
    requires k < |spawns|
    ensures SpawnedPearls(spawns[..k + 1], size) == SpawnedPearls(spawns[..k], size) + [SpawnedPearl(spawns[k], size)]
  {
  }

  class Level {
    const levelWidth: real
    const levelHeight: real
    const levelUnlock: int
    const finish: Rect
    const player: Player
    /** The collision group (terrain, barrels, crates, shells) and the one-way platforms. */
    const solids: seq<Body>
    const semis: seq<Body>
    /** The damage sprites other than teeth and pearls, by their collision rects. */
    const hazards: seq<Rect>
    var teeth: seq<Target>
    var pearls: seq<Target>
    var items: seq<Item>
    /** The centres of the particle effects created so far. */
    var particles: seq<Vec>

    ghost predicate Valid()
      reads this, player
    {
      player.Valid()
    }

    /** The level is tmx width x tmx height tiles; the flag object gives the finish rect. */
    constructor (tilesWide: nat, tilesHigh: nat, levelUnlock: int, finish: Rect, player: Player,
                 solids: seq<Body>, semis: seq<Body>, hazards: seq<Rect>, teeth: seq<Target>, items: seq<Item>)
      requires player.Valid()
      ensures Valid()
      ensures levelWidth == (tilesWide * TileSize) as real && levelHeight == (tilesHigh * TileSize) as real
      ensures this.levelUnlock == levelUnlock && this.finish == finish && this.player == player
      ensures this.solids == solids && this.semis == semis && this.hazards == hazards
      ensures this.teeth == teeth && this.items == items && pearls == [] && particles == []
    {
      levelWidth := (tilesWide * TileSize) as real;
      levelHeight := (tilesHigh * TileSize) as real;
      this.levelUnlock := levelUnlock;
      this.finish := finish;
      this.player := player;
      this.solids := solids;
      this.semis := semis;
      this.hazards := hazards;
      this.teeth := teeth;
      pearls := [];
      this.items := items;
      particles := [];
    }

    /** The pearl pass: every solid destroys the pearls it meets and sparks at the first. */
    method SmashPearls()
      modifies this
      ensures pearls == Smashed(old(pearls), Shapes(solids))
      ensures particles == old(particles) + SmashSparks(old(pearls), Shapes(solids))
      ensures teeth == old(teeth) && items == old(items)
    {
      var left, sparks := SmashAll(pearls, Shapes(solids));
      pearls := left;
      particles := particles + sparks;
    }

    /** The damage pass: get_damage for each damage sprite that meets the hitbox, hazards, then teeth, then pearls. */
    method HurtPlayer(now: int)
      requires Valid()
      modifies player.data, player.immunity
      ensures (player.data.health, player.immunity.State()) ==
        Hurt(old(player.data.health), old(player.immunity.State()), hazards + Rects(teeth) + Rects(pearls), player.hitbox, now)
      ensures player.data.uiCalls == old(player.data.uiCalls) +
        HurtCalls(old(player.data.health), old(player.immunity.State()), hazards + Rects(teeth) + Rects(pearls), player.hitbox, now)
      ensures player.data.coins == old(player.data.coins) && player.data.LevelsUnchanged()
    {
      var rects := hazards + Rects(teeth) + Rects(pearls);
      var i := 0;
      while i < |rects|
        invariant 0 <= i <= |rects|
        invariant (player.data.health, player.immunity.State()) ==
          Hurt(old(player.data.health), old(player.immunity.State()), rects[..i], player.hitbox, now)
        invariant player.data.uiCalls == old(player.data.uiCalls) +
          HurtCalls(old(player.data.health), old(player.immunity.State()), rects[..i], player.hitbox, now)
        invariant player.data.coins == old(player.data.coins) && player.data.LevelsUnchanged()
      {
        assert rects[..i + 1][..i] == rects[..i];
        if Collide(rects[i], player.hitbox) {
          player.GetDamage(now);
        }
        i := i + 1;
      }
      assert rects[..|rects|] == rects;
    }

    /** The pearls among the damage sprites that met the hitbox are destroyed, with a spark each. */
    method SpendPearls()
      modifies this
      ensures pearls == Unspent(old(pearls), player.hitbox)
      ensures particles == old(particles) + SpentSparks(old(pearls), player.hitbox)
      ensures teeth == old(teeth) && items == old(items)
    {
      var left, sparks := Spend(pearls, player.hitbox);
      pearls := left;
      particles := particles + sparks;
    }

    /** The pickup pass: the items the hitbox meets go; the first is activated and sparks. */
    method Collect()
      modifies this, player.data
      ensures items == Uncollected(old(items), player.hitbox)
      ensures FirstPicked(old(items), player.hitbox).Some? ==>
        ItemApplied(FirstPicked(old(items), player.hitbox).value.kind, player.data) &&
        particles == old(particles) + [FirstPicked(old(items), player.hitbox).value.rect.Center()]
      ensures FirstPicked(old(items), player.hitbox).None? ==>
        unchanged(player.data) && particles == old(particles)
      ensures pearls == old(pearls) && teeth == old(teeth)
      ensures var first := FirstPicked(old(items), player.hitbox);
        Progressed(player.data) == (if first.Some? then
          ItemEffect(first.value.kind, old(player.data.coins), old(player.data.health), old(player.data.uiCalls))
          else old(Progressed(player.data)))
      ensures player.data.LevelsUnchanged()
    {
      if |items| > 0 {
        var left, first := Pick(items, player.hitbox);
        items := left;
        if first.Some? {
          ActivateItem(first.value.kind, player.data);
          particles := particles + [first.value.rect.Center()];
        }
      }
    }

    /** The attack pass over the pearls, then the teeth. */
    method Deflect(now: int)
      modifies this
      ensures pearls == DeflectedAll(old(pearls), player.rect, player.facingRight, player.attacking, now)
      ensures teeth == DeflectedAll(old(teeth), player.rect, player.facingRight, player.attacking, now)
      ensures items == old(items) && particles == old(particles)
    {
      pearls := DeflectEach(pearls, player.rect, player.facingRight, player.attacking, now);
      teeth := DeflectEach(teeth, player.rect, player.facingRight, player.attacking, now);
    }

    /** The border pass on the hitbox. */
    method ClampPlayer()
      modifies player
      ensures player.hitbox == Clamped(old(player.hitbox), levelWidth)
      ensures player.View() == old(player.View()).(hitbox := player.hitbox)
    {
      player.hitbox := Clamped(player.hitbox, levelWidth);
    }

    /** The damage sprites' rects: hazards, then teeth, then the pearls the pearl pass leaves. */
    function DamageRects(teeth: seq<Target>, pearls: seq<Target>): seq<Rect> {
      hazards + Rects(teeth) + Rects(Smashed(pearls, Shapes(solids)))
    }

    /** The first three passes: the pearls against the solids, the damage, the pearls spent on the player. */
    method DamagePasses(now: int)
      requires Valid()
      modifies this, player.data, player.immunity
      ensures Valid()
      ensures pearls == Unspent(Smashed(old(pearls), Shapes(solids)), player.hitbox)
      ensures teeth == old(teeth) && items == old(items)
      ensures particles == old(particles) + SmashSparks(old(pearls), Shapes(solids)) +
        SpentSparks(Smashed(old(pearls), Shapes(solids)), player.hitbox)
      ensures var rects := DamageRects(old(teeth), old(pearls));
        var hurt := Hurt(old(player.data.health), old(player.immunity.State()), rects, player.hitbox, now);
        player.View() == old(player.View()).(immunity := hurt.1) &&
        Progressed(player.data) == (old(player.data.coins), hurt.0, old(player.data.uiCalls) +
          HurtCalls(old(player.data.health), old(player.immunity.State()), rects, player.hitbox, now))
      ensures player.data.LevelsUnchanged()
    {
      SmashPearls();
      HurtPlayer(now);
      SpendPearls();
    }

    /** The damage passes, then the pickup pass. */
    method Interact(now: int)
      requires Valid()
      modifies this, player.data, player.immunity
      ensures Valid()
      ensures items == Uncollected(old(items), player.hitbox) && teeth == old(teeth)
      ensures pearls == Unspent(Smashed(old(pearls), Shapes(solids)), player.hitbox)
      ensures var hurt := Hurt(old(player.data.health), old(player.immunity.State()),
                               DamageRects(old(teeth), old(pearls)), player.hitbox, now);
        player.View() == old(player.View()).(immunity := hurt.1)
      ensures var rects := DamageRects(old(teeth), old(pearls));
        var hurt := Hurt(old(player.data.health), old(player.immunity.State()), rects, player.hitbox, now);
        var calls := old(player.data.uiCalls) +
          HurtCalls(old(player.data.health), old(player.immunity.State()), rects, player.hitbox, now);
        var first := FirstPicked(old(items), player.hitbox);
        Progressed(player.data) ==
          (if first.Some? then ItemEffect(first.value.kind, old(player.data.coins), hurt.0, calls)
           else (old(player.data.coins), hurt.0, calls))
      ensures var first := FirstPicked(old(items), player.hitbox);
        particles == old(particles) + SmashSparks(old(pearls), Shapes(solids)) +
          SpentSparks(Smashed(old(pearls), Shapes(solids)), player.hitbox) +
          (if first.Some? then [first.value.rect.Center()] else [])
      ensures player.data.LevelsUnchanged()
    {
      DamagePasses(now);
      Collect();
    }

    /** collisions(): the passes in the source's order, then the exit tests on the clamped hitbox. */
    method Collisions(now: int) returns (requests: seq<StageRequest>)
      requires Valid()
      modifies this, player, player.data, player.immunity
      ensures Valid()
      ensures requests == Exits(player.hitbox, levelHeight, finish, levelUnlock)
      ensures player.hitbox == Clamped(old(player.hitbox), levelWidth)
      ensures items == Uncollected(old(items), old(player.hitbox))
      ensures teeth == DeflectedAll(old(teeth), old(player.rect), old(player.facingRight), old(player.attacking), now)
      ensures pearls == DeflectedAll(Unspent(Smashed(old(pearls), Shapes(solids)), old(player.hitbox)),
                                     old(player.rect), old(player.facingRight), old(player.attacking), now)
      ensures var hurt := Hurt(old(player.data.health), old(player.immunity.State()),
                               DamageRects(old(teeth), old(pearls)), old(player.hitbox), now);
        player.View() == old(player.View()).(hitbox := Clamped(old(player.hitbox), levelWidth), immunity := hurt.1)
      ensures var rects := DamageRects(old(teeth), old(pearls));
        var hurt := Hurt(old(player.data.health), old(player.immunity.State()), rects, old(player.hitbox), now);
        var calls := old(player.data.uiCalls) +
          HurtCalls(old(player.data.health), old(player.immunity.State()), rects, old(player.hitbox), now);
        var first := FirstPicked(old(items), old(player.hitbox));
        Progressed(player.data) ==
          (if first.Some? then ItemEffect(first.value.kind, old(player.data.coins), hurt.0, calls)
           else (old(player.data.coins), hurt.0, calls))
      ensures var first := FirstPicked(old(items), old(player.hitbox));
        particles == old(particles) + SmashSparks(old(pearls), Shapes(solids)) +
          SpentSparks(Smashed(old(pearls), Shapes(solids)), old(player.hitbox)) +
          (if first.Some? then [first.value.rect.Center()] else [])
      ensures player.data.LevelsUnchanged()
    {
      Interact(now);
      ghost var progress := Progressed(player.data);
      Deflect(now);
      ClampPlayer();
      assert Progressed(player.data) == progress;
      requests := Exits(player.hitbox, levelHeight, finish, levelUnlock);
    }

    /** create_perl: a pearl a shell fired joins the pearl group, 50 px ahead of the shell's centre. */
    method CreatePearl(spawn: PearlSpawn, size: Vec)
      modifies this
      ensures pearls == old(pearls) + [SpawnedPearl(spawn, size)]
      ensures teeth == old(teeth) && items == old(items) && particles == old(particles)
    {
      pearls := pearls + [SpawnedPearl(spawn, size)];
    }

    /** The create_perl calls of a frame's shell updates, in call order. */
    method CreatePearls(spawns: seq<PearlSpawn>, size: Vec)
      modifies this
      ensures pearls == old(pearls) + SpawnedPearls(spawns, size)
      ensures teeth == old(teeth) && items == old(items) && particles == old(particles)
    {
      var k := 0;
      while k < |spawns|
        invariant 0 <= k <= |spawns|
        invariant pearls == old(pearls) + SpawnedPearls(spawns[..k], size)
        invariant teeth == old(teeth) && items == old(items) && particles == old(particles)
      {
        CreatePearl(spawns[k], size);
        SpawnedPearlsStep(spawns, k, size);
        k := k + 1;
      }
      assert spawns[..k] == spawns;
    }

    /**
     * run(dt): the sprite updates, then the interaction pass, so the exits
     * are judged on the hitbox after this frame's move and clamp. Of the
     * sprite updates the model runs the player's and adds the pearls the
     * shells fired this frame, given as `spawns`.
     */
    method Run(keys: Keys, now: int, dt: real, spawns: seq<PearlSpawn>, pearlSize: Vec) returns (requests: seq<StageRequest>)
      requires Valid()
      modifies this, player, player.data, player.wallJump, player.wallSlideBlock
      modifies player.platformFall, player.attackBlock, player.immunity
      ensures Valid()
      ensures var moved := Frame(old(player.View()), keys, now, dt, solids, semis, player.frames);
        requests == Exits(Clamped(moved.hitbox, levelWidth), levelHeight, finish, levelUnlock)
      ensures var moved := Frame(old(player.View()), keys, now, dt, solids, semis, player.frames);
        var fired := old(pearls) + SpawnedPearls(spawns, pearlSize);
        var hurt := Hurt(old(player.data.health), moved.immunity, DamageRects(old(teeth), fired), moved.hitbox, now);
        player.View() == moved.(hitbox := Clamped(moved.hitbox, levelWidth), immunity := hurt.1) &&
        items == Uncollected(old(items), moved.hitbox) &&
        teeth == DeflectedAll(old(teeth), moved.rect, moved.facingRight, moved.attacking, now) &&
        pearls == DeflectedAll(Unspent(Smashed(fired, Shapes(solids)), moved.hitbox),
                               moved.rect, moved.facingRight, moved.attacking, now)
      ensures var moved := Frame(old(player.View()), keys, now, dt, solids, semis, player.frames);
        var fired := old(pearls) + SpawnedPearls(spawns, pearlSize);
        var rects := DamageRects(old(teeth), fired);
        var hurt := Hurt(old(player.data.health), moved.immunity, rects, moved.hitbox, now);
        var calls := old(player.data.uiCalls) + HurtCalls(old(player.data.health), moved.immunity, rects, moved.hitbox, now);
        var first := FirstPicked(old(items), moved.hitbox);
        Progressed(player.data) ==
          (if first.Some? then ItemEffect(first.value.kind, old(player.data.coins), hurt.0, calls)
           else (old(player.data.coins), hurt.0, calls))
      ensures player.data.LevelsUnchanged()
    {
      CreatePearls(spawns, pearlSize);
      player.Update(keys, now, dt, solids, semis);
      ghost var moved := player.View();
      assert moved == Frame(old(player.View()), keys, now, dt, solids, semis, player.frames);
      assert Progressed(player.data) == old(Progressed(player.data));
      requests := Collisions(now);
    }
  }

  /** One solid's spritecollide: the pearls it misses and the first it meets. */
  method Sweep(ts: seq<Target>, r: Rect) returns (kept: seq<Target>, first: Option<Target>)
    ensures kept == Missing(ts, r) && first == FirstHit(ts, r)
  {
    kept := [];
    first := None;
    var i := 0;
    while i < |ts|
      invariant 0 <= i <= |ts|
      invariant kept == Missing(ts[..i], r) && first == FirstHit(ts[..i], r)
    {
      assert ts[..i + 1][..i] == ts[..i];
      if Collide(r, ts[i].rect) {
        if first.None? {
          first := Some(ts[i]);
        }
      } else {
        kept := kept + [ts[i]];
      }
      i := i + 1;
    }
    assert ts[..|ts|] == ts;
  }

  /** One more solid: it sweeps the pearls that survived the solids before it. */
  lemma SmashStep(ps: seq<Target>, shapes: seq<Rect>, i: nat)
    requires i < |shapes|
    ensures Smashed(ps, shapes[..i + 1]) == Missing(Smashed(ps, shapes[..i]), shapes[i])
    ensures SmashSparks(ps, shapes[..i + 1]) ==
      SmashSparks(ps, shapes[..i]) + Spark(FirstHit(Smashed(ps, shapes[..i]), shapes[i]))
  {
    assert shapes[..i + 1][..i] == shapes[..i];
  }

  /** The pearl pass on values: each solid in turn sweeps the pearls. */
  method SmashAll(ps: seq<Target>, shapes: seq<Rect>) returns (left: seq<Target>, sparks: seq<Vec>)
    ensures left == Smashed(ps, shapes) && sparks == SmashSparks(ps, shapes)
  {
    left := ps;
    sparks := [];
    var i := 0;
    while i < |shapes|
      invariant 0 <= i <= |shapes|
      invariant left == Smashed(ps, shapes[..i])
      invariant sparks == SmashSparks(ps, shapes[..i])
    {
      SmashStep(ps, shapes, i);
      var kept, first := Sweep(left, shapes[i]);
      left := kept;
      sparks := sparks + Spark(first);
      i := i + 1;
    }
    assert shapes[..|shapes|] == shapes;
  }

  /** The pearls the damage pass destroys, on values. */
  method Spend(ps: seq<Target>, hb: Rect) returns (left: seq<Target>, sparks: seq<Vec>)
    ensures left == Unspent(ps, hb) && sparks == SpentSparks(ps, hb)
  {
    left := [];
    sparks := [];
    var i := 0;
    while i < |ps|
      invariant 0 <= i <= |ps|
      invariant left == Unspent(ps[..i], hb)
      invariant sparks == SpentSparks(ps[..i], hb)
    {
      assert ps[..i + 1][..i] == ps[..i];
      if Collide(ps[i].rect, hb) {
        sparks := sparks + [ps[i].rect.Center()];
      } else {
        left := left + [ps[i]];
      }
      i := i + 1;
    }
    assert ps[..|ps|] == ps;
  }

  /** spritecollide(player, items, True, hitbox_collide): the items left and the first one met. */
  method Pick(its: seq<Item>, hb: Rect) returns (left: seq<Item>, first: Option<Item>)
    ensures left == Uncollected(its, hb) && first == FirstPicked(its, hb)
  {
    left := [];
    first := None;
    var i := 0;
    while i < |its|
      invariant 0 <= i <= |its|
      invariant left == Uncollected(its[..i], hb)
      invariant first == FirstPicked(its[..i], hb)
    {
      assert its[..i + 1][..i] == its[..i];
      if Collide(hb, its[i].rect) {
        if first.None? {
          first := Some(its[i]);
        }
      } else {
        left := left + [its[i]];
      }
      i := i + 1;
    }
    assert its[..|its|] == its;
  }

  /** The attack test and reverse() applied to each target in turn. */
  method DeflectEach(ts: seq<Target>, player: Rect, facingRight: bool, attacking: bool, now: int)
    returns (r: seq<Target>)
    ensures r == DeflectedAll(ts, player, facingRight, attacking, now)
  {
    r := [];
    var i := 0;
    while i < |ts|
      invariant 0 <= i <= |ts|
      invariant r == DeflectedAll(ts[..i], player, facingRight, attacking, now)
    {
      var t := ts[i];
      if Struck(player, facingRight, attacking, t.rect) {
        var (d, timer) := Reversed(t.direction, t.reverseTimer, now);
        t := Target(t.rect, d, timer);
      }
      r := r + [t];
      i := i + 1;
    }
    assert ts[..|ts|] == ts;
  }
}
