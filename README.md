# Save Matter platformer: the per-frame simulation rules, in Dafny

This project models the rules of the pygame platformer "Save Matter": what
happens to the game's state in one frame, and the setup rules that build a
level and the overworld map out of their Tiled objects. Pixels, sounds and
file loading are not modelled; keyboard state, the tick counter, the frame
time `dt`, random draws and the trigonometric functions are parameters.

One Dafny module per source file:

| module | file | source |
|---|---|---|
| `Wrappers` | wrappers.dfy | Python's exceptions as `Result` errors, and `Option` |
| `Settings` | settings.dfy | window size, tile size and the `ZLayers` order (src/savematter/utils/settings.py) |
| `Geometry` | geometry.dfy | pygame's `FRect`: edges, anchors, `colliderect`, `collidelist`, `int()` truncation |
| `Timers` | timer.dfy | the pollable countdown `Timer` (src/savematter/utils/timer.py) |
| `Progress` | data.dfy | coins, health and level progress with the recursive coin setter (src/savematter/game/data.py) |
| `Sprites` | sprites.dfy | animated sprites, items, particles and the bouncing `MovingSprite` (code/sprites.py; src/savematter/.sprites.py is a line-for-line copy and is modelled by the same members) |
| `Objects` | objects.dfy | the orbiting `Spike`, `FloorSpike` and `Cloud` (src/savematter/sprites/objects.py) |
| `Enemies` | enemies.dfy | `Tooth`, `Shell` and `Pearl` (src/savematter/sprites/enemies.py) |
| `PlayerRules`, `Players` | player_rules.dfy, player.dfy | the player's input, probes, collision resolution, damage and animation (src/savematter/game/player.py) |
| `Levels`, `LevelSetup` | level.dfy, level_setup.dfy | the level's interaction pass and its object classification (src/savematter/game/level.py) |
| `PaintOrder`, `Cameras` | paint_order.dfy, camera.dfy | stable z-order, camera borders and clamping, cloud wrap and paint order (src/savematter/utils/groups.py) |
| `WorldIcons` | world_icons.dfy | overworld nodes and the player icon that follows waypoints (src/savematter/sprites/overworld.py) |
| `WorldMap` | world_map.dfy | the overworld's paths, path tiles, input and moves (src/savematter/game/overworld.py) |
| `Hud` | hud.dfy | the hearts and coin display (src/savematter/game/ui.py) |
| `GameLoop` | game.dfy | the stage switch, the game-over test and one frame of the main loop (src/savematter/main.py) |
| `Support` | support.dfy | asset paths, the asset walk and the loaders' ordering and keys (src/savematter/utils/support.py) |

Objects whose fields the game updates in place are Dafny classes
(`Timer`, `Data`, `MovingSprite`, `Player`, `Level`, `PlayerIcon`, `Ui`,
`Game`, ...). Each exposes a value view of its state, and each method
states its new view as a specification function of the old one and of the
inputs, together with the fields it leaves unchanged; the properties of the game are lemmas about those
functions. The timers a sprite owns are fields of its class, and pygame
sprite groups are sequences, so removing a sprite from a group removes it
from the sequence. Coordinates are `real`, as in pygame's `FRect`, and
`int()` truncation toward zero is written out. The player's three contact
strips are built as integer `pygame.Rect`s, so the model truncates their
position and size before testing them. Python exceptions are
`Err` values of `Result`.

The model follows the code where it differs from a natural reading of it:

- `point_collision` removes at most one waypoint per call, although it has two checks: after the vertical check removes a waypoint, `find_dir` points the icon strictly towards the next one, so the horizontal check cannot fire in the same call.
- The overworld reads the confirm key only while the icon stands on a node and has no path.
- `import_anim_states` looks up the subfolders of deeper folders directly under the top folder, as the code does.
- The platform a player is carried by is the last match, and pickups remove every overlapping item but apply only the first.
- A random timer's duration is drawn once, at construction.

## Model

| member | source | states |
|---|---|---|
| `Timers.InitialDuration` | src/savematter/utils/timer.py:20-25 | a random timer without a lower bound raises TypeError; an empty randint range raises ValueError; otherwise the duration is the given one, or a draw within [lower bound, duration] |
| `Timers.ActivateStarts` | src/savematter/utils/timer.py:31-33 | activation makes the timer active from the current tick and keeps its duration, repeat flag and callback |
| `Timers.DeactivateStopsOrRestarts` | src/savematter/utils/timer.py:35-39 | a one-shot timer becomes inactive and rewinds to tick 0; a repeating one is activated again at the current tick |
| `Timers.PollBeforeExpiry` | src/savematter/utils/timer.py:41-43 | a poll before the duration has elapsed leaves the timer unchanged and runs no callback |
| `Timers.PollOnExpiry` | src/savematter/utils/timer.py:43-46 | on expiry the callback runs exactly when there is one and the start tick is not 0, and the timer is deactivated |
| `Timers.RepeatRestarts` | src/savematter/utils/timer.py:38-46 | an expired repeating timer is active again, restarted at the polling tick |
| `Timers.DurationFixed` | src/savematter/utils/timer.py:23-46 | no sequence of activations, deactivations and polls changes the duration, the repeat flag or the callback |
| `Timers.ConsistentPreserved` | src/savematter/utils/timer.py:27-46 | an inactive timer is always rewound to tick 0, from construction on, whatever operations follow |
| `Timers.RepeatStaysActive` | src/savematter/utils/timer.py:35-39 | an active repeating timer stays active under every sequence of its own operations |
| `Timers.RewoundNeverFires` | src/savematter/utils/timer.py:43-46 | a one-shot timer at start tick 0 never runs its callback, however often it is polled |
| `Timers.FiresAtMostOnce` | src/savematter/utils/timer.py:41-46 | between activations a one-shot timer runs its callback at most once |
| `Timers.FiresOnExpiry` | src/savematter/utils/timer.py:31-46 | a timer with a callback activated at a non-zero tick runs it on the first poll at or after its expiry |
| `Timers.Timer.constructor` | src/savematter/utils/timer.py:12-29 | a fixed-duration timer starts inactive at tick 0 with the given configuration |
| `Timers.Timer.Create` | src/savematter/utils/timer.py:12-29 | construction fails exactly as the duration rule says, and otherwise yields a fresh inactive timer with that duration |
| `Timers.Timer.Activate` | src/savematter/utils/timer.py:31-33 | the new state is the activated one |
| `Timers.Timer.Deactivate` | src/savematter/utils/timer.py:35-39 | the new state is the deactivated one |
| `Timers.Timer.Update` | src/savematter/utils/timer.py:41-46 | the new state and whether the callback ran are those of one poll at the current tick |
| `Progress.CoinsConvert` | src/savematter/game/data.py:34-39 | setting v >= 0 coins keeps v mod 100 coins and adds v div 100 health |
| `Progress.SmallCoinsKept` | src/savematter/game/data.py:34-40 | fewer than 100 coins, negative amounts included, are stored as given, add no health and show the coins once |
| `Progress.CoinCallsShape` | src/savematter/game/data.py:34-40 | the coins setter shows coins once per converted hundred plus once, refreshes the hearts once per hundred; the first coin display is the reduced amount, the last the original one |
| `Progress.From95To103` | src/savematter/game/data.py:34-40 | going from 95 to 103 coins leaves 3 coins, adds one health and makes the calls show 3, hearts for h + 1, show 103 |
| `Progress.Data.constructor` | src/savematter/game/data.py:10-19 | 0 coins, 5 health drawn as 5 hearts, level 5 unlocked and current, overworld 0 |
| `Progress.Data.SetHealth` | src/savematter/game/data.py:29-32 | the health is stored unclamped, the hearts are redrawn for it, coins and levels are unchanged |
| `Progress.Data.SetCoins` | src/savematter/game/data.py:34-40 | coins and health are those of the conversion rule, the HUD receives the calls of every recursion level, and the levels are unchanged |
| `PaintOrder.SortedAscending` | src/savematter/utils/groups.py:187-189 | sprites are painted in ascending z |
| `PaintOrder.SortedPermutes` | src/savematter/utils/groups.py:187-189 | every sprite of the group is painted exactly once |
| `PaintOrder.SortedStable` | src/savematter/utils/groups.py:187-189 | sprites with the same z are painted in the order they joined the group (Python's sort is stable) |
| `Sprites.LoopedFrame` | code/sprites.py:44-46 | the looping frame index is always a valid index into the frames |
| `Sprites.LoopedFrameFirstCycle` | code/sprites.py:44-46 | during the first cycle the frame shown is the whole part of the frame index |
| `Sprites.AnimatedSprite.constructor` | code/sprites.py:32-42 | the rect's top-left is at pos with the first frame's size, at frame 0 with the given layer and speed |
| `Sprites.AnimatedSprite.Image` | code/sprites.py:46 | the image shown is one of the frames |
| `Sprites.AnimatedSprite.Animate` | code/sprites.py:44-49 | the frame index advances by speed times dt and the rect does not move |
| `Sprites.CoinValues` | code/sprites.py:96-106 | only silver, gold, diamond and skull carry coins, worth 1, 5, 20 or 50 |
| `Sprites.ActivateItem` | code/sprites.py:96-106 | a coin item adds its value through the coins setter, a potion adds one health through the health setter, any other item changes nothing |
| `Sprites.ParticleEffect.constructor` | code/sprites.py:110-121 | the effect is centred on pos, alive, at frame 0 |
| `Sprites.ParticleEffect.Image` | code/sprites.py:123-128 | a frame is shown exactly while the index is below the frame count, and it is a valid frame |
| `Sprites.ParticleEffect.Animate` | code/sprites.py:123-128 | the index advances and the effect dies once it reaches the frame count |
| `Sprites.BounceStaysOnAxis` | code/sprites.py:166-185 | check_border changes only the moving axis: the size and the other coordinate and direction are kept |
| `Sprites.BounceAtEndX` | code/sprites.py:170-173 | moving right into the end anchor turns left with the right edge on the anchor |
| `Sprites.BounceAtStartX` | code/sprites.py:174-176 | moving left into the start anchor turns right with the left edge on the anchor |
| `Sprites.NoBounceInside` | code/sprites.py:166-185 | strictly between the anchors check_border changes nothing |
| `Sprites.StaysInRange` | code/sprites.py:187-193 | a moving sprite between its anchors with a unit direction stays there after any non-negative step |
| `Sprites.MovingSprite.Create` | code/sprites.py:132-164 | move_dir other than "x" or "y" raises ValueError; "x" puts the mid-left on the start and moves right, "y" the mid-top and moves down |
| `Sprites.MovingSprite.Init` | code/sprites.py:143-164 | the sprite is anchored and headed as its axis says, unreversed, at frame 0, and is within its anchors when it fits between them and its speed is not negative |
| `Sprites.MovingSprite.CheckBorder` | code/sprites.py:166-185 | rect and direction are the bounce of the axis; the reverse flag of that axis records the heading, the other is kept |
| `Sprites.MovingSprite.Update` | code/sprites.py:187-198 | old_rect is the previous rect; the rect moves by direction times speed times dt and then bounces; the animation advances |
| `Sprites.MovingSprite.UpdateKeepsRange` | code/sprites.py:187-193 | the sprite remains between its anchors after every frame with dt >= 0 |
| `Objects.OrbitPointOnCircle` | src/savematter/sprites/objects.py:40-44 | calc_pos lies on the circle of the radius around the pivot |
| `Objects.FullCircleKeepsTurning` | src/savematter/sprites/objects.py:36-56 | with end angle -1 the spike turns forever in its starting direction |
| `Objects.SwingInvariantInitially` | src/savematter/sprites/objects.py:32-35 | a new swinging spike satisfies the swing invariant |
| `Objects.SwingStaysBounded` | src/savematter/sprites/objects.py:50-56 | each frame keeps the angle within one step of [start, end], heading back once past an end |
| `Objects.Spike.constructor` | src/savematter/sprites/objects.py:18-38 | angle at the start angle, direction 1, a full circle exactly when the end angle is -1, top-left at calc_pos |
| `Objects.Spike.Update` | src/savematter/sprites/objects.py:46-57 | the angle and direction follow the swing rule and the rect is centred on the new calc_pos |
| `Objects.FloorSpikeHitbox` | src/savematter/sprites/objects.py:72-80 | the hitbox is 32 shorter than the image, on the image's top edge when inverted and on its bottom edge otherwise |
| `Objects.FloorSpikeHitboxInside` | src/savematter/sprites/objects.py:72-80 | a spike at least 32 tall has its hitbox inside its image |
| `Objects.FloorSpike.constructor` | src/savematter/sprites/objects.py:61-82 | the hitbox is as above and old_rect is a copy of it |
| `Objects.FloorSpike.Animate` | src/savematter/sprites/objects.py:68 | animating advances the frame index and moves neither the rect nor the hitbox |
| `Objects.Cloud.constructor` | src/savematter/sprites/objects.py:86-95 | a cloud on the clouds layer with a speed in [50, 120], moving left |
| `Objects.Cloud.Update` | src/savematter/sprites/objects.py:97-104 | the cloud drifts by direction times speed times dt and dies once its right edge is at or left of 0 |
| `Objects.CloudDriftsLeft` | src/savematter/sprites/objects.py:94-101 | a cloud only ever moves left and never vertically |
| `Enemies.Reversed` | src/savematter/sprites/enemies.py:60-63 | the direction flips and the reverse timer starts exactly when the timer is inactive; otherwise nothing changes |
| `Enemies.ReverseCooldown` | src/savematter/sprites/enemies.py:33-63 | a second deflection less than 250 ms after the first does not flip the direction back |
| `Enemies.LeftFloorProbeNormalized` | src/savematter/sprites/enemies.py:46 | the probe of size (-1, 1) collides like the one pixel just left of the bottom-left corner |
| `Enemies.ToothTurnsIff` | src/savematter/sprites/enemies.py:45-58 | a tooth turns if and only if the floor probe on its leading side touches no collision rect or the wall strip touches one |
| `Enemies.ToothTurnsAtLedge` | src/savematter/sprites/enemies.py:45-58 | a tooth walking right turns once its right floor probe has left the ledge it stands on |
| `Enemies.Tooth.constructor` | src/savematter/sprites/enemies.py:17-33 | speed 200, the drawn start direction, an inactive 250 ms reverse timer, the collision rects given |
| `Enemies.Tooth.Move` | src/savematter/sprites/enemies.py:35-39 | the rect moves horizontally by direction times speed times dt |
| `Enemies.Tooth.Collision` | src/savematter/sprites/enemies.py:41-58 | the direction flips exactly when the probe rule says it turns |
| `Enemies.Tooth.Reverse` | src/savematter/sprites/enemies.py:60-63 | direction and reverse timer are those of the shared reverse rule |
| `Enemies.Tooth.Update` | src/savematter/sprites/enemies.py:65-79 | the reverse timer is polled, the frame advances, the tooth moves and then turns as the probes say, and its direction stays 1 or -1 |
| `Enemies.SpottedInFront` | src/savematter/sprites/enemies.py:114-125 | a player level with the shell and 100 ahead is seen; behind the shell or 30 apart vertically it is not |
| `Enemies.ShootMarksFired` | src/savematter/sprites/enemies.py:137-143 | a pearl is created only by a fire cycle that has not fired yet, at whole frame 3, and the cycle is then marked as fired |
| `Enemies.FiredClearsOnlyAtCycleEnd` | src/savematter/sprites/enemies.py:150-157 | has_fired is cleared only when the fire cycle ends, back in idle at frame 0 |
| `Enemies.AtMostOnePearlPerCycle` | src/savematter/sprites/enemies.py:137-161 | over frames that stay in one fire cycle at most one pearl is created, and none once it has fired |
| `Enemies.Shell.constructor` | src/savematter/sprites/enemies.py:83-108 | idle at frame 0, not fired, an inactive 3000 ms shoot timer, bullet direction -1 when reversed and 1 otherwise |
| `Enemies.Shell.GetAnimState` | src/savematter/sprites/enemies.py:110-135 | a player spotted while the shoot timer is inactive switches to fire at frame 0 and starts the timer; otherwise nothing changes |
| `Enemies.Shell.Attack` | src/savematter/sprites/enemies.py:137-143 | a pearl is spawned at the shell's centre in the bullet direction exactly in fire, at whole frame 3, when not yet fired |
| `Enemies.Shell.Animate` | src/savematter/sprites/enemies.py:145-157 | the new state and the spawn are those of the animation rule, with the pearl at the shell's centre |
| `Enemies.Shell.Update` | src/savematter/sprites/enemies.py:159-161 | one frame: poll the shoot timer, look for the player, animate |
| `Enemies.Pearl.constructor` | src/savematter/sprites/enemies.py:165-188 | centred 50 px ahead of pos in its direction, alive, its 5000 ms lifetime timer active from now, an inactive 250 ms reverse timer |
| `Enemies.Pearl.Move` | src/savematter/sprites/enemies.py:190-194 | the pearl moves horizontally by direction times speed times dt |
| `Enemies.Pearl.Reverse` | src/savematter/sprites/enemies.py:196-199 | direction and reverse timer are those of the shared reverse rule |
| `Enemies.Pearl.Update` | src/savematter/sprites/enemies.py:201-207 | both timers are polled; the pearl dies exactly when the lifetime callback runs; it moves horizontally |
| `Enemies.PearlLifetime` | src/savematter/sprites/enemies.py:184-188 | a pearl fired at a non-zero tick is killed by its first update 5000 ms or more later |
| `PlayerRules.InitialView` | src/savematter/game/player.py:29-63 | the new hitbox is the image rect inset by 76 by 36 about the same centre, old_rect copies it, the player is idle and still |
| `PlayerRules.InputX` | src/savematter/game/player.py:71-90 | the horizontal input is 1 exactly for right alone, -1 for left alone, 0 for both or neither |
| `PlayerRules.WallJumpLocksInput` | src/savematter/game/player.py:69-93 | during a wall jump the keys change nothing but the jump request |
| `PlayerRules.InputSteers` | src/savematter/game/player.py:73-99 | otherwise direction.x follows the keys, down starts the fall-through timer, and an attack starts only outside the attack block |
| `PlayerRules.SnapX` | src/savematter/game/player.py:202-214 | a horizontal snap moves only the x coordinate and does nothing against a solid the hitbox does not overlap |
| `PlayerRules.ResolvedX` | src/savematter/game/player.py:194-214 | collision("x") over all solids moves only the x coordinate |
| `PlayerRules.SnapXFromRight` | src/savematter/game/player.py:205-208 | a player that was right of a solid and now overlaps it is pushed out to its right edge, clear of it |
| `PlayerRules.SnapXFromLeft` | src/savematter/game/player.py:211-214 | coming from the left, the right edge lands on the solid's left edge, clear of it |
| `PlayerRules.SnapY` | src/savematter/game/player.py:216-231 | a vertical snap moves only the y coordinate; any overlap zeroes direction.y; no overlap changes nothing |
| `PlayerRules.ResolvedY` | src/savematter/game/player.py:194-231 | collision("y") moves only the y coordinate and either keeps direction.y or zeroes it |
| `PlayerRules.VerticalOverlapStops` | src/savematter/game/player.py:202-231 | any solid overlapping the hitbox when its turn comes stops the vertical motion for the rest of the pass |
| `PlayerRules.CeilingNudge` | src/savematter/game/player.py:218-223 | bumping the underside of a moving solid leaves the top 6 below its bottom and stops the motion |
| `PlayerRules.StopsOnGround` | src/savematter/game/player.py:226-231 | falling into the ground from above puts the bottom on the ground's top and stops the fall |
| `PlayerRules.SnapSemi` | src/savematter/game/player.py:242-250 | a one-way platform can only lift the hitbox and only stop a downward motion |
| `PlayerRules.ResolvedSemi` | src/savematter/game/player.py:235-250 | semi_collision over all platforms only lifts the hitbox and at most stops a downward motion |
| `PlayerRules.LandsOnPlatform` | src/savematter/game/player.py:244-250 | falling onto a one-way platform from above puts the player on its top and stops the fall |
| `PlayerRules.PassesFromBelow` | src/savematter/game/player.py:244-246 | a player that was below a one-way platform's top passes through it |
| `PlayerRules.JumpChoice` | src/savematter/game/player.py:121-131 | a floor jump exactly when jumping on the floor; a wall jump exactly when jumping in the air against a wall outside the wall-slide block |
| `PlayerRules.FallAccelerates` | src/savematter/game/player.py:116-119 | in the air, away from a usable wall, the vertical velocity grows by gravity times dt |
| `PlayerRules.JumpConsumed` | src/savematter/game/player.py:121-132 | every move consumes the jump request |
| `PlayerRules.AirJumpIgnored` | src/savematter/game/player.py:121-132 | a jump in the air with no usable wall has no effect |
| `PlayerRules.JumpStartsTimers` | src/savematter/game/player.py:121-131 | a floor jump starts the wall-slide block; a wall jump starts the wall-jump timer and pushes away from the wall |
| `PlayerRules.FallThrough` | src/savematter/game/player.py:235-236 | while the fall-through timer runs, one-way platforms have no effect |
| `PlayerRules.RectFollowsHitbox` | src/savematter/game/player.py:136-142 | when no platform carries the player, the image rect is centred on the hitbox after a move |
| `PlayerRules.FloorContactIff` | src/savematter/game/player.py:144-180 | the floor flag holds exactly when the floor strip, the integer rect of the hitbox's truncated bottom-left and width, touches a solid, or a one-way platform while not moving up |
| `PlayerRules.StandingOnGround` | src/savematter/game/player.py:146-174 | standing exactly on a solid's top counts as floor contact when the hitbox is at least 1 px wide and overlaps the solid by more than the pixels truncation of the integer strip can drop |
| `PlayerRules.FractionalBottomMissesGround` | src/savematter/game/player.py:145-147 | a hitbox whose bottom is at 126.5 is not on ground starting at 128: its integer strip covers rows 126-127, although the unrounded strip would overlap |
| `PlayerRules.LastRider` | src/savematter/game/player.py:182-192 | the platform is the last moving sprite, solids first, under the floor strip, or none when no moving sprite is there |
| `PlayerRules.AnimStateIff` | src/savematter/game/player.py:271-282 | each of the seven animation states is chosen exactly under its own conditions |
| `PlayerRules.AttackReturnsToIdle` | src/savematter/game/player.py:284-287 | the attack animation plays once, then the player is idle |
| `PlayerRules.PlayerImage` | src/savematter/game/player.py:288-290 | the frame shown is a valid index into the current state's frames |
| `PlayerRules.OldRectSnapshot` | src/savematter/game/player.py:300-307 | after a frame, old_rect is the hitbox at its start and the jump request is consumed |
| `PlayerRules.Damaged` | src/savematter/game/player.py:252-255 | damage costs one health and starts the immunity timer exactly when the timer is inactive |
| `PlayerRules.ImmunityWindow` | src/savematter/game/player.py:252-255 | two hits less than 650 ms apart cost exactly one health |
| `Players.Player.constructor` | src/savematter/game/player.py:19-63 | the new player's state is the initial view with five fresh timers |
| `Players.Player.Attack` | src/savematter/game/player.py:95-100 | the new state is the attack rule applied to the old one |
| `Players.Player.Input` | src/savematter/game/player.py:69-93 | the new state is the input rule applied to the old one |
| `Players.Player.Steer` | src/savematter/game/player.py:74-90 | the new state is the unlocked part of the input rule |
| `Players.Player.CollisionX` | src/savematter/game/player.py:194-214 | the new state is collision("x") over the solids |
| `Players.Player.CollisionY` | src/savematter/game/player.py:194-233 | the new state is collision("y") over the solids |
| `Players.Player.SemiCollision` | src/savematter/game/player.py:235-250 | the new state is semi_collision over the one-way platforms |
| `Players.Player.Move` | src/savematter/game/player.py:102-142 | the new state is the whole move rule applied to the old one |
| `Players.Player.CentreRect` | src/savematter/game/player.py:139 | the image rect is re-centred on the hitbox |
| `Players.Player.MoveX` | src/savematter/game/player.py:103-105 | the horizontal step and its resolution |
| `Players.Player.MoveY` | src/savematter/game/player.py:107-135 | the vertical step, the jump, and the vertical and one-way resolutions |
| `Players.Player.Carry` | src/savematter/game/player.py:141-142 | the hitbox is carried by the stored platform's displacement |
| `Players.Player.Fall` | src/savematter/game/player.py:108-119 | the new state is the wall slide or the gravity step |
| `Players.Player.JumpStart` | src/savematter/game/player.py:121-132 | the new state is the jump rule applied to the old one |
| `Players.Player.CheckContact` | src/savematter/game/player.py:144-192 | the contact flags and the platform are those of the contact rule, whose three strips are integer rects |
| `Players.Player.GetAnimState` | src/savematter/game/player.py:271-282 | the state becomes the one the animation rule chooses, nothing else changes |
| `Players.Player.StateUpdate` | src/savematter/game/player.py:74-76 | the animation state is chosen, then the animation runs |
| `Players.Player.Animate` | src/savematter/game/player.py:284-298 | the new state is the animation rule applied to the old one |
| `Players.Player.Image` | src/savematter/game/player.py:288-295 | the frame shown is a valid index into the current state's frames |
| `Players.Player.GetDamage` | src/savematter/game/player.py:252-255 | health and immunity timer follow the damage rule; the hearts are redrawn exactly when damage is taken; coins and levels are unchanged |
| `Players.Player.UpdateTimers` | src/savematter/game/player.py:267-269 | each of the five timers is polled once |
| `Players.Player.Update` | src/savematter/game/player.py:300-307 | the new state is one whole frame of the player |
| `Players.FindPlatform` | src/savematter/game/player.py:182-192 | the loop finds the last moving sprite under the floor strip |
| `Levels.Missing` | src/savematter/game/level.py:431-437 | a solid's sweep keeps only pearls it does not meet, all of them pearls of the group |
| `Levels.FirstHit` | src/savematter/game/level.py:439-444 | the spark goes to a pearl the solid meets; none means the solid meets no pearl |
| `Levels.MissingClear` | src/savematter/game/level.py:431-437 | sweeping the clear pearls with one more solid is clearing against the longer list of solids |
| `Levels.MissingAppend` | src/savematter/game/level.py:432-437 | a sweep treats each pearl on its own, so it distributes over concatenation |
| `Levels.SmashedIsClear` | src/savematter/game/level.py:431-447 | the solids one after another destroy exactly the pearls some solid meets, keeping the rest in order |
| `Levels.ClearEmpty` | src/savematter/game/level.py:431-437 | with no solids no pearl is destroyed |
| `Levels.ClearIff` | src/savematter/game/level.py:431-437 | a pearl survives the pearl pass if and only if no solid meets it |
| `Levels.SparksPerSolid` | src/savematter/game/level.py:439-447 | each solid leaves at most one particle effect, and sparks plus survivors never exceed the pearls |
| `Levels.MissingLoses` | src/savematter/game/level.py:432-437 | a solid that meets a pearl removes at least that pearl |
| `Levels.OneHealthPerPass` | src/savematter/game/level.py:450-458 | however many hazards the hitbox touches in one pass, the player loses exactly one health when not immune, and the hearts are redrawn once |
| `Levels.ImmuneTakesNothing` | src/savematter/game/level.py:450-458 | while immune nothing touched costs health |
| `Levels.Unspent` | src/savematter/game/level.py:460-461 | the damage pass can only remove pearls |
| `Levels.UnspentIff` | src/savematter/game/level.py:456-461 | a pearl outlives the damage pass if and only if it does not meet the hitbox, immune or not |
| `Levels.SpentSparks` | src/savematter/game/level.py:460-466 | one particle effect for each pearl the damage pass destroys |
| `Levels.Uncollected` | src/savematter/game/level.py:469-475 | the pickup pass can only remove items |
| `Levels.UncollectedIff` | src/savematter/game/level.py:469-475 | an item stays if and only if the hitbox does not meet it |
| `Levels.FirstPicked` | src/savematter/game/level.py:476-480 | the activated item is one the hitbox meets |
| `Levels.PickupRemovesAll` | src/savematter/game/level.py:469-486 | an item is activated exactly when some item is collected, and every item met goes |
| `Levels.FirstPickedIsEarliest` | src/savematter/game/level.py:476-480 | the activated item is the earliest one met in group order; none is activated when none is met |
| `Levels.EqualCentresNeverStruck` | src/savematter/game/level.py:500-511 | a target straight above or below the player's centre is never turned round |
| `Levels.StruckIff` | src/savematter/game/level.py:500-512 | a target is struck if and only if it overlaps the player's rect while the player attacks facing it |
| `Levels.Deflected` | src/savematter/game/level.py:507-512 | a struck target reverses by its own rule, any other is untouched, and none moves |
| `Levels.DeflectedAll` | src/savematter/game/level.py:489-512 | every target is treated by the attack test on its own |
| `Levels.DeflectOnceInCooldown` | src/savematter/game/level.py:507-512 | a target struck twice within 250 ms turns round only once |
| `Levels.Clamped` | src/savematter/game/level.py:514-519 | a left edge at or past 0 goes to 0, else a right edge at or past the level width goes to the width; only x changes |
| `Levels.ClampedInside` | src/savematter/game/level.py:514-519 | a hitbox no wider than the level ends up inside it horizontally |
| `Levels.ClampedIdempotent` | src/savematter/game/level.py:514-519 | clamping a hitbox narrower than the level twice changes nothing more |
| `Levels.Exits` | src/savematter/game/level.py:521-527 | at most two requests, both for the overworld with an unlock, and a fall below the level always requests the -1 penalty |
| `Levels.BothExitsFire` | src/savematter/game/level.py:521-527 | falling out while touching the flag makes both calls, the penalty first |
| `Levels.StaysInLevel` | src/savematter/game/level.py:521-527 | inside the level and away from the flag no stage change is requested |
| `Levels.Level.constructor` | src/savematter/game/level.py:62-67 | the level is the map's width and height in tiles, with its unlock and finish rect, and no pearls or effects yet |
| `Levels.Level.SmashPearls` | src/savematter/game/level.py:431-447 | the pearls left and the sparks added are those of the pearl pass |
| `Levels.Level.HurtPlayer` | src/savematter/game/level.py:450-458 | health, immunity timer and heart redraws are those of get_damage over every damage sprite met |
| `Levels.Level.SpendPearls` | src/savematter/game/level.py:460-466 | the pearls that met the hitbox are destroyed with a spark each |
| `Levels.Level.Collect` | src/savematter/game/level.py:469-486 | met items go; the first of them is applied to the game data, with the coins, health and HUD calls activate gives, and sparks; if none is met the data is unchanged |
| `Levels.Level.Deflect` | src/savematter/game/level.py:489-512 | pearls and teeth are each deflected by the attack rule |
| `Levels.Level.ClampPlayer` | src/savematter/game/level.py:514-519 | only the hitbox changes, to its clamped value |
| `Levels.Level.DamagePasses` | src/savematter/game/level.py:430-466 | pearls meeting a solid and then the pearls meeting the hitbox are gone with a spark each; each damage sprite met costs health as get_damage says, with its heart redraw; only the immunity timer of the player changes |
| `Levels.Level.Interact` | src/savematter/game/level.py:430-486 | the damage passes, then the first item met is applied to the health the damage left, its HUD calls after the damage's, its spark after theirs |
| `Levels.Level.Collisions` | src/savematter/game/level.py:415-527 | the passes in source order: the pearls, teeth and items left, the health, immunity, coins and HUD calls, the sparks, the clamped hitbox with nothing else of the player changed, and the exit requests on the clamped hitbox |
| `Levels.Level.CreatePearl` | src/savematter/game/level.py:405-413 | the pearl a shell fires joins the end of the pearl group, centred 50 px ahead of the shell in its direction, its reverse timer inactive |
| `Levels.Level.CreatePearls` | src/savematter/game/level.py:405-413 | a frame's pearls join the group in the order they were fired |
| `Levels.Level.Run` | src/savematter/game/level.py:529-538 | the fired pearls join, the player takes its frame, then the collision passes run on the moved hitbox: the player's new state, the groups, the health, coins and HUD calls, and the exit requests |
| `Levels.Sweep` | src/savematter/game/level.py:432-444 | one solid's sweep returns the pearls missed and the first met |
| `Levels.SmashAll` | src/savematter/game/level.py:431-447 | the loop over the solids computes the pearls left and their sparks |
| `Levels.Spend` | src/savematter/game/level.py:450-466 | the loop over the damage sprites computes the pearls left and their sparks |
| `Levels.Pick` | src/savematter/game/level.py:469-480 | the items left and the first one met |
| `Levels.DeflectEach` | src/savematter/game/level.py:494-512 | the loop applies the attack rule to each target in turn |
| `LevelSetup.TileGroups` | src/savematter/game/level.py:124-130 | terrain tiles, and only they, block; platform tiles, and only they, are one-way; a tile joins at most one such group |
| `LevelSetup.TileZ` | src/savematter/game/level.py:132-136 | a tile is painted at BG_TILES or at MAIN |
| `LevelSetup.SolidTilesOnMainLayer` | src/savematter/game/level.py:124-136 | a tile joins a collision group exactly when it is painted at MAIN, in front of the background details |
| `LevelSetup.TilePos` | src/savematter/game/level.py:138-139 | a tile at grid cell (col, row) sits at that cell's corner |
| `LevelSetup.LastTileZ` | src/savematter/game/level.py:117-143 | the z left behind by the tile loop exists exactly when the map has a tile, and is MAIN when there is a platform tile |
| `LevelSetup.PlaceBgDetailsAsWritten` | src/savematter/game/level.py:147-179 | the loop gives each background detail the z of the as-written rule, with TypeError for a nameless object |
| `LevelSetup.CandleOnMainLayer` | src/savematter/game/level.py:166-179 | as written, a candle that comes first after a platform tile is painted, with its light, at MAIN |
| `LevelSetup.BgDetailsBehind` | src/savematter/game/level.py:154-179 | in the corrected layout every background detail is at BG_TILES |
| `LevelSetup.AsWrittenAgreesAfterStatic` | src/savematter/game/level.py:154-179 | once a static object has set z, the as-written loop and the corrected one agree |
| `LevelSetup.CandleLightPos` | src/savematter/game/level.py:173-175 | a candle's light is 20 px up and left of the candle |
| `LevelSetup.SubstringOfSawDamages` | src/savematter/game/level.py:230-231 | as written, decorations named "aw", "s" or "" also join the damage group |
| `LevelSetup.OnlySawDamages` | src/savematter/game/level.py:230-231 | with the corrected test only a saw joins the damage group |
| `LevelSetup.DamagesImpliesAsWritten` | src/savematter/game/level.py:230-231 | every decoration the corrected test admits the written one admits too |
| `LevelSetup.ObjectRoleOf` | src/savematter/game/level.py:184-245 | a nameless object raises TypeError; a decoration is one-way exactly for the palms, harmful exactly for a saw under the corrected membership test (see Findings), at BG_DETAILS exactly when its name contains "bg" |
| `LevelSetup.DecorationAnimSpeed` | src/savematter/game/level.py:237-241 | a palm animates within 1 of ANIM_SPEED, any other decoration at ANIM_SPEED |
| `LevelSetup.FinishRect` | src/savematter/game/level.py:247-250 | exactly the flag object gives the finish rect, which is its own rectangle |
| `LevelSetup.StepsIff` | src/savematter/game/level.py:266 | range(lo, hi, 20) holds exactly the values from lo below hi that are a multiple of 20 from lo |
| `LevelSetup.StepsCount` | src/savematter/game/level.py:320 | range(lo, hi, 20) has ceil((hi - lo) / 20) values |
| `LevelSetup.Anchors` | src/savematter/game/level.py:288-298 | a wide object moves along x between the midpoints of its side edges, any other along y between the midpoints of its top and bottom |
| `LevelSetup.AnchorsSpanObject` | src/savematter/game/level.py:288-298 | the track runs through the object's middle and spans its longer side |
| `LevelSetup.SawChain` | src/savematter/game/level.py:312-339 | the chain has one link per 20 px between the truncated anchors along the saw's axis |
| `LevelSetup.MovingPlanOf` | src/savematter/game/level.py:253-339 | a "spike" is a spiked ball; a nameless object raises TypeError; any other moves between its anchors, one-way when its platform property is set and harmful otherwise, and only a saw has a chain |
| `LevelSetup.SpikeChainRadii` | src/savematter/game/level.py:266-276 | a spike of radius r has a chain ball at exactly 0, 20, 40 and so on below r |
| `LevelSetup.EnemyGroups` | src/savematter/game/level.py:342-361 | a tooth hurts and patrols, a shell is solid, any other name makes nothing |
| `LevelSetup.ItemCentre` | src/savematter/game/level.py:364-376 | a nameless item raises TypeError; any other is centred half a tile right of and below its corner |
| `LevelSetup.WaterRow` | src/savematter/game/level.py:386-403 | one row of a water body has as many tiles as columns |
| `LevelSetup.BuildWater` | src/savematter/game/level.py:379-403 | the nested loops produce the water body's tiles row by row |
| `LevelSetup.WaterCount` | src/savematter/game/level.py:382-386 | a water body has rows times columns tiles |
| `LevelSetup.WaterSurfaceOnTop` | src/savematter/game/level.py:390-403 | exactly the tiles of the top row are the animated surface |
| `LevelSetup.WaterRowSurface` | src/savematter/game/level.py:387-403 | each tile of a row is that many tiles down, and surface exactly in row 0 |
| `Cameras.CentredOffset` | src/savematter/utils/groups.py:150-151 | the offset draws the target at the centre of the window |
| `Cameras.ConstrainedWithinBorders` | src/savematter/utils/groups.py:116-136 | when the level is at least a window across and high, the constrained offset lies within the borders |
| `Cameras.ConstrainedKeepsInside` | src/savematter/utils/groups.py:116-136 | an offset already within the borders is kept |
| `Cameras.ConstrainedIdempotent` | src/savematter/utils/groups.py:116-136 | constraining twice is the same as constraining once |
| `Cameras.NarrowLevelPinned` | src/savematter/utils/groups.py:117-126 | for a level narrower than the window the second comparison wins and pins the offset at the right border |
| `Cameras.CameraShowsOnlyLevel` | src/savematter/utils/groups.py:77-136 | the constrained camera never shows anything left, right or below the level, nor above its top limit |
| `Cameras.LargeCloudStaysInStrip` | src/savematter/utils/groups.py:173-178 | the large cloud's x stays within (-width, 0] for every non-negative dt |
| `Cameras.LargeCloudWraps` | src/savematter/utils/groups.py:173-178 | a step reaching -width wraps to exactly 0; any other step moves left by 50 dt |
| `Cameras.LargeCloudCoversLevel` | src/savematter/utils/groups.py:103 | wherever the large cloud is in its strip, its copies reach past the level's right edge |
| `Cameras.SpawnedCloud` | src/savematter/utils/groups.py:138-144 | the cloud created is on the clouds layer with its top-left at the drawn position |
| `Cameras.SpawnedCloudInRange` | src/savematter/utils/groups.py:138-144 | a spawned cloud lies in its drawing range, starting right of the level |
| `Cameras.BgColumn` | src/savematter/utils/groups.py:92-94 | a column has one tile per row from the first row down to the level's last row |
| `Cameras.BgTilesCount` | src/savematter/utils/groups.py:90-94 | the tiled background has columns times rows tiles |
| `Cameras.BgTilesBehind` | src/savematter/utils/groups.py:94 | every background tile is on layer -1, behind every layer of the table |
| `Cameras.BgTilesReachTop` | src/savematter/utils/groups.py:92 | the first row starts at or above the highest point the camera can show |
| `Cameras.BuildBgTiles` | src/savematter/utils/groups.py:90-94 | the nested loops produce the background tiles column by column |
| `Cameras.PaintAt` | src/savematter/utils/groups.py:191-192 | one blit per sprite painted |
| `Cameras.LevelPaintOrder` | src/savematter/utils/groups.py:186-192 | every sprite of the group is painted exactly once, z ascending, equal z in group order, at its top-left plus the offset |
| `Cameras.AllSprites.constructor` | src/savematter/utils/groups.py:65-114 | the borders of the level; with a tile, the group holds the tiled background; without one, the sky, the large cloud at 0, an active repeating 2500 ms cloud timer and the 20 initial clouds |
| `Cameras.AllSprites.Add` | src/savematter/utils/groups.py:114 | a sprite joins the end of the group |
| `Cameras.AllSprites.ConstrainCamera` | src/savematter/utils/groups.py:116-136 | the offset becomes its constrained value and nothing else changes |
| `Cameras.AllSprites.Draw` | src/savematter/utils/groups.py:146-192 | the offset centres the target within the borders; with the sky the cloud timer is polled, a cloud is spawned when it fires, and the large cloud drifts; the blits are the level paint order |
| `Cameras.BackgroundBlitsExact` | src/savematter/utils/groups.py:38-51 | the background pass paints exactly the shown sprites, at top-left plus offset, in z order |
| `Cameras.MainBlitsExact` | src/savematter/utils/groups.py:53-61 | the main pass paints exactly the main-layer sprites, icons 28 px higher, in centre-y order |
| `Cameras.WorldPaintRules` | src/savematter/utils/groups.py:31-61 | background pass then main pass; nothing above the main layer and no path to a locked level is ever painted |
| `Cameras.WorldSprites.constructor` | src/savematter/utils/groups.py:25-29 | an empty group with a zero offset |
| `Cameras.WorldSprites.Add` | src/savematter/utils/groups.py:24 | a sprite joins the end of the group |
| `Cameras.WorldSprites.Draw` | src/savematter/utils/groups.py:31-61 | the offset centres the target and the blits are those of the two passes |
| `WorldIcons.CanMove` | src/savematter/sprites/overworld.py:36-42 | a direction is open exactly when it is a key of the node and the level named by its value's first digit is unlocked; an empty value or a non-digit raises |
| `WorldIcons.CanMoveMonotone` | src/savematter/sprites/overworld.py:36-42 | unlocking more levels never closes a direction |
| `WorldIcons.NodeAt` | src/savematter/sprites/overworld.py:25-33 | a node is centred on its tile's middle, with its level and its directions |
| `WorldIcons.NodeOnGrid` | src/savematter/sprites/overworld.py:25-34 | a node placed at a tile reports that tile as its grid position |
| `WorldIcons.AnimState` | src/savematter/sprites/overworld.py:65-74 | each walking state is chosen exactly for its own unit direction |
| `WorldIcons.FindDirTowardsNext` | src/savematter/sprites/overworld.py:90-104 | the direction is a unit step towards the next waypoint, vertical exactly when it shares the centre's x; with no waypoint the icon stands still and is idle |
| `WorldIcons.FindDirSteady` | src/savematter/sprites/overworld.py:90-104 | after find_dir the icon moves exactly when it has a waypoint |
| `WorldIcons.CollideYDrops` | src/savematter/sprites/overworld.py:113-121 | the vertical check drops at most the first waypoint and keeps the rest in order |
| `WorldIcons.CollideXDrops` | src/savematter/sprites/overworld.py:124-132 | the horizontal check drops at most the first waypoint and keeps the rest in order |
| `WorldIcons.NoSecondSnap` | src/savematter/sprites/overworld.py:113-132 | once the vertical check has removed a waypoint the horizontal check cannot fire in the same call |
| `WorldIcons.PointCollisionSafe` | src/savematter/sprites/overworld.py:106-132 | on a steady icon with a waypoint, point_collision never raises, removes at most the first waypoint and leaves the icon steady |
| `WorldIcons.PointCollisionSnaps` | src/savematter/sprites/overworld.py:106-132 | the removed waypoint has the crossed coordinate snapped onto it; with nothing removed the icon does not move |
| `WorldIcons.StartedMoving` | src/savematter/sprites/overworld.py:82-88 | an empty path raises; otherwise the icon jumps to the first point, keeps the rest as its path and heads for the next |
| `WorldIcons.MovedSteady` | src/savematter/sprites/overworld.py:134-141 | a steady icon updates without error and stays steady; without waypoints it stays put; otherwise at most one waypoint is consumed |
| `WorldIcons.PlayerIcon.constructor` | src/savematter/sprites/overworld.py:46-63 | the icon stands at pos with no direction and no path, in the given state at frame 0 |
| `WorldIcons.PlayerIcon.GetAnimState` | src/savematter/sprites/overworld.py:65-74 | the state becomes the one for the current direction; nothing else changes |
| `WorldIcons.PlayerIcon.FindDirection` | src/savematter/sprites/overworld.py:90-104 | the direction becomes find_dir's; nothing else changes |
| `WorldIcons.PlayerIcon.StartMoving` | src/savematter/sprites/overworld.py:82-88 | the motion becomes that of start_moving, or raises and changes nothing |
| `WorldIcons.PlayerIcon.PointCollision` | src/savematter/sprites/overworld.py:106-132 | the motion becomes that of point_collision, or its error is reported |
| `WorldIcons.PlayerIcon.Update` | src/savematter/sprites/overworld.py:134-141 | the icon moves by the update rule without error, the state follows the direction and the animation advances |
| `WorldMap.Centred` | src/savematter/game/overworld.py:106-109 | every path point is moved to the middle of its tile, and the points keep their order |
| `WorldMap.PathsTableKeys` | src/savematter/game/overworld.py:104-112 | a stage is a key of the path table exactly when some path ends there, and it holds the last such path |
| `WorldMap.BuildPaths` | src/savematter/game/overworld.py:104-112 | the loop over the Paths layer builds that table |
| `WorldMap.AvailDirs` | src/savematter/game/overworld.py:125-129 | a node's directions are exactly its properties named left, right, up or down, with their values |
| `WorldMap.Nodes` | src/savematter/game/overworld.py:115-137 | every node comes from an object named "Node", with that object's position, level and direction properties, and there is at most one node per object |
| `WorldMap.IconStartsOnNode` | src/savematter/game/overworld.py:115-124 | the icon is created at the centre of a node of the current level |
| `WorldMap.FirstOfLevelZero` | src/savematter/game/overworld.py:46-48 | the current node is the first node of level 0; with none the indexing raises IndexError |
| `WorldMap.GridOfLevelsKeys` | src/savematter/game/overworld.py:141 | the node table has a key exactly for each level that has a node |
| `WorldMap.RangeRun` | src/savematter/game/overworld.py:159 | range with a step of 1 or -1 counts n values from its start |
| `WorldMap.RunStepsCount` | src/savematter/game/overworld.py:157-165 | a run has abs(int(p)) steps, one unit each in the direction of p |
| `WorldMap.RunTiles` | src/savematter/game/overworld.py:159-165 | one tile per step of a run |
| `WorldMap.PathTiles` | src/savematter/game/overworld.py:146-167 | a path's tiles start at its start node and end at its end node |
| `WorldMap.RunTilesShape` | src/savematter/game/overworld.py:157-165 | the run has abs(int(p)) tiles, the k-th k + 1 units from the start tile along the run's axis |
| `WorldMap.SegmentTilesCount` | src/savematter/game/overworld.py:149-165 | each segment adds abs(int(dy)) vertical tiles and then abs(int(dx)) horizontal ones |
| `WorldMap.CentreSegment` | src/savematter/game/overworld.py:151-155 | between two tile centres the direction is the tile difference and the start tile is the first tile |
| `WorldMap.WholeRun` | src/savematter/game/overworld.py:157-165 | a run of a whole number n of tiles ends n units from its start, one unit per tile |
| `WorldMap.SegmentReachesNextTile` | src/savematter/game/overworld.py:149-165 | between two tile centres on one row or column, the tiles step one unit at a time away from the first tile and end on the second |
| `WorldMap.AppendRun` | src/savematter/game/overworld.py:157-165 | one inner loop appends the run's tiles |
| `WorldMap.AppendSegment` | src/savematter/game/overworld.py:150-165 | the body of the waypoint loop appends the segment's tiles |
| `WorldMap.BuildPathTiles` | src/savematter/game/overworld.py:144-167 | the appending loops build the path's tiles |
| `WorldMap.ShapeSymmetric` | src/savematter/game/overworld.py:173-209 | a tile's image does not depend on which neighbour comes first along the path |
| `WorldMap.ShapeOfNeighbours` | src/savematter/game/overworld.py:176-207 | straight tiles and the four corners get the image named after their neighbours' sides |
| `WorldMap.PathSprites` | src/savematter/game/overworld.py:170-216 | one sprite per interior tile of a path |
| `WorldMap.PathSpritesCover` | src/savematter/game/overworld.py:170-216 | each interior tile gets a sprite at its grid position on its path's level, and the end tiles get none |
| `WorldMap.AsWorldSprite` | src/savematter/game/overworld.py:211-216 | a path sprite is on the path layer and is painted exactly when its level is unlocked |
| `WorldMap.EntryTiles` | src/savematter/game/overworld.py:144-167 | a path whose start or end stage has no node raises KeyError; otherwise its tiles are the path tiles between those nodes |
| `WorldMap.Reverse` | src/savematter/game/overworld.py:247 | the reversed path holds the points in the opposite order |
| `WorldMap.MovePathAfterCanMove` | src/savematter/game/overworld.py:241-249 | after can_move allows a direction, move fails only for a missing path and otherwise follows it forwards, or backwards when the value ends in "r" |
| `WorldMap.TryMoveSteady` | src/savematter/game/overworld.py:221-236 | one direction check keeps the icon steady |
| `WorldMap.InputMotionSteady` | src/savematter/game/overworld.py:218-236 | input never moves an icon that still has waypoints and otherwise leaves it steady |
| `WorldMap.InputWithoutKeys` | src/savematter/game/overworld.py:218-239 | with no key pressed the icon is left alone |
| `WorldMap.LockedDirectionIgnored` | src/savematter/game/overworld.py:221-236 | a locked direction is never taken, whatever is pressed |
| `WorldMap.NodeRects` | src/savematter/game/overworld.py:252 | the node collision list holds each node's rect in order |
| `WorldMap.CurrentNodeRule` | src/savematter/game/overworld.py:251-254 | the current node becomes the first node under the icon, and stays when none is |
| `WorldMap.Overworld.Create` | src/savematter/game/overworld.py:46-48 | the overworld starts at the first node of level 0, or raises IndexError |
| `WorldMap.Overworld.constructor` | src/savematter/game/overworld.py:40-51 | the overworld holds its data, icon, nodes, paths and current node |
| `WorldMap.Overworld.Try` | src/savematter/game/overworld.py:221-236 | the icon's motion becomes that of one direction check, or the error it raises is reported |
| `WorldMap.Overworld.Input` | src/savematter/game/overworld.py:218-239 | the icon moves as the keys allow; confirming while standing on a node records its level as current and requests the level stage; the unlocked level, health, coins, HUD calls and overworld fields are kept, and so is the icon's animation |
| `WorldMap.Overworld.GetCurrNode` | src/savematter/game/overworld.py:251-254 | the current node follows the node rule |
| `WorldMap.Overworld.Run` | src/savematter/game/overworld.py:256-266 | input, then the current node, then the icon's update, with the level request of the input; a confirm on a node records that node's level as the current level; the unlocked level, health, coins, HUD calls and overworld fields are kept; after the update the icon's state is the one for its direction and its frame index has advanced by the animation speed times dt |
| `Hud.NewHeart` | src/savematter/game/ui.py:81-90 | a new heart rests at frame 0, not playing, with a one-shot rest timer of the drawn duration |
| `Hud.Animated` | src/savematter/game/ui.py:92-99 | animating never moves the heart or changes its rest duration |
| `Hud.Stepped` | src/savematter/game/ui.py:105-111 | every update keeps a heart valid: its frame index and image stay within the frames and a resting heart is at frame index 0 |
| `Hud.HeartPlaysInOrder` | src/savematter/game/ui.py:92-95 | while playing within the frames the heart shows frame int(frame_index), never an earlier one |
| `Hud.HeartRestsAfterLastFrame` | src/savematter/game/ui.py:96-99 | past the last frame the heart stops, rewinds, keeps the last frame on screen and starts resting now |
| `Hud.HeartWaitsWhileResting` | src/savematter/game/ui.py:101-111 | a resting heart whose rest has not elapsed does not change |
| `Hud.HeartResumesAfterRest` | src/savematter/game/ui.py:105-111 | once the rest has elapsed the heart plays again from frame index 0 |
| `Hud.HeartRow` | src/savematter/game/ui.py:44-47 | one heart per unit of the amount |
| `Hud.HeartRowLayout` | src/savematter/game/ui.py:44-47 | the i-th heart is at x = 10 + i times (heart width + 5), y = 10, freshly built with the i-th draw |
| `Hud.HeartRowValid` | src/savematter/game/ui.py:44-47 | every freshly built heart is valid |
| `Hud.HeartCount` | src/savematter/game/ui.py:44 | range(amount) builds amount hearts, none for a negative amount |
| `Hud.LastHeartsAppend` | src/savematter/game/data.py:29-40 | the last heart redraw of a longer call list is the later one's, if it has one |
| `Hud.CoinCallsLastHearts` | src/savematter/game/data.py:34-40 | the coins setter redraws the hearts only when it converts coins, last with the final health |
| `Hud.HeartsFollowHealth` | src/savematter/game/data.py:10-40 | the last heart redraw always carries the current health: initially, after the health setter and after the coins setter |
| `Hud.CoinsShownForOneSecond` | src/savematter/game/ui.py:36-68 | the coin counter is shown from a change until the first poll one second later, and not after |
| `Hud.Ui.constructor` | src/savematter/game/ui.py:29-37 | no hearts, 0 coins, an inactive one-shot 1000 ms coin timer |
| `Hud.Ui.Create` | src/savematter/game/ui.py:17-37 | an empty heart frame list raises IndexError; otherwise the heart width is the first frame's and the counter is hidden |
| `Hud.Ui.CreateHearts` | src/savematter/game/ui.py:40-47 | the old hearts are replaced by the row for the amount; the coin amount is kept |
| `Hud.Ui.ShowCoins` | src/savematter/game/ui.py:66-68 | the amount is remembered, the coin timer starts now and the counter shows the amount |
| `Hud.Ui.Apply` | src/savematter/game/data.py:14-40 | a heart redraw rebuilds the row and a coin display shows the counter, each leaving the other's state alone |
| `Hud.Ui.ApplyAll` | src/savematter/game/data.py:14-40 | calls applied in order leave the row of the last heart redraw and the last coin amount, shown from now, or the old hearts and counter where there is none |
| `Hud.Ui.Update` | src/savematter/game/ui.py:70-77 | the coin timer is polled and every heart takes one update step, in place |
| `GameLoop.SwitchedAsWritten` | src/savematter/main.py:64-82 | as written, a call without an unlock raises TypeError, and every other call goes to the overworld |
| `GameLoop.ConfirmNeverEntersLevelAsWritten` | src/savematter/game/overworld.py:237-239 | as written, the overworld's confirm raises TypeError, and even with an unlock a LEVEL request lands on the overworld: no level is ever entered from the map |
| `GameLoop.SwitchEntersLevel` | src/savematter/main.py:65-72 | corrected, a LEVEL request enters the current level and changes nothing else, or raises KeyError for a level without a map |
| `GameLoop.AsWrittenAgreesOnOverworld` | src/savematter/main.py:73-80 | the correction changes nothing for the overworld requests the levels make |
| `GameLoop.SwitchToOverworld` | src/savematter/main.py:73-80 | returning to the overworld with a positive unlock sets the unlocked level; any other unlock costs exactly one health; the current level is kept |
| `GameLoop.SwitchCallsFollowHealth` | src/savematter/main.py:73-80 | a frame's switches record one heart redraw per health point they cost and no other HUD call, the last with the health they leave, and end where the switches applied in turn do |
| `GameLoop.SwitchStepErr` | src/savematter/main.py:64-82 | a switch that raises ends the frame's switches with nothing reached, recorded or redrawn |
| `GameLoop.SwitchStepOk` | src/savematter/main.py:64-82 | a switch that succeeds hands on to the switched game, recording a redraw and rebuilding the heart row exactly when it costs health |
| `GameLoop.HeartsAfterValid` | src/savematter/game/ui.py:40-47 | the hearts left by a frame's switches are valid whenever the hearts before were |
| `GameLoop.LevelExitsOutcome` | src/savematter/game/level.py:521-527 | in one frame, falling out costs a health point, reaching the flag unlocks the level's unlock or costs a point when it is not positive, and either one puts the game on the overworld |
| `GameLoop.Game.constructor` | src/savematter/main.py:54-60 | the game starts running in level 5 with the given HUD and progress state |
| `GameLoop.Game.Create` | src/savematter/main.py:41-60 | an empty heart frame list raises IndexError; otherwise the game runs level 5 with 5 health shown as 5 hearts |
| `GameLoop.Game.SwitchStage` | src/savematter/main.py:64-82 | the corrected switch (see Findings) applied to the game, or its error with nothing changed; coins, the coin counter and the overworld fields are kept; a switch that costs health records one heart redraw with the new health and rebuilds the heart row for it, any other switch leaves the HUD calls and the hearts alone |
| `GameLoop.Game.ShowCalls` | src/savematter/game/data.py:14-40 | the HUD calls a stage's run recorded, applied in order: the hearts become the row of the last redraw, which carries the current health, the counter shows the last coin amount from now, and the hearts follow the health again |
| `GameLoop.Game.SwitchAll` | src/savematter/main.py:64-82 | a frame's switch_stage calls in order until the first exception: the game reached, one heart redraw per health point lost and the row for the health left; coins, the counter and the overworld fields are kept |
| `GameLoop.Game.CheckGameOver` | src/savematter/main.py:84-87 | the game stops exactly when health is not positive |
| `GameLoop.Game.Frame` | src/savematter/main.py:89-102 | a game that is over stops and changes neither the game nor the HUD; otherwise the stage's requests are applied in order through the corrected switch (see Findings) until the first error, recording one heart redraw per health point lost; coins and the overworld fields are kept; without an error the HUD update then polls the coin timer and steps every heart left by the switches, and an error ends the frame before it |
| `Support.RFind` | src/savematter/utils/support.py:35 | the position of the last occurrence of the character, or -1 exactly when it does not occur |
| `Support.Find` | src/savematter/utils/support.py:105 | the position of the first occurrence of the character, or -1 exactly when it does not occur |
| `Support.SliceTo` | src/savematter/utils/support.py:35 | an in-range slice end gives the prefix of that length |
| `Support.Stem` | src/savematter/utils/support.py:105 | a file name's stem has no ".", is the whole name when there is none, and otherwise is the prefix ending at the first "." |
| `Support.ParseInt` | src/savematter/utils/support.py:85 | parsing succeeds exactly for an optionally signed non-empty run of digits, and fails with ValueError |
| `Support.GetAssetWithoutSuffix` | src/savematter/utils/support.py:31-38 | without a suffix the asset path is the joined path |
| `Support.GetAssetNoParts` | src/savematter/utils/support.py:33-34 | a suffix with no parts raises IndexError |
| `Support.GetAssetAppends` | src/savematter/utils/support.py:33-36 | a last part without "." gets "." and the suffix appended |
| `Support.GetAssetReplacesExtension` | src/savematter/utils/support.py:33-36 | a file's extension is replaced by the suffix and the folders before it are kept |
| `Support.SameExtensionKept` | src/savematter/utils/support.py:33-36 | asking for the extension a file already has returns its path unchanged |
| `Support.Child` | src/savematter/utils/support.py:46 | the entry found is one of the folder's entries and has the name asked for |
| `Support.WalkFailsOnlyOffFolders` | src/savematter/utils/support.py:46-49 | the walk raises NotADirectoryError exactly when the parts do not lead to a folder |
| `Support.WalkPreOrder` | src/savematter/utils/support.py:53-63 | the walk yields one step per folder of the tree, starting with the folder itself and its subfolder and file names |
| `Support.WalkEntriesCount` | src/savematter/utils/support.py:62-63 | walking a folder's subfolders yields one step per folder below it |
| `Support.NamesPartition` | src/savematter/utils/support.py:53-58 | the subfolder and file names split the entries by kind: every entry is in exactly one list, under its name |
| `Support.StepFramesOrdered` | src/savematter/utils/support.py:84-86 | a folder's frames are its files in ascending frame number, each exactly once, each one's path the folder's path joined with the file name, and every file name has a numeric stem |
| `Support.AbsoluteFolderJoin` | src/savematter/utils/support.py:86 | joining a file name to an absolute folder path gives the folder, "/" and the name |
| `Support.FramesByNumber` | src/savematter/utils/support.py:85 | frame 2 sorts before frame 10 |
| `Support.StoreFilesKeys` | src/savematter/utils/support.py:102-107 | after one folder the dictionary's keys are the old keys plus the files' stems, and each new value is the path of a file with that stem |
| `Support.ImageDictKeys` | src/savematter/utils/support.py:100-108 | the image dictionary's keys are exactly the stems of all files walked |
| `Support.FilesOnly` | src/savematter/utils/support.py:53-63 | a folder of files only has no subfolder names and nothing further to walk |
| `Support.FlatSubfoldersWalk` | src/savematter/utils/support.py:62-63 | when the subfolders hold only files, no step below the top folder has subfolders |
| `Support.AnimStatesOfFirstOnly` | src/savematter/utils/support.py:120-123 | when only the first step has subfolders, the states are those subfolders' frames |
| `Support.AnimStatesOfTwoLevels` | src/savematter/utils/support.py:111-124 | for a folder of animation folders that hold only frames, the states are its subfolders mapped to their frames |
| `Support.StoreStatesContents` | src/savematter/utils/support.py:122-123 | without an exception, every name given is a key and holds what was loaded for it, and no other key is added |
| `Support.FramesOfErrSticks` | src/savematter/utils/support.py:84-88 | an exception in one folder ends the loading with that exception, whatever follows |
| `Support.StoreStatesErrSticks` | src/savematter/utils/support.py:122-123 | an exception loading one animation ends the loading with it |
| `Support.AnimStatesErrSticks` | src/savematter/utils/support.py:120-123 | an exception in one step ends the whole walk with it |
| `Support.LoadStep` | src/savematter/utils/support.py:85-88 | loads one folder's files in frame-number order, as the frame specification says |
| `Support.ImportFrames` | src/savematter/utils/support.py:75-89 | returns the frames of every folder walked, each folder sorted by number, or the first exception |
| `Support.ImportImageDict` | src/savematter/utils/support.py:92-108 | returns every file walked stored under its stem, or NotADirectoryError |
| `Support.ImportAnimStates` | src/savematter/utils/support.py:111-124 | returns the frames of every subfolder met on the walk under its name, or the first exception |
| `Support.WalkFrames` | src/savematter/utils/support.py:83-89 | the loop over the walked folders yields exactly the frame list defined folder by folder, or the first exception met |
| `Support.StoreFolder` | src/savematter/utils/support.py:101-107 | the loop over one folder's files yields the dictionary where each file's path sits under its stem, a later file replacing an earlier one of the same stem |
| `Support.StoreState` | src/savematter/utils/support.py:122-123 | one subfolder's frames are stored under its name, or the exception loading them raises is returned |
| `Support.StoreStep` | src/savematter/utils/support.py:121-123 | the loop over one folder's subfolders stores each one's frames in turn, stopping at the first exception |
| `Support.WalkStates` | src/savematter/utils/support.py:119-124 | the loop over the walk yields the animation dictionary defined step by step, or the first exception |
| `Support.PrefixedPathsEndInSuffix` | src/savematter/utils/support.py:127-161 | font and sound paths never raise and end in their suffix |

## Left out

- Rendering: every blit, fill, image flip, mask, font rendering, the sky, the player's damage flicker (a sine of the ticks) and the camera's drawing of sprites as pixels. Paint order is modelled as the sequence of sprites to be drawn.
- Sounds and music: `.play()` and `set_volume` have no effect on the state.
- Asset and map loading: pygame image, font and sound loading and the TMX parser. Map objects enter the model as records of name, position, size and properties, and the asset folder as a tree of entries.
- pathlib normalisation of asset paths: joining is modelled as "/"-separated text, with empty parts ignored and absolute parts replacing the path.
- Support.Walk: entry names are taken to be unique within a folder, as they are on a file system; the order of `iterdir` is the entries' order.
- The display surface: the `TypeError`s raised when a surface or rect is missing before the window exists are not modelled, except where a method checks its own `rect` or `path` for None.
- The event loop, `sys.exit`, the clock and `pygame.key.get_pressed`: one call of `Game.Frame` is one pass of the loop, and the keys are a record of booleans.
- A stage's `run`: the model represents it by the switch requests the stage returns, which the game applies in order, instead of a callback into the game. The progress state records its HUD calls instead of calling the HUD at once; the calls a stage's run records are applied by `GameLoop.Game.ShowCalls` before `GameLoop.Game.Frame`, all at the frame's tick.
- The random draws of `randint`, `uniform` and `choice` are parameters within their stated ranges; the ValueError of `randint` on an empty range is modelled only in Timers.
- Hud.Ui.Update: requires `dt >= 0`, because `clock.tick` never returns a negative time.
- The hearts' animation frame images, the icon's frame image (a modulus of a float frame index) and the sine and cosine of the spike's orbit, which are parameters of the position.
- The overworld's tile, water and decoration sprites (src/savematter/game/overworld.py:62-101) have no behaviour beyond their images.
- The group update of the overworld's other sprites.
- Levels.Level.Run: of `all_sprites.update` it runs only the player's update. The teeth's patrol, the shells' updates, the pearls' flight and lifetime, and the moving platforms are modelled by their own classes (`Enemies.Tooth.Update`, `Enemies.Shell.Update`, `Enemies.Pearl.Update`, `Sprites.MovingSprite.Update`), but the level does not own them and does not run them. The pearls the shells fire in a frame are a parameter of `Run`, and the level adds them to its pearl group.
- LevelSetup.ObjectRoleOf: uses the corrected harm test, under which only a decoration named "saw" is harmful. As written, src/savematter/game/level.py:230 also harms a decoration whose name is a substring of "saw". `LevelSetup.SubstringOfSawDamages` states that behaviour; see Findings.
- GameLoop.Game.SwitchStage and GameLoop.Game.Frame run the corrected switch. As written, the overworld's one-argument LEVEL request raises TypeError and no level is ever entered; `GameLoop.SwitchedAsWritten` and `GameLoop.ConfirmNeverEntersLevelAsWritten` state that behaviour; see Findings.
- Dictionary iteration order: where the code iterates a dict, the model iterates the keys in the order given.
- `int()` of a file stem accepts the ASCII digits only, without surrounding whitespace or underscores.
- The AttributeError when no node's stage equals the current level, so that no icon is ever made (src/savematter/game/overworld.py:115-124): `WorldMap.IconStart` then yields `None`, and `WorldMap.Overworld.Create` takes the icon as a parameter, so the error is not raised.
- The `hasattr` checks on sprites: the model's sprite kinds are separate sequences, so which kind a sprite is is known.
- src/savematter/utils/assets.py, code/support.py, the debug overlays, src/savematter/utils/typing.py and src/savematter/utils/settings.py beyond its constants are not part of this model.

## Findings

| source | as written | input that shows it | evidently intended | confidence | as-written member | corrected member |
|---|---|---|---|---|---|---|
| src/savematter/game/level.py:230 | `obj.name in ("saw")` tests for a substring of "saw", since `("saw")` is a string, not a tuple | a decoration named "aw" (or "s", or an empty name) joins the damage group | a membership test in the one-element tuple `("saw",)`: only a saw does damage | not executed | `LevelSetup.SubstringOfSawDamages` | `LevelSetup.OnlySawDamages` |
| src/savematter/game/level.py:166-179 | the `z` chosen for the previous tile is carried into the background-details loop, where only a "static" object sets it | a candle that comes first in the details layer, after a platform tile, is painted at MAIN with its light | every background detail is painted at BG_TILES | not executed | `LevelSetup.CandleOnMainLayer` | `LevelSetup.BgDetailsBehind` |
| src/savematter/main.py:64-82 | `switch_stage` compares a `GameState` member with the string "level" and has no default for `unlock`, while the overworld's confirm (src/savematter/game/overworld.py:239) passes only `GameState.LEVEL` | pressing confirm on any node raises TypeError; even given an unlock, a LEVEL request takes the overworld branch | a LEVEL request enters the current level | not executed | `GameLoop.ConfirmNeverEntersLevelAsWritten` | `GameLoop.SwitchEntersLevel` |
