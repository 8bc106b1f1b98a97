# samurai-game, modelled in Dafny

This project models the game logic of the samurai-game repository, a pygame
side-scroller in several generations. Each generation is a script or a `Game`
class that runs the same frame loop. The loop handles the events (quit,
clicks, the jump and attack keys), steers the player from the held arrow
keys, applies gravity and the screen or level bounds, and lands the player on
the platforms. It then moves the enemies, resolves the player's contacts with
them (a stomp from above scores 100, a side contact ends the round), and
finally scrolls the camera.

The model keeps the source's own form:

- **Value modules.**
  - `Geometry`: the rectangle tests.
  - `PlayerModel`: player states and the functions `move`, `jump`, `start_attack` and `start_death` compute.
  - `Animation`: the frame counters of `update_animation`.
  - `Enemies`: the three `Enemy.move` variants.
  - `Landing`: the platform loop.
  - `EnemyContacts`: the contact loop, as a fold over the enemies with one rule per generation.
  - `Levels`: the level layouts.
  - `Rounds`: the shared per-frame physics step.
  - `City`: the event handling that main.py and game_new.py share.
- **Mutable objects become classes.** Each one has methods specified by those functions:
  - `Players.Player` and `Enemies.Enemy` for the sprites;
  - `Cameras.Camera` and `Buttons.Button` for the camera and the menu buttons;
  - `MainGame.Game` and `NewGame.Game` for the two `Game` classes;
  - one `Session` per script for the module-level loops of game_with_textures.py, platformer/game_new.py, platformer/game.py and game.py.
- **Frames.** Every frame method ensures that the new state equals a pure `AfterFrame` of the old state. Every loop method ensures the same of `Run` over a finite sequence of per-frame inputs.
- **Properties proved about those functions:**
  - the player stays inside the level;
  - at most one stomp counts per frame;
  - patrolling enemies stay near their spawn point;
  - score plus 100 per live enemy is conserved, so the score is a multiple of 100 and never passes the level's total;
  - attacking shields the main.py player for the rest of the round;
  - the textured game's death animation ends the round on its last frame.

Keyboard, mouse and quit events, the random enemy modes of platformer/game.py
and `math.sin` are parameters (`Rounds.Input`, a `seq<Mode>`, a
`real -> real`). Positions in y, the vertical velocity and timers are exact `real`s.
Positions in x are `int`, because every x update in the source adds integers.

## Model

| member | source | states |
|---|---|---|
| Cameras.ClampInt | src/world/camera.py:19-22 | the clamped value lies in `[lo, hi]` and equals the input when that already lies there |
| Cameras.Scroll | src/world/camera.py:18-22 | the camera offset is always within `0..LEVEL_WIDTH - WIDTH`, is 0 near the left edge, is the maximum near the right edge, and centres the target in between |
| Cameras.ScrollIsClampedOffset | src/world/camera.py:19-22 | the scroll equals the target offset by half a screen, clamped to the level (an independent reference definition) |
| Cameras.ScrollMonotone | src/world/camera.py:18-22 | a target further right never scrolls the camera further left |
| Cameras.FollowedEntityOnScreen | src/world/camera.py:18-22 | a followed entity inside the level is always drawn fully on screen, and exactly at mid-screen when the camera is not clamped |
| Cameras.Camera.constructor | src/world/camera.py:10-13 | a new camera starts at offset 0 |
| Cameras.Camera.Update | src/world/camera.py:18-22 | `update` sets the offset to the clamped scroll of the target's x |
| Cameras.Camera.Apply | src/world/camera.py:15-16 | `apply` shifts a rectangle left by the offset and keeps its y and size |
| Geometry.OverlapsSymmetric | main.py:188-191 | the AABB overlap test used for contacts is symmetric |
| Geometry.FeetInsideOverlaps | game_new.py:167-171 | the stomp test of game_new.py implies overlap |
| Enemies.Spawn | src/enemies/enemy.py:12-22 | a new enemy is alive, heads right, and is anchored where it spawns |
| Enemies.ClampMove | src/enemies/enemy.py:33-46 | a dead enemy does not move; a live one stays within `patrol_range` of its anchor, is put on the right bound heading left when the step would pass it, on the left bound heading right when the step would pass that, and otherwise advances by `speed * direction` keeping its direction; only x and direction change |
| Enemies.ClampPatrolOutbound | src/enemies/enemy.py:38-43 | while the right bound is not passed, k moves advance x by k times the speed |
| Enemies.ClampPatrolTurnsAtBound | src/enemies/enemy.py:41-43 | with speed 2 and range 150, the 75th move reaches the bound still heading right, and the 76th move turns |
| Enemies.ClampMovesStayInBand | src/enemies/enemy.py:33-46 | any number of moves keeps a live enemy inside its band with a direction of ±1 |
| Enemies.PatrolMove | platformer/game_new.py:106-113 | inside the range the enemy steps `speed` in its direction; outside it reverses and steps back |
| Enemies.SpawnSatisfiesPatrolInvariant | platformer/game_new.py:94-104 | a spawned patroller satisfies the patrol invariant |
| Enemies.PatrolMovePreservesInvariant | platformer/game_new.py:106-113 | one patrol move preserves the invariant |
| Enemies.PatrolMovesBounded | platformer/game_new.py:106-113 | after any number of moves the enemy is within `patrol_range + speed` of its anchor and only x and direction changed |
| Enemies.ModeMove | platformer/game.py:110-122 | a horizontal enemy patrols; a vertical one keeps x and direction and advances its path position by 0.02 |
| Enemies.ModeMovePreservesInvariant | platformer/game.py:110-122 | either mode preserves the patrol invariant |
| Enemies.ChaseMove | game.py:78-83 | a chaser steps exactly `speed` towards the target and closes the distance by `speed` when it is at least `speed` away |
| Enemies.ChaseCloses | game.py:78-83 | after n steps the distance is at most the larger of the start distance minus n·speed and speed |
| Enemies.MoveBy | main.py:185 | each level's movement is the matching `move` variant and never changes `alive` |
| Enemies.MoveAll | game_new.py:159-160 | the enemy loop moves every enemy by the same rule and keeps their number |
| Enemies.MoveAllKeepsAlive | game_new.py:159-160 | moving never changes the number of live enemies |
| Enemies.MoveAllKeepsPatrol | platformer/game.py:297-298 | moving patrollers keeps the invariant and each enemy's anchor, speed and range |
| Enemies.KillingKeepsPatrol | platformer/game_new.py:206-214 | killing enemies keeps the patrol invariant and the anchors |
| Enemies.Enemy.constructor | src/enemies/enemy.py:12-22 | the new object's state is `Spawn` of its arguments |
| Enemies.Enemy.MoveClamped | src/enemies/enemy.py:33-46 | the object's new state is `ClampMove` of its old state |
| Enemies.Enemy.MovePatrol | platformer/game_new.py:106-113 | the object's new state is `PatrolMove` of its old state |
| Enemies.Enemy.MoveByMode | platformer/game.py:110-122 | the object's new state is `ModeMove` of its old state |
| Enemies.Enemy.Move | main.py:185 | the object's new state is `MoveBy` of its old state |
| Enemies.Enemy.MoveChase | game.py:78-83 | the object's new state is `ChaseMove` of its old state |
| Enemies.MoveEnemies | game_new.py:159-160 | the loop over distinct enemy objects leaves their states equal to `MoveAll` of the old ones |
| PlayerModel.BasicSpawn | src/player/player.py:10-29 | a new player stands on the ground facing right, with no score, no velocity, the player size, and a negative jump power under positive gravity |
| PlayerModel.AnimatedSpawn | src/player/player_new.py:10-34 | a new animated player is airborne, faces right, has no score, and starts with the initial animation counters |
| PlayerModel.PlainSpawn | platformer/game_new.py:38-53 | the rectangle player is 40 x 60 with speed 5, jump power -15 and gravity 0.8 |
| PlayerModel.Moved | src/player/player_new.py:95-112 | x advances by `vel_x`, and a move past the left or right edge puts it exactly at 0 or at the width limit minus the player's width; gravity is added before y is integrated; with a floor the player never ends below it, and landing on it zeroes `vel_y` and sets `on_ground`; a dead player of the textured game does not move |
| PlayerModel.RestsOnFloor | src/player/player_new.py:108-112 | a player resting on the floor stays there over any number of moves |
| PlayerModel.FallsToFloor | src/player/player_new.py:95-112 | a falling player reaches the floor and is on the ground after enough moves |
| PlayerModel.Steered | main.py:157-164 | `vel_x` is `speed` for right, `-speed` for left, otherwise 0 (right wins); facing follows the key where the script tracks it |
| PlayerModel.Jumped | main.py:147-150 | a jump sets `vel_y` to the jump power and `jumping`, and clears `on_ground`, unless the player is already jumping |
| PlayerModel.JumpIdempotent | main.py:147-150 | a second jump request changes nothing |
| PlayerModel.AttackForced | src/player/player.py:155-156 | the first `start_attack` sets `is_attacking` and nothing else |
| PlayerModel.AttackStarted | src/player/player_new.py:171-175 | an attack starts, with counters reset, only when the player is neither attacking nor dead |
| PlayerModel.AttackStartIdempotent | src/player/player_new.py:171-175 | starting twice is starting once, and the player then attacks exactly when alive or already attacking |
| PlayerModel.DeathStarted | src/player/player_new.py:177-181 | death starts once, with counters reset; a dead player is unchanged |
| PlayerModel.DeathStartIdempotent | src/player/player_new.py:177-181 | starting death twice is starting it once |
| Players.FillEmptyLists | src/player/player_latest.py:111-114 | every animation list that loaded nothing gets exactly the one default image, and no other list changes |
| Players.LatestFrames | src/player/player_latest.py:110-120 | no animation list is ever empty; a failed load gives every list one image; when at least as many left-walk images load as right-walk ones, the counts meet the frame invariant |
| Players.Player.Basic | src/player/player.py:10-29 | the new object's state is `BasicSpawn` |
| Players.Player.Animated | src/player/player_new.py:10-34 | the new object's state is `AnimatedSpawn` |
| Players.Player.Plain | platformer/game_new.py:38-53 | the new object's state is `PlainSpawn` |
| Players.Player.Move | src/player/player_new.py:95-112 | `move` leaves the object's state equal to `Moved` of its old state |
| Players.Player.Steer | main.py:157-164 | the key handling leaves the state equal to `Steered` |
| Players.Player.Jump | main.py:147-150 | the jump leaves the state equal to `Jumped` |
| Players.Player.StartAttackAlways | src/player/player.py:155-156 | the state becomes `AttackForced` |
| Players.Player.StartAttack | src/player/player_new.py:171-175 | the state becomes `AttackStarted` |
| Players.Player.StartDeath | src/player/player_new.py:177-181 | the state becomes `DeathStarted` |
| Players.Player.AdvanceDeath | src/player/player_new.py:115-123 | the state becomes `DeathTick` |
| Players.Player.AdvanceAttack | src/player/player_new.py:125-139 | the state becomes `AttackTick` |
| Players.Player.AdvanceJumpCycle | src/player/player_new.py:141-150 | the state becomes `JumpCycle` |
| Players.Player.ShowJumpByVelocity | src/player/player_new_fixed.py:179-199 | the state becomes `JumpByVelocity` |
| Players.Player.AdvanceWalk | src/player/player_new.py:151-169 | the state becomes `WalkTick` |
| Players.Player.UpdateAnimationOf | src/player/player_new.py:114-169 | `update_animation` leaves the state equal to `UpdateAnimation` |
| Players.LoadedFramesOk | src/player/player_new.py:50-90 | the frame counts the loaders produce (8, 9, 4 and 6 frames) meet each variant's frame invariant |
| Animation.Trunc | src/player/player_new.py:143 | Python's `int()` on a real truncates towards zero |
| Animation.DeathTick | src/player/player_new.py:115-123 | the death frame rises by at most one, never past the last frame, and the death image shows it |
| Animation.AttackTick | src/player/player_new.py:125-139 | the attack frame stays in range; the attack can only end, and ends only after its last frame, with the frame reset to 0 |
| Animation.JumpCycle | src/player/player_new.py:141-150 | the jump image index is always a valid frame, and the timer wraps below `frames / 4` |
| Animation.JumpFrameNeedsNoWrap | src/player/player_new.py:143-150 | once the timer wraps, the `%` in the frame formula never changes the frame |
| Animation.JumpFrameFixed | src/player/player_new_fixed.py:181-188 | rising shows frames 0-3, with 3 at full jump power; the apex shows 4; falling shows 4-8, with 8 at twice the jump power |
| Animation.JumpByVelocity | src/player/player_new_fixed.py:179-199 | the jump image is mirrored by facing, its index is a valid frame, and it follows `JumpFrameFixed` |
| Animation.WalkTick | src/player/player_new.py:151-169 | the walk frame stays in range and is reset to 0 when standing still; the image follows facing |
| Animation.UpdateAnimation | src/player/player_new.py:114-169 | death takes precedence over the attack, which takes precedence over jump and walk; only the animation fields and `is_attacking` change, and attacking can only end |
| Animation.UpdateKeepsIndicesInRange | src/player/player_new.py:114-169 | every counter stays a valid index of its list, and the image shown always exists |
| Animation.SpawnAnimInv | src/player/player_new.py:10-34 | a new player with well-formed frame lists satisfies the animation invariant |
| Animation.TriggersKeepAnimInv | src/player/player_new.py:171-181 | `start_attack`, `start_death`, `move`, steering and jumping keep the animation invariant |
| Animation.DeathFrameMonotone | src/player/player_new.py:115-123 | the death frame never decreases, stays on the last frame once there, and nothing else animates |
| Animation.StepsPerFrame | src/player/player_new.py:127-128 | the number of updates that take the attack timer from 0 to 1 |
| Animation.AttackTimerRuns | src/player/player_new.py:127-128 | the attack timer climbs by its step each update without changing the frame |
| Animation.AttackEnds | src/player/player_new.py:125-134 | an attack with `left` frames to go lasts exactly `left` frame periods and ends on frame 0 |
| Animation.FreshAttackDuration | src/player/player_new.py:171-175 | a fresh 4-frame attack lasts exactly 4 frame periods of updates |
| Landing.LandOne | main.py:171-180 | a player falling onto a platform's top edge is put on it with `vel_y` 0, `on_ground` set and `jumping` cleared; no other check changes it |
| Landing.LandAll | main.py:170-180 | the platform loop never moves the player down, keeps `on_ground` once set, and a landing is always on the top edge of some platform under the player |
| Landing.LandsIfOnTop | main.py:170-180 | a falling player whose feet are in any platform's top band ends on the ground |
| Landing.LandOn | main.py:172-180 | one platform's test and snap leaves the player object equal to `LandOne` of its old state |
| Landing.ResolvePlatforms | main.py:170-180 | the loop over the platforms leaves the player object equal to `LandAll` |
| EnemyContacts.Stomped | main.py:192-195 | a stomp bounces the player with the jump power and adds 100 |
| EnemyContacts.TouchShielded | main.py:183-198 | a live enemy moves, then dies exactly when it overlaps a falling player; a non-falling player who is not attacking is hit |
| EnemyContacts.TouchStomp | game_new.py:163-180 | an enemy dies exactly when the player's feet are inside it while falling; an overlap with a survivor is a hit |
| EnemyContacts.TouchDie | game_with_textures.py:326-337 | an overlap with a live enemy starts the player's death unless the player is attacking or dead |
| EnemyContacts.TouchSlash | game_with_textures.py:279-292 | a slash kills a live enemy exactly when it is in reach and scores 100 for it |
| EnemyContacts.TouchShape | main.py:183-198 | a touch never revives an enemy and never moves the player, and the score rises by 100 exactly when an enemy died |
| EnemyContacts.TouchBounce | game_new.py:167-175 | under the stomp rules the player changes only by a stomp |
| EnemyContacts.Contacts | main.py:183-198 | the contact loop keeps the number of enemies |
| EnemyContacts.ContactsKeepDead | game_new.py:163-166 | dead enemies are left untouched |
| EnemyContacts.ContactsNeverRevive | main.py:183-198 | no enemy comes back to life |
| EnemyContacts.ContactsScore | main.py:192-195 | the score rises by exactly 100 per enemy killed |
| EnemyContacts.ContactsKeepPlace | main.py:183-198 | the contacts never move or resize the player |
| EnemyContacts.ContactsOnlyKill | game_new.py:163-180 | where enemies are moved beforehand, the contacts change only their `alive` flags |
| EnemyContacts.BountyConserved | main.py:192-195 | score plus 100 per live enemy is unchanged by the contact loop |
| EnemyContacts.HitSticks | game_new.py:176-180 | once a contact has ended the round, the later enemies cannot undo it |
| EnemyContacts.StompBounce | game_new.py:167-175 | the player changes only in `vel_y` and score; `vel_y` is unchanged without a kill and equals the jump power after one |
| EnemyContacts.AtMostOneStomp | game_new.py:167-175 | at most one enemy is stomped per loop, and none when the player is not falling |
| EnemyContacts.AttackShields | main.py:196-198 | an attacking player is never hit under main.py's rule |
| EnemyContacts.NotFallingStays | game_new.py:167-175 | once the player is not falling, no later enemy makes them fall |
| EnemyContacts.SecondContactEndsGame | game_new.py:163-180 | two live enemies overlapping the player in one loop always end the round |
| EnemyContacts.TouchAnyHitIff | game.py:144-150 | the prototype's loop stops exactly when the player overlaps some enemy, and changes nothing else |
| EnemyContacts.DieOnTouchIff | game_with_textures.py:326-337 | the player starts dying exactly when not attacking, not dead, and overlapping some live enemy; enemies are unchanged |
| EnemyContacts.SlashKillsInRange | game_with_textures.py:283-292 | a slash kills exactly the live enemies in reach and changes only the player's score |
| EnemyContacts.TouchEnemy | main.py:184-198 | one enemy object's contact, dispatched on the script's contact rule, leaves both objects equal to `Touch` of their old states |
| EnemyContacts.TouchShieldedEnemy | main.py:184-198 | a live enemy touched while the player falls is killed, the player bounces and scores 100; a side touch hits only a player not attacking; the objects end equal to `TouchShielded` |
| EnemyContacts.TouchStompEnemy | game_new.py:164-180 | a falling player whose feet are inside a live enemy kills it, bounces and scores 100; any other overlap with it is a hit; the objects end equal to `TouchStomp` |
| EnemyContacts.TouchDieEnemy | game_with_textures.py:326-337 | a live enemy overlapping a player neither attacking nor dead starts the player's death; the enemy object is not changed |
| EnemyContacts.TouchAnyEnemy | game.py:144-150 | the hit reported is exactly the overlap of the player's and the enemy's boxes, alive or not |
| EnemyContacts.TouchSlashEnemy | game_with_textures.py:283-292 | a live enemy in reach on the side the player faces and within a player height vertically is killed for 100 points; the objects end equal to `TouchSlash` |
| EnemyContacts.ResolveContacts | main.py:183-198 | the loop over distinct enemy objects leaves the player and enemies equal to `Contacts`, and reports its hit |
| Levels.PlatformsOf | main.py:83-111 | the platform list has one rectangle per configuration, in order |
| Levels.SpawnsAt | main.py:114-122 | the enemy list has one fresh enemy per spawn point, in order |
| Levels.AllHorizontal | platformer/game_new.py:146-153 | the all-horizontal mode list has the requested length |
| Levels.SpawnsAllAlive | main.py:114-122 | every spawned enemy is alive |
| Levels.BuildPlatforms | game_new.py:54-98 | the loop over the configurations builds exactly `PlatformsOf` |
| Levels.SpawnEnemies | game_new.py:100-103 | the loop creates distinct fresh enemy objects whose states are `SpawnsAt` |
| Rounds.EnemiesMoved | game_new.py:159-160 | the enemy pass keeps the number of enemies |
| Rounds.Physics | game_new.py:133-180 | the physics step keeps the number of enemies |
| Rounds.PhysicsKeepsXInBounds | main.py:167 | after the step the player is inside the horizontal bounds |
| Rounds.PhysicsKeepsAttack | main.py:154-198 | the step never starts or ends an attack |
| Rounds.PhysicsScore | main.py:192-195 | the score rises by 100 per enemy the step kills |
| Rounds.PhysicsConservesBounty | main.py:183-198 | score plus 100 per live enemy is unchanged by a step |
| Rounds.PhysicsStompsAtMostOnce | game_new.py:167-175 | a step adds 0 or 100 to the score under the stomp rules |
| Rounds.PhysicsKeepsAboveFloor | src/player/player_new.py:108-112 | where there is a floor, the player ends the step not below it |
| Rounds.PhysicsKeepsPatrol | platformer/game_new.py:197-221 | patrollers keep their invariant and anchors through a step |
| Rounds.Quitted | main.py:130-131 | a quit event clears `running` and changes nothing else |
| Rounds.JumpedOnKey | platformer/game_new.py:164-168 | the space bar jumps; without it the world is unchanged |
| Rounds.RunPlayer | main.py:157-180 | keys, `move` and platforms leave the player object equal to `Landed` |
| Rounds.RunPhysics | game_new.py:133-180 | the step on the objects matches `Physics` on their states |
| Rounds.RunPhysicsAndCamera | game_new.py:133-183 | the step and the camera update match `Physics` and `Scroll` |
| City.FreshLevel | main.py:78-122 | a new level has the player at (50, 500) with no score, 15 platforms, 7 live enemies at their spawn points, 700 points to win, and the camera at 0 |
| City.Clicked | main.py:133-140 | START in MENU starts play; RETRY in GAME_OVER rebuilds the level; other clicks change nothing |
| City.Keyed | main.py:142-150 | keys act only in PLAYING: space jumps unless already jumping, the attack key (Q in main.py, X in game_new.py) starts an attack, and an attack is never cancelled |
| City.AfterEvents | main.py:128-152 | a quit stops the loop; the buttons move between states; RETRY restores all enemies and zeroes the score; in GAME_OVER nothing else changes |
| City.NewLevel | main.py:78-122 | `init_game_objects` creates fresh, distinct objects whose states are the fresh level |
| MainGame.AfterUpdate | main.py:154-201 | `update` does nothing outside PLAYING; otherwise it keeps the platforms and the enemy count, leads to PLAYING or GAME_OVER, and keeps the camera in range |
| MainGame.UpdateKeepsPlayerInLevel | main.py:154-167 | while playing, the player stays inside the level |
| MainGame.UpdateScoresAtMostOnce | main.py:183-198 | an update adds 0 or 100 to the score |
| MainGame.ShieldHolds | main.py:196-198 | an attacking player survives every frame and stays attacking |
| MainGame.ShieldLasts | main.py:228-241 | with `is_attacking` never cleared, an attack protects the player for the rest of the run |
| MainGame.FrameBounty | main.py:183-198 | a frame conserves score plus 100 per live enemy, except that RETRY resets it to 700 |
| MainGame.RunBounty | main.py:228-241 | from a fresh level the score never exceeds 700 and stays a multiple of 100 |
| MainGame.Game.constructor | main.py:17-24 | a new game is in MENU, running, on a fresh level |
| MainGame.Game.InitGameObjects | main.py:78-122 | the objects are rebuilt as the fresh level |
| MainGame.Game.ResetGame | main.py:124-126 | reset gives PLAYING on a fresh level |
| MainGame.Game.HandleClick | main.py:133-140 | the click handler matches `Clicked` |
| MainGame.Game.HandleKeys | main.py:142-150 | the key handler matches `Keyed` |
| MainGame.Game.HandleEvents | main.py:128-152 | `handle_events` matches `AfterEvents` and returns whether to keep running |
| MainGame.Game.Update | main.py:154-201 | `update` matches `AfterUpdate` |
| MainGame.Game.Frame | main.py:228-241 | one pass of `run` matches `AfterFrame` |
| MainGame.Game.RunLoop | main.py:228-241 | `run` over a finite input sequence matches `Run` |
| NewGame.AfterUpdate | game_new.py:130-183 | `update` does nothing outside PLAYING; otherwise it keeps the platforms and the enemy count, leads to PLAYING or GAME_OVER, and keeps the camera in range |
| NewGame.UpdateKeepsPlayerInLevel | game_new.py:130-143 | while playing, the player stays inside the level |
| NewGame.UpdateScoresAtMostOnce | game_new.py:163-180 | an update adds 0 or 100 to the score |
| NewGame.DoubleContactEndsRound | game_new.py:163-180 | two live enemies touching the player in one update end the round |
| NewGame.FrameBounty | game_new.py:163-180 | a frame conserves score plus 100 per live enemy, except that RETRY resets it to 700 |
| NewGame.RunBounty | game_new.py:214-222 | from a fresh level the score never exceeds 700 and stays a multiple of 100 |
| NewGame.Game.constructor | game_new.py:54-103 | a new game is in MENU, running, on a fresh level |
| NewGame.Game.InitGameObjects | game_new.py:54-103 | the objects are rebuilt as the fresh level |
| NewGame.Game.ResetGame | game_new.py:105-107 | reset gives PLAYING on a fresh level |
| NewGame.Game.HandleClick | game_new.py:114-118 | the click handler matches `Clicked` |
| NewGame.Game.HandleKeys | game_new.py:120-126 | the key handler matches `Keyed` |
| NewGame.Game.HandleEvents | game_new.py:109-128 | `handle_events` matches `AfterEvents` |
| NewGame.Game.Update | game_new.py:130-183 | `update` matches `AfterUpdate` |
| NewGame.Game.Frame | game_new.py:214-222 | one pass of `run` matches `AfterFrame` |
| NewGame.Game.RunLoop | game_new.py:214-222 | `run` matches `Run` |
| TexturedGame.SlashKills | game_with_textures.py:279-292 | a left click while playing starts the attack and kills exactly the live enemies in reach; nothing but the score and those flags changes |
| TexturedGame.AfterPhysics | game_with_textures.py:295-337 | the movement block runs only while PLAYING with a living player, and keeps the platforms and the enemy count |
| TexturedGame.LandedKeepsAnimInv | game_with_textures.py:295-319 | keys, `move` and platforms keep the animation invariant and the attacking and dead flags |
| TexturedGame.EventsKeepInv | game_with_textures.py:269-292 | the event loop keeps the frame invariant |
| TexturedGame.PhysicsKeepsInv | game_with_textures.py:295-337 | the movement block keeps it: the player is dead exactly when the round is not PLAYING |
| TexturedGame.EventsAndPhysicsKeepInv | game_with_textures.py:269-337 | events followed by movement keep the invariant |
| TexturedGame.AfterFrame | game_with_textures.py:267-369 | every frame keeps the invariant and draws an image that exists |
| TexturedGame.Run | game_with_textures.py:267-369 | any run keeps the invariant |
| TexturedGame.StartInv | game_with_textures.py:250-264 | the start satisfies the invariant, with 200 points to win |
| TexturedGame.ContactStartsDying | game_with_textures.py:326-337 | the round becomes DYING exactly when a player who is not attacking touches a live enemy; the death animation then starts at frame 0 |
| TexturedGame.DyingEndsAtLastFrame | game_with_textures.py:357-358 | DYING turns into GAME_OVER exactly when the last death frame shows; GAME_OVER is final |
| TexturedGame.EventsBounty | game_with_textures.py:279-292 | the slash conserves score plus 100 per live enemy |
| TexturedGame.MovementBounty | game_with_textures.py:295-337 | the movement block keeps score plus 100 per live enemy |
| TexturedGame.DrawKeepsInv | game_with_textures.py:354-358 | drawing keeps the frame invariant and the bounty and shows an image that exists |
| TexturedGame.FrameBounty | game_with_textures.py:267-369 | a frame conserves it |
| TexturedGame.RunBounty | game_with_textures.py:267-369 | the score never exceeds 200 and stays a multiple of 100 |
| TexturedGame.StartObjects | game_with_textures.py:250-260 | the created objects are the start state |
| TexturedGame.Session.constructor | game_with_textures.py:250-264 | the globals start as the start state |
| TexturedGame.Session.Slash | game_with_textures.py:279-292 | the click handler matches `Slashed` |
| TexturedGame.Session.Quit | game_with_textures.py:270-271 | the QUIT branch matches `Quitted` |
| TexturedGame.Session.JumpKey | game_with_textures.py:273-277 | the jump branch matches `JumpKeyed` |
| TexturedGame.Session.HandleEvents | game_with_textures.py:269-292 | the event loop matches `AfterEvents` |
| TexturedGame.Session.StepPhysics | game_with_textures.py:295-337 | the movement block matches `AfterPhysics` |
| TexturedGame.Session.Draw | game_with_textures.py:354-358 | drawing the player and the DYING check match `AfterDraw` |
| TexturedGame.Session.EventsAndPhysics | game_with_textures.py:269-337 | events and movement match their composition |
| TexturedGame.Session.Frame | game_with_textures.py:267-369 | one pass matches `AfterFrame` |
| TexturedGame.Session.RunLoop | game_with_textures.py:267-369 | the loop matches `Run` |
| PlatformerNew.StartLevel | platformer/game_new.py:122-153 | the start has a 40 x 60 player at (50, 500) with no score, 13 platforms, 7 live patrollers and 700 points to win |
| PlatformerNew.FrameKeepsPlayerInLevel | platformer/game_new.py:171-181 | after a frame the player is inside the level and not below the floor, and the camera is in range |
| PlatformerNew.FrameScoresAtMostOnce | platformer/game_new.py:201-214 | a frame adds 0 or 100 to the score |
| PlatformerNew.DoubleContactStops | platformer/game_new.py:201-221 | two live enemies touching the player in one frame stop the loop |
| PlatformerNew.FrameKeepsPatrols | platformer/game_new.py:197-198 | a frame keeps the enemies' patrol invariant, speed, range and anchors |
| PlatformerNew.RunKeepsPatrols | platformer/game_new.py:159-224 | any run keeps them |
| PlatformerNew.EnemiesStayNearSpawn | platformer/game_new.py:106-113 | over any run every enemy stays within 102 of its spawn point |
| PlatformerNew.PatrolsStayNear | platformer/game_new.py:106-113 | enemies satisfying the patrol invariant are within `patrol_range + speed` = 102 of their spawn points |
| PlatformerNew.FrameBounty | platformer/game_new.py:201-221 | a frame conserves score plus 100 per live enemy |
| PlatformerNew.RunBounty | platformer/game_new.py:159-224 | the score never exceeds 700 and stays a multiple of 100 |
| PlatformerNew.StartObjects | platformer/game_new.py:122-153 | the created objects are the start state |
| PlatformerNew.Session.constructor | platformer/game_new.py:122-156 | the globals start as the start state |
| PlatformerNew.Session.Quit | platformer/game_new.py:162-163 | the QUIT branch matches `Quitted` |
| PlatformerNew.Session.JumpKey | platformer/game_new.py:164-168 | the jump branch matches `JumpedOnKey` |
| PlatformerNew.Session.HandleEvents | platformer/game_new.py:161-168 | the event loop matches `AfterEvents` |
| PlatformerNew.Session.Step | platformer/game_new.py:171-224 | the rest of the loop body matches `AfterStep` |
| PlatformerNew.Session.Frame | platformer/game_new.py:159-224 | one pass matches `AfterFrame` |
| PlatformerNew.Session.RunLoop | platformer/game_new.py:159-224 | the loop matches `Run` |
| PlatformerMenu.Revived | platformer/game.py:199-200 | every enemy is alive again and nothing else about it changes |
| PlatformerMenu.Clicked | platformer/game.py:207-211 | START in MENU starts play; RETRY in GAME_OVER resets; other clicks change nothing |
| PlatformerMenu.Keyed | platformer/game.py:212-216 | the space bar jumps only in PLAYING |
| PlatformerMenu.AfterStep | platformer/game.py:269-322 | the step does nothing outside PLAYING; otherwise it keeps the platforms and the enemy count, leads to PLAYING or GAME_OVER, and keeps the camera in range |
| PlatformerMenu.RevivedAllAlive | platformer/game.py:199-200 | after reviving, every enemy is alive |
| PlatformerMenu.ResetRevives | platformer/game.py:195-200 | reset gives PLAYING, a new player at (50, 500) with no score, and every enemy alive where it stood; the camera and platforms are kept |
| PlatformerMenu.StartLevel | platformer/game.py:153-189 | the start is in MENU with 13 platforms, 7 live enemies in patrol shape and 700 points to win |
| PlatformerMenu.StepKeepsPlayerInLevel | platformer/game.py:271-294 | while playing, the player stays inside the level and not below the floor |
| PlatformerMenu.DoubleContactEndsRound | platformer/game.py:301-319 | two live enemies touching the player in one step end the round |
| PlatformerMenu.FrameKeepsPatrols | platformer/game.py:297-298 | a frame keeps the patrol invariant and anchors, including across RETRY |
| PlatformerMenu.RunKeepsPatrols | platformer/game.py:202-322 | any run keeps them |
| PlatformerMenu.PatrolsStayNear | platformer/game.py:110-122 | enemies satisfying the patrol invariant are within 152 of their spawn points |
| PlatformerMenu.EnemiesStayNearSpawn | platformer/game.py:110-122 | over any run every enemy stays within 152 of its spawn point |
| PlatformerMenu.FrameBounty | platformer/game.py:195-200 | a frame conserves score plus 100 per live enemy, except that RETRY resets it to 100 per enemy |
| PlatformerMenu.RunBounty | platformer/game.py:202-322 | the score never exceeds 700 and stays a multiple of 100 |
| PlatformerMenu.ReviveEnemies | platformer/game.py:199-200 | the revive loop leaves the enemy objects equal to `Revived` |
| PlatformerMenu.StartObjects | platformer/game.py:153-189 | the created objects are the start state |
| PlatformerMenu.Session.constructor | platformer/game.py:153-189 | the globals start as the start state |
| PlatformerMenu.Session.ResetGame | platformer/game.py:195-200 | `reset_game` matches `Reset` |
| PlatformerMenu.Session.Quit | platformer/game.py:205-206 | the QUIT branch matches `Quitted` |
| PlatformerMenu.Session.HandleClick | platformer/game.py:207-211 | the click branch matches `Clicked` |
| PlatformerMenu.Session.JumpKey | platformer/game.py:212-216 | the key branch matches `Keyed` |
| PlatformerMenu.Session.HandleEvents | platformer/game.py:204-216 | the event loop matches `AfterEvents` |
| PlatformerMenu.Session.Step | platformer/game.py:269-322 | the gated step matches `AfterStep` |
| PlatformerMenu.Session.Frame | platformer/game.py:202-322 | one pass matches `AfterFrame` |
| PlatformerMenu.Session.RunLoop | platformer/game.py:202-322 | the loop matches `Run` |
| BasicGame.StartScreen | game.py:89-99 | the 40 x 60 player starts at (400, 540), with four platforms and two live 30 x 30 chasers of speed 2 at (100, 450) and (600, 250) |
| BasicGame.FrameStopsIff | game.py:105-150 | the loop goes on exactly when it was running, no quit came, and the landed player touches neither chaser after its step |
| BasicGame.FrameOnlyChases | game.py:125-150 | a frame moves each chaser `speed` towards the player, stepping right exactly when it is left of the player, and kills nothing |
| BasicGame.FrameKeepsPlayerOnScreen | game.py:35-52 | the player stays on the screen horizontally and not below its bottom |
| BasicGame.RunOnlyChases | game.py:105-162 | over any run the chasers keep everything but x, and the score never changes |
| BasicGame.StartObjects | game.py:89-99 | the created objects are the start state |
| BasicGame.Session.constructor | game.py:89-102 | the globals start as the start state |
| BasicGame.Session.Quit | game.py:108-109 | the QUIT branch matches `Quitted` |
| BasicGame.Session.JumpKey | game.py:110-114 | the jump branch matches `JumpedOnKey` |
| BasicGame.Session.HandleEvents | game.py:107-114 | the event loop matches `AfterEvents` |
| BasicGame.Session.Step | game.py:117-150 | the rest of the loop body matches `AfterStep` |
| BasicGame.Session.Frame | game.py:105-162 | one pass matches `AfterFrame` |
| BasicGame.Session.RunLoop | game.py:105-162 | the loop matches `Run` |
| Buttons.LightenBounds | src/ui/button.py:19-23 | lightening gives a valid colour, no darker in any channel, and exact below the 255 clamp |
| Buttons.LightenTwice | src/ui/button.py:43 | lightening twice is lightening once by the sum, so the highlight is the base colour lightened by 80 |
| Buttons.PulseStepsKeepBounded | src/ui/button.py:27-29 | the pulse never leaves `(-0.1, 5.1)` |
| Buttons.PulseRises | src/ui/button.py:27-29 | from rest the pulse climbs by 0.1 per draw and turns at exactly 5 on the 50th |
| Buttons.PulseFalls | src/ui/button.py:27-29 | from the top it falls by 0.1 per draw and turns at exactly 0 on the 50th |
| Buttons.PulsePeriod | src/ui/button.py:27-29 | a button left alone pulses with a period of 100 draws |
| Buttons.FontSize | src/ui/button.py:46-47 | the font size is 36 when not hovered and between 35 and 41 while pulsing |
| Buttons.Button.constructor | src/ui/button.py:7-17 | a new button has the hover colour lightened by 30, is not hovered, and its pulse is at rest |
| Buttons.Button.StepPulse | src/ui/button.py:27-29 | the draw's pulse step matches `PulseStep` and keeps the pulse bounded |
| Buttons.Button.Update | src/ui/button.py:59-66 | the button is hovered exactly when `is_clicked` holds for the mouse position, and the pulse restarts only on a change of hover state |

## Left out

- Rendering, fonts, textures, sounds, `print`, `pygame.display` and the clock are not modelled. Events and held keys arrive as one `Input` per frame.
- Events within a frame are handled in a fixed order, at most one of each kind: quit, click, jump key, attack key. The source handles whatever order the event queue delivers.
- The time-based animation of src/player/player.py (`update_animation` driven by `pygame.time.get_ticks`) is not modelled; that player's image counters are left out.
- Numbers are exact: y, velocities and timers are `real`s, with no IEEE rounding. Buttons.PulseRises, Buttons.PulsePeriod, Animation.StepsPerFrame and Animation.FreshAttackDuration hold for exact arithmetic; with floating point the pulse turns after 50 or 51 steps, and the attack step count may differ by one.
- `random.choice` for the enemy modes of platformer/game.py and `math.sin` for their vertical path are parameters; nothing is assumed of `sin`.
- Camera.Apply: the pygame `Rect` truncation of a real y to an integer is not modelled; the y is kept exact.
- src/player/player_latest_fixed.py is a fragment that does not define a complete class and is not part of this model.
- The menu, game-over and win screens of src/ui are not modelled beyond the rectangles of their buttons (src/ui/menu.py:12, src/ui/game_over.py:9) and their click tests. The button text, highlight, shadow and hover-colour drawing are not modelled.
- src/constants.py:22 declares `WIN = 4` and src/ui/win_screen_new.py:10 defines a `WinScreen`, but no modelled script ever enters WIN, so neither is modelled. No script handles a player falling out of the level either.
- game_with_textures.py:16 calls `os.path.dirname`, but the script never imports `os` (lines 1-6 import pygame, random, math, sys and src/constants.py, which imports only pygame), so as written it stops with a NameError at line 16. The TexturedGame rows describe the loop the script would run if `os` were imported.
- platformer/game.py:269 joins `running = False` and `if game_state == PLAYING:` on one line, so the script does not parse. The model follows the PLAYING-gated step (lines 269-322) and leaves out the ungated copy at lines 219-268.
- A patrolling enemy of src/enemies/enemy.py turns one move after it reaches its bound: the strict `>` at lines 41-46 lets it arrive at the bound still heading right, and it turns on the next move. Enemies.ClampPatrolTurnsAtBound states this for speed 2 and range 150.
- Players.LatestFrames: the frame invariant is promised only when at least as many left-walk images loaded as right-walk ones. src/player/player_latest.py:186 takes the walk frame modulo the number of right-walk images, and line 191 indexes the left-walk list with it, so with fewer left-walk images the source raises IndexError; the model promises nothing for that case.
- Players.LatestFrames takes the attack_right and attack_left counts separately. src/player/player_latest.py:89-92 appends to both lists in one `try` block, so they are equal unless flipping an image raises after its right copy was appended; the model covers that case too.
- BasicGame.FrameOnlyChases and BasicGame.RunOnlyChases require every enemy speed to be positive; game.py's speed of 2 meets this, and the lemmas say nothing for other speeds.
- The texture index of game_with_textures.py's `Platform` and `set_texture` in main.py and game_new.py are not modelled, because they only affect drawing.
